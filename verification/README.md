# Computer-use and agent quickstarts, modelled in Dafny

This project models the Python core of the Anthropic quickstarts for computer use and for agents:

- **Tool results and tools.** The `ToolResult` algebra, the tool parameter dictionaries, the tool collection that dispatches by name, and the computer tool's argument checks and coordinate scaling.
- **The sampling loop.** Pruning of old screenshots, packaging of tool results, and the append-and-retry loop itself.
- **Token accounting.** The token-usage logger.
- **Agent helpers.** Message history with truncation to a context window, the agent's file tools, tool execution, MCP tools and connections.
- **Services around the loop.**
  - The batch task server: its task table, its single processing slot and its Cloud Run branch.
  - The REST chat bridge.
  - The Streamlit front end's state handling.
  - The Telegram bot's configuration and access control.
  - The console balance tracker.

Where a module's text and its code disagree, the model follows the code.

**Layout.** There is one Dafny module per source file, plus two helper modules:

- `Wrappers` holds `Option` and `Result`.
- `Text` holds the Python string operations the code relies on: `"".join`, `str.count`, `str.replace`, `split`, `strip`, line splitting, `int()` and `str()` on integers.

**How the source's form carries over.**

- Pure code is modelled as datatypes and functions.
- Objects whose fields change become classes whose methods state the new state: `MessageHistory`, `TokenUsage`, `TaskServer`, `ConversationStore`, `SessionState`, `Tracker` and `FileSystem`.
- Loops become methods with invariants, each proved equal to a specification function:
  - `truncate`;
  - the image filter, which works in place on an array;
  - the tool-call loop;
  - `read_sync`;
  - `analyze_message_payload`;
  - `run_task`'s callbacks;
  - the chat bridge's text collection;
  - `format_messages_for_langchain`;
  - `background_balance_check`;
  - `_scale_coordinates`.

**What becomes a parameter.** Everything outside the process:

- the model API and the tools it calls;
- the shell, the disk's `glob`, the MCP server;
- the clock, uuids, the environment;
- the Fernet cipher and the console scraper.

## Model

| member | source | states |
|---|---|---|
| Text.ConcatAppend | computer-use-demo/computer_use_demo/rest_api.py:101 | `"".join` of two lists is the join of each, concatenated |
| Text.CountPositiveIffContains | agents/tools/file_tools.py:256-258 | `s.count(t) > 0` exactly when `t in s`, both directions |
| Text.ReplaceWithoutOccurrence | agents/tools/file_tools.py:259-268 | with no occurrence, `replace` returns the text unchanged |
| Text.ReplaceLength | agents/tools/file_tools.py:259-268 | `replace` changes the length by `count * (len(new) - len(old))` |
| Text.LineEnd | agents/tools/file_tools.py:92-96 | the first line ends at the first `\n` (kept) or at the end of the text |
| Text.ConcatLines | agents/tools/file_tools.py:92-98 | joining the lines of a file gives the file back |
| Text.LinesShape | agents/tools/file_tools.py:92-96 | every line is non-empty, and every line but the last ends with its only `\n` |
| Text.FieldEnd | computer-use-demo/computer_use_demo/config.py:38 | the index of the first separator, or the length when there is none |
| Text.Split | computer-use-demo/computer_use_demo/config.py:38 | `split(c)` always yields at least one piece |
| Text.JoinSplit | computer-use-demo/computer_use_demo/config.py:38 | joining the pieces of `split(c)` with `c` gives the text back, and no piece holds `c` |
| Text.StripLeftShape | computer-use-demo/computer_use_demo/rest_api.py:101 | the left strip is a suffix of the text that starts with no whitespace |
| Text.StripRightShape | computer-use-demo/computer_use_demo/rest_api.py:101 | the right strip is a prefix of the text that ends with no whitespace |
| Text.StripShape | computer-use-demo/computer_use_demo/rest_api.py:101 | `strip()` is a contiguous part of the text with no surrounding whitespace |
| Text.NatToString | computer-use-demo/computer_use_demo/config.py:33 | `str(n)` is a non-empty run of digits |
| Text.DigitsOfNat | computer-use-demo/computer_use_demo/config.py:33 | the digits of `str(n)` read back as `n` |
| Text.ParseIntToString | computer-use-demo/computer_use_demo/config.py:33 | `int(str(i)) == i` for every integer |
| ToolBase.LookupFound | computer-use-demo/computer_use_demo/tools/base.py:37-45 | a key is found in a dict exactly when some entry carries it |
| ToolBase.Put | computer-use-demo/computer_use_demo/tools/base.py:41-45 | `d[k] = v` sets `k`, changes no other key, keeps every position, and appends a new key last |
| ToolBase.PutKeepsDistinct | computer-use-demo/computer_use_demo/tools/base.py:41-45 | assignment keeps the keys distinct |
| ToolBase.MergeLookup | computer-use-demo/computer_use_demo/tools/base.py:41-45 | in `{**d, **e}` a key of `e` takes `e`'s value and every other key keeps `d`'s |
| ToolBase.MergeKeepsDistinct | computer-use-demo/computer_use_demo/tools/base.py:41-45 | merging keeps the keys distinct |
| ToolBase.ToParams | computer-use-demo/computer_use_demo/tools/base.py:37-45 | without options, `to_params` is exactly `{name, type}` |
| ToolBase.ToParamsLookup | computer-use-demo/computer_use_demo/tools/base.py:37-45 | each key of `to_params` answers with the option's value when the options carry it, otherwise with name/type; no other key appears |
| ToolBase.IsTruthy | computer-use-demo/computer_use_demo/tools/base.py:57-58 | a result is truthy iff one of its fields is set and non-empty |
| ToolBase.CombineFields | computer-use-demo/computer_use_demo/tools/base.py:61-68 | two set fields fail to combine unless concatenation is allowed, in which case the texts concatenate; otherwise the set one wins |
| ToolBase.Add | computer-use-demo/computer_use_demo/tools/base.py:60-75 | `+` fails iff both results carry an image; otherwise output, error and system concatenate |
| ToolBase.AddTruthy | computer-use-demo/computer_use_demo/tools/base.py:57-75 | a sum is truthy iff one of its summands is |
| ToolBase.AddEmptyLeft | computer-use-demo/computer_use_demo/tools/base.py:60-75 | the empty result is a left identity of `+`, up to the class, which becomes `ToolResult` |
| ToolBase.CombineAssociative | computer-use-demo/computer_use_demo/tools/base.py:61-68 | combining fields is associative |
| ToolBase.AddAssociative | computer-use-demo/computer_use_demo/tools/base.py:60-75 | `(x + y) + z` and `x + (y + z)` agree, failure included; both fail iff two of the three carry an image |
| ToolBase.Replace | computer-use-demo/computer_use_demo/tools/base.py:77-79 | `replace` keeps the class, sets the named fields and keeps the others |
| ToolCollection.BuildToolMap | computer-use-demo/computer_use_demo/tools/collection.py:18-20 | the tool map holds exactly the tools' names, each mapped to the last tool that carries it |
| ToolCollection.ToolCollection.constructor | computer-use-demo/computer_use_demo/tools/collection.py:18-20 | the collection holds the given tools in order, with their map built |
| ToolCollection.ToolCollection.ToParams | computer-use-demo/computer_use_demo/tools/collection.py:22-29 | one dict per tool in order; with caching, the last one gains `cache_control`, and an empty collection raises IndexError |
| ToolCollection.ToolCollection.Run | computer-use-demo/computer_use_demo/tools/collection.py:31-38 | an unknown name gives a failure result; a known one runs its tool, and a ToolError becomes a failure result carrying its message |
| ToolCollection.RunDispatchesToLast | computer-use-demo/computer_use_demo/tools/collection.py:18-38 | `run` reaches the last tool with that name; a name no tool carries is refused |
| HistoryUtil.SumAppend | agents/utils/history_util.py:61-67 | recording a turn adds its input and output counts to the sum |
| HistoryUtil.RemoveMessagePair | agents/utils/history_util.py:85-91 | dropping a pair removes the two oldest messages and the oldest token record, and subtracts it from the total |
| HistoryUtil.TruncationStep | agents/utils/history_util.py:93-111 | one loop iteration removes two messages and the oldest record; when both remain non-empty, the new head becomes the truncation notice, with 25 input tokens and its output count kept |
| HistoryUtil.StepConserves | agents/utils/history_util.py:85-111 | an iteration keeps the running total equal to the system tokens plus the records |
| HistoryUtil.TruncateConserves | agents/utils/history_util.py:69-111 | truncation keeps that conservation law |
| HistoryUtil.TruncateExit | agents/utils/history_util.py:93-96 | truncation stops only when the total fits, no record is left, or fewer than two messages remain |
| HistoryUtil.TruncateKeepsRecent | agents/utils/history_util.py:93-111 | truncation drops only the oldest messages; every kept message after the head is the original one |
| HistoryUtil.TruncateMarksHead | agents/utils/history_util.py:101-111 | after a removal, the head of a history that still has a record is the truncation notice |
| HistoryUtil.MessageHistory.constructor | agents/utils/history_util.py:9-42 | a new history is empty, and its total is the system prompt's token count |
| HistoryUtil.MessageHistory.AddMessage | agents/utils/history_util.py:44-67 | the message is appended last; an assistant turn with usage records its tokens and raises the total by them; nothing else changes |
| HistoryUtil.MessageHistory.Truncate | agents/utils/history_util.py:69-111 | the loop computes the specification; a history that fits is unchanged; on exit the total fits or nothing more can be dropped |
| HistoryUtil.MessageHistory.FormatForApi | agents/utils/history_util.py:113-124 | same messages, roles and order; with caching, every block of the last message, and only those, gains the ephemeral cache mark |
| Computer.Chunks | computer-use-demo/computer_use_demo/tools/computer.py:62-63 | the chunks concatenate to the text; all are non-empty and at most `n` long, and all but the last are exactly `n` long |
| Computer.ChunksCount | computer-use-demo/computer_use_demo/tools/computer.py:62-63 | the number of chunks is the length divided by `n`, rounded up |
| Computer.FirstMatch | computer-use-demo/computer_use_demo/tools/computer.py:229-234 | the first target whose aspect ratio is within 0.02 of the screen's, and no earlier one matches |
| Computer.TargetFor | computer-use-demo/computer_use_demo/tools/computer.py:229-234 | a target is chosen iff the first target whose aspect ratio matches is narrower than the screen, and it is that first match |
| Computer.TargetScreenPositive | computer-use-demo/computer_use_demo/tools/computer.py:227-236 | a target is chosen only for a screen of positive size |
| Computer.RoundHalfEven | computer-use-demo/computer_use_demo/tools/computer.py:245-247 | Python's `round`: the nearest integer, ties to even |
| Computer.RoundBetween | computer-use-demo/computer_use_demo/tools/computer.py:245-247 | rounding keeps a quotient between the integers that bound it |
| Computer.RoundExact | computer-use-demo/computer_use_demo/tools/computer.py:245-247 | an exact quotient rounds to itself |
| Computer.ScaleCoordinates | computer-use-demo/computer_use_demo/tools/computer.py:223-247 | the search loop and scaling compute the specification `ScaleSpec` |
| Computer.ScaleIdentity | computer-use-demo/computer_use_demo/tools/computer.py:225-236 | with scaling off, or with no target, coordinates pass through |
| Computer.ScaleCorners | computer-use-demo/computer_use_demo/tools/computer.py:238-247 | the screen's far corner scales down to the target's, and back up |
| Computer.ApiCornerRefused | computer-use-demo/computer_use_demo/tools/computer.py:241-243 | the bounds check uses the screen's size: a 1367x761 screen refuses FWXGA's own corner |
| Computer.ScaleDownFits | computer-use-demo/computer_use_demo/tools/computer.py:246-247 | a point on the screen scales down into the target |
| Computer.ApiOutOfBounds | computer-use-demo/computer_use_demo/tools/computer.py:241-243 | from the model, a point is refused iff it lies beyond the screen's width or height |
| Computer.ScalingExamples | computer-use-demo/tests/tools/computer_test.py:59-122 | the tests' resolutions scale as they expect, both ways, and (2000, 1500) is refused |
| Computer.PointerActionChecks | computer-use-demo/computer_use_demo/tools/computer.py:94-111 | the checks, in order, for mouse_move and left_click_drag; they run iff given a tuple of two non-negative ints within bounds; a point out of bounds is refused with its values as printed; a run moves or drags to the scaled point |
| Computer.KeyboardActionChecks | computer-use-demo/computer_use_demo/tools/computer.py:113-133 | the checks for key and type; typing sends the text in chunks of 50 that concatenate to it |
| Computer.ClickActionChecks | computer-use-demo/computer_use_demo/tools/computer.py:135-169 | clicks, screenshot and cursor_position refuse text, answer a coordinate with advice, and otherwise run |
| Computer.PointerAction | computer-use-demo/computer_use_demo/tools/computer.py:94-111 | never advice; it runs only with a valid point and no text, as a move to the scaled point for mouse_move and a drag to it otherwise |
| Computer.ApiScale | computer-use-demo/computer_use_demo/tools/computer.py:223-247 | the model's coordinates are refused iff their int values are out of bounds, with the values printed as given (a bool as True/False); an unscaled point comes back unchanged, a scaled one as ints equal to the scaled values |
| Computer.BoolCoordinate | computer-use-demo/computer_use_demo/tools/computer.py:101-111 | (True, 5000) off a 1920x1080 screen is refused as "Coordinates True, 5000 are out of bounds"; with scaling off, (True, 5) moves to True 5 |
| Computer.CoordinateInMessage | computer-use-demo/computer_use_demo/tools/computer.py:99-102 | the messages print the coordinate as Python does: a bare string unquoted, a tuple with quoted strings |
| Computer.KeyboardAction | computer-use-demo/computer_use_demo/tools/computer.py:113-133 | never advice; it runs iff the text is a string and there is no coordinate; key presses the text, type sends chunks that concatenate to it |
| Computer.ClickAction | computer-use-demo/computer_use_demo/tools/computer.py:135-169 | it runs iff there is neither text nor coordinate, and answers a coordinate without text with advice; left_click clicks button 1 |
| Computer.ComputerAction | computer-use-demo/computer_use_demo/tools/computer.py:94-171 | advice comes only from a click action given a coordinate; an action that runs belongs to one of the three groups, and only keyboard actions run with text |
| Computer.InvalidAction | computer-use-demo/computer_use_demo/tools/computer.py:171 | any other action raises "Invalid action" |
| SamplingLoop.ImagesOf | computer-use-demo/computer_use_demo/loop.py:156-161 | the counted items are all images, in order |
| SamplingLoop.DropItemsImages | computer-use-demo/computer_use_demo/loop.py:166-175 | rewriting a content list drops exactly its first `n` images |
| SamplingLoop.DropItemsNonImages | computer-use-demo/computer_use_demo/loop.py:166-175 | the rewrite keeps every other item, in order |
| SamplingLoop.DropBlocks | computer-use-demo/computer_use_demo/loop.py:144-175 | the rewrite keeps the number of blocks |
| SamplingLoop.DropBlocksImages | computer-use-demo/computer_use_demo/loop.py:144-175 | across a message's blocks, exactly the first `n` counted images go |
| SamplingLoop.DropBlocksErase | computer-use-demo/computer_use_demo/loop.py:144-175 | the rewrite changes nothing but images |
| SamplingLoop.DropMessages | computer-use-demo/computer_use_demo/loop.py:144-175 | the rewrite keeps the number of messages |
| SamplingLoop.DropMessagesImages | computer-use-demo/computer_use_demo/loop.py:144-175 | across the conversation, exactly the oldest `n` counted images go |
| SamplingLoop.DropMessagesErase | computer-use-demo/computer_use_demo/loop.py:144-175 | the conversation changes in nothing but images |
| SamplingLoop.PyMod | computer-use-demo/computer_use_demo/loop.py:164 | Python's `%` takes the sign of the divisor |
| SamplingLoop.FilterKeepsRecentImages | computer-use-demo/computer_use_demo/loop.py:139-175 | the filter keeps the most recent images and drops only the oldest surplus |
| SamplingLoop.FilterCount | computer-use-demo/computer_use_demo/loop.py:163-164 | at least `images_to_keep` images stay, and fewer than `keep + threshold` when there were more; the removal is a multiple of the threshold |
| SamplingLoop.SurplusSplit | computer-use-demo/computer_use_demo/loop.py:163-164 | the surplus minus its remainder is a multiple of the threshold, between surplus−threshold and surplus |
| SamplingLoop.FilterExample | computer-use-demo/tests/test_filter_images.py:8-48 | three images, keep two, threshold 1: exactly the oldest goes |
| SamplingLoop.FilterItems | computer-use-demo/computer_use_demo/loop.py:166-175 | the inner loop computes the rewrite and the remaining counter |
| SamplingLoop.FilterBlocks | computer-use-demo/computer_use_demo/loop.py:166-175 | the block loop computes the rewrite and the remaining counter |
| SamplingLoop.FilterMessage | computer-use-demo/computer_use_demo/loop.py:166-175 | only a block list is looked into |
| SamplingLoop.FilterToNMostRecentImages | computer-use-demo/computer_use_demo/loop.py:139-175 | in place on the message array, the result is the specification `FilterSpec` of the old contents |
| SamplingLoop.FilterAt | computer-use-demo/computer_use_demo/loop.py:166-175 | one iteration rewrites the message at its index and advances the counter |
| SamplingLoop.PrependSystem | computer-use-demo/computer_use_demo/loop.py:206-209 | the text gains the `<system>` prefix iff `system` is truthy, and otherwise is unchanged |
| SamplingLoop.MakeApiToolResult | computer-use-demo/computer_use_demo/loop.py:178-203 | an error gives an error block with the error text prefixed by the system note; otherwise the content is exactly a text item (the output, prefixed by the system note) iff the output is non-empty, then an image item iff there is a screenshot |
| SamplingLoop.ToolResultImages | computer-use-demo/computer_use_demo/loop.py:178-203 | a packaged result holds one image iff the result had one and no error |
| SamplingLoop.RunTools | computer-use-demo/computer_use_demo/loop.py:110-121 | one result block per tool call, answering the calls' ids in order; the first raising call raises |
| SamplingLoop.RunToolsFirstFailure | computer-use-demo/computer_use_demo/loop.py:110-121 | a failed run carries the error of a tool call that raised, and every call before it succeeded |
| SamplingLoop.RunToolsAnswers | computer-use-demo/computer_use_demo/loop.py:110-121 | a successful run holds, in order, exactly `MakeApiToolResult` of each tool call's result with that call's id |
| SamplingLoop.RunToolUses | computer-use-demo/computer_use_demo/loop.py:110-121 | the loop computes `RunTools` |
| SamplingLoop.RunToolsFailurePersists | computer-use-demo/computer_use_demo/loop.py:110-121 | a failure among the first calls ends the whole run the same way |
| SamplingLoop.EraseKeepsIds | computer-use-demo/computer_use_demo/loop.py:139-175 | pruning images keeps every tool-use and tool-result id |
| SamplingLoop.BackoffDelayBounds | computer-use-demo/computer_use_demo/loop.py:130-134 | the delay doubles from 2 and stays at 60 from the sixth consecutive rate limit on; it never shrinks |
| SamplingLoop.SamplingLoop | computer-use-demo/computer_use_demo/loop.py:54-136 | the outcome, final messages and delays are exactly `LoopSpec` of the replies; the original messages stay, up to pruned images; each appended user turn answers the previous assistant turn's tool calls in order; a return ends on a reply with no tool calls; only a non-rate-limit exception escapes; every delay is within [2, 60] |
| SamplingLoop.LoopGuarantees | computer-use-demo/computer_use_demo/loop.py:78-136 | every outcome of `LoopSpec` from the given messages keeps the loop's promises (`LoopGuaranteed`): the messages stay up to pruned images, an exchange follows, returns and raises are as above, delays lie in [2, 60] |
| SamplingLoop.RunReplies | computer-use-demo/computer_use_demo/loop.py:78-136 | the `while True` loop, turn by turn, computes `LoopSpec`, with the retry counter reset after an answered turn |
| SamplingLoop.TakeTurn | computer-use-demo/computer_use_demo/loop.py:81-126 | one turn prunes images when asked and then handles the reply: it is `ApiStep` of the pruned messages |
| SamplingLoop.StepExtends | computer-use-demo/computer_use_demo/loop.py:103-126 | a turn keeps the messages before it and keeps the exchange invariant |
| SamplingLoop.PrunedExtends | computer-use-demo/computer_use_demo/loop.py:81-82 | pruning keeps the exchange invariant over the original messages |
| SamplingLoop.LoopExtends | computer-use-demo/computer_use_demo/loop.py:78-136 | the final messages extend the original ones, which stay as given when no pruning is asked for |
| SamplingLoop.LoopReturns | computer-use-demo/computer_use_demo/loop.py:123-124 | a return ends on an assistant turn with no tool calls, after the messages it was given |
| SamplingLoop.LoopRaises | computer-use-demo/computer_use_demo/loop.py:129-136 | a raised exception is never a rate limit |
| SamplingLoop.LoopDelays | computer-use-demo/computer_use_demo/loop.py:130-134 | every delay is within [2, 60] |
| SamplingLoop.RateLimitStreak | computer-use-demo/computer_use_demo/loop.py:130-134 | k rate limits in a row wait `BackoffDelay` of retry+1, retry+2, … retry+k |
| SamplingLoop.BackoffAfterAnswer | computer-use-demo/computer_use_demo/loop.py:127-134 | after an answered turn the counter restarts: the following rate limits wait 2, 4, 8, … |
| SamplingLoop.NoToolCallsReturns | computer-use-demo/computer_use_demo/loop.py:123-124 | a reply with no tool calls returns at once, with the reply appended to the pruned messages and no delay |
| SamplingLoop.RaisedComesFromReplies | computer-use-demo/computer_use_demo/loop.py:129-136 | a raised message is the model's own exception or the exception of a tool call in one of the replies |
| SamplingLoop.HandleReply | computer-use-demo/computer_use_demo/loop.py:100-127 | it computes `ReplyStep`: the reply is appended; the tool results follow as one user turn iff there were tool calls and none raised; otherwise the turn returns or raises the tool's error |
| SamplingLoop.PruneImages | computer-use-demo/computer_use_demo/loop.py:81-82 | pruning at the loop's threshold changes nothing but images |
| SamplingLoop.AppendExchange | computer-use-demo/computer_use_demo/loop.py:103-126 | appending an assistant turn, or a user turn answering it, keeps the exchange invariant |
| TokenLogger.HeaderInt | computer-use-demo/computer_use_demo/token_logger.py:113-114 | a missing header reads 0; a present one parses or raises ValueError quoting the header's text |
| TokenLogger.ReadTokenHeaders | computer-use-demo/computer_use_demo/token_logger.py:113-119 | input and output are read, and the total is their sum; an error is the input header's when it does not parse, otherwise the output header's |
| TokenLogger.ExtractTokenUsage | computer-use-demo/computer_use_demo/token_logger.py:211-224 | no response or no headers gives `{}`; otherwise the counts, with total = input + output |
| TokenLogger.ExtractExample | computer-use-demo/tests/token_logger_test.py:53-76 | headers 100/50 give 100/50/150, and no response gives `{}` |
| TokenLogger.UpdateCounters | computer-use-demo/computer_use_demo/token_logger.py:106-120 | empty headers change nothing; otherwise each counter grows by its count and the request count by one |
| TokenLogger.UpdatesKeepBalance | computer-use-demo/computer_use_demo/token_logger.py:117-120 | across any sequence of updates, total = input + output and at most one request is counted per update |
| TokenLogger.UpdateExample | computer-use-demo/tests/token_logger_test.py:21-52 | updates of 100/50 then 200/100 give 300/150/450 over two requests |
| TokenLogger.PayloadSize | computer-use-demo/computer_use_demo/token_logger.py:149-155 | a string costs its length, a dict or list its JSON length, anything else 0 |
| TokenLogger.ImageBytes | computer-use-demo/computer_use_demo/token_logger.py:169 | `len * 3 // 4`, stated as bounds |
| TokenLogger.TokenUsage.constructor | computer-use-demo/computer_use_demo/token_logger.py:91-104 | a fresh session has every counter at zero |
| TokenLogger.TokenUsage.UpdateFromHeaders | computer-use-demo/computer_use_demo/token_logger.py:106-141 | the counters become `UpdateCounters` of the old ones, or stay on a parse error, which is returned; the balance is kept and nothing else changes |
| TokenLogger.TokenUsage.LogMessageSize | computer-use-demo/computer_use_demo/token_logger.py:143-162 | only the bucket of the message type grows, by the payload's size, and only when logging is on |
| TokenLogger.TokenUsage.LogImageData | computer-use-demo/computer_use_demo/token_logger.py:164-189 | a non-empty image counts once and adds its byte estimate; otherwise nothing changes |
| TokenLogger.TokenLog.constructor | computer-use-demo/computer_use_demo/token_logger.py:207-208 | the global session starts at zero |
| TokenLogger.TokenLog.ResetSession | computer-use-demo/computer_use_demo/token_logger.py:314-317 | a fresh zeroed session replaces the current one |
| TokenLogger.TokenLog.LogTokenUsageFromResponse | computer-use-demo/computer_use_demo/token_logger.py:227-234 | the session's counts are updated only for a response with headers while logging is on, an error is the header parse's, and the image and message-size tallies never change |
| TokenLogger.CategoryOf | computer-use-demo/computer_use_demo/token_logger.py:256-270 | text, image, and tool_use/tool_result dict blocks feed their own counters; other blocks feed none |
| TokenLogger.AnalyzeMessagePayload | computer-use-demo/computer_use_demo/token_logger.py:237-283 | off gives `{}`; on gives the message count and, per category, the number and bytes of the blocks of list contents |
| TokenLogger.AnalyzeBlocks | computer-use-demo/computer_use_demo/token_logger.py:255-270 | the inner loop adds each block's count and bytes to its category |
| TokenLogger.CategoriesDisjoint | computer-use-demo/computer_use_demo/token_logger.py:262-270 | no block is counted twice |
| TokenLogger.MessagesCountAppend | computer-use-demo/computer_use_demo/token_logger.py:253-270 | counts and bytes add up over a split of the conversation |
| TokenLogger.AnalyzeExample | computer-use-demo/tests/token_logger_test.py:77-102 | the test's payload has two text blocks, one image block and one tool block |
| FileTools.FirstLinesPrefix | agents/tools/file_tools.py:89-98 | reading with `max_lines` returns a prefix of the file: the whole file when the limit is off or too large, otherwise text ending in a line break |
| FileTools.ReadSync | agents/tools/file_tools.py:89-98 | the line loop returns the first `max_lines` lines, terminators kept |
| FileTools.ListingLine | agents/tools/file_tools.py:122-129 | one listing line: relative path with a folder or file marker |
| FileTools.ListFiles | agents/tools/file_tools.py:104-135 | missing directory, not a directory, no matches, or the lines of the sorted matches joined by newlines |
| FileTools.WriteFile | agents/tools/file_tools.py:214-230 | the file's whole content is replaced and its length reported; a directory at the path is refused, with Python's `[Errno 21] Is a directory: '<path>'` text, and nothing changes |
| FileTools.EditFile | agents/tools/file_tools.py:232-277 | missing, not a file, or text not found leave the disk as it was; otherwise every occurrence is replaced, and a count above one is reported |
| FileTools.WriteToolExecute | agents/tools/file_tools.py:180-212 | empty content or texts, and unknown operations, are refused before the disk is touched |
| FileTools.WriteToolFrame | agents/tools/file_tools.py:180-277 | a write or an edit touches no other path |
| FileTools.EditLength | agents/tools/file_tools.py:256-270 | an edit changes the file's length by the count times the texts' length difference |
| FileTools.ReplaceBySelf | agents/tools/file_tools.py:259-268 | replacing a text by itself leaves the file unchanged |
| FileTools.FileSystem.ReadFile | agents/tools/file_tools.py:74-102 | missing, not a file, or the first lines of the file |
| FileTools.FileSystem.ReadToolExecute | agents/tools/file_tools.py:49-72 | read and list dispatch; any other operation is refused |
| FileTools.FileSystem.WriteToolExecuteOn | agents/tools/file_tools.py:180-212 | the disk and the reply are those of `WriteToolExecute` |
| FileTools.WriteThenRead | agents/tools/file_tools.py:74-102 | after a write, reading the whole file gives exactly what was written |
| ToolUtil.ExecuteSingleTool | agents/utils/tool_util.py:7-24 | the response answers the call's id; an unknown tool is "not found" with is_error; a KeyError inside a tool reads the same; any other exception gives "Error executing tool" |
| ToolUtil.ExecuteTools | agents/utils/tool_util.py:27-39 | one response per call, in call order, whether parallel or not |
| ToolUtil.ExecuteToolsSplit | agents/utils/tool_util.py:27-39 | the responses of a batch are those of its parts, concatenated |
| ToolUtil.ErrorIffNotReturned | agents/utils/tool_util.py:7-24 | `is_error` is set exactly when the call did not return, and is absent otherwise |
| McpTool.FirstText | agents/tools/mcp_tool.py:28-31 | the text of the first text item, and none iff there is no text item |
| McpTool.Execute | agents/tools/mcp_tool.py:20-35 | a failing call gives "Error executing"; otherwise the first text, or "No text content" |
| McpTool.SkipsLeadingNonText | agents/tools/mcp_tool.py:28-31 | items before the first text item do not matter |
| Connections.ConnectionType | agents/utils/connections.py:95 | a missing type is "stdio", a string type is lowered, a non-string type raises |
| Connections.CreateMcpConnection | agents/utils/connections.py:93-114 | stdio needs a command and sse a url; any other type is unsupported |
| Connections.TypeCaseInsensitive | agents/utils/connections.py:95 | "SSE" and "sse" build the same connection |
| Connections.MakeTool | agents/utils/connections.py:133-142 | the tool carries the listing's name and schema; an empty description becomes "MCP tool: name" |
| Connections.ServerTools | agents/utils/connections.py:127-145 | a server contributes tools only when it connects and lists them, one per listed tool, all sharing its connection |
| Connections.SetupMcpConnections | agents/utils/connections.py:122-123 | no servers, or an empty list, gives no tools |
| Connections.ServerToolsCases | agents/utils/connections.py:127-145 | a server contributes one tool per listed tool, or nothing when it fails |
| Connections.CollectToolsAppend | agents/utils/connections.py:127-145 | servers contribute independently, in order |
| Connections.FailingServerSkipped | agents/utils/connections.py:144-145 | a failing server is skipped as if it were absent |
| BotConfig.ParseIds | computer-use-demo/computer_use_demo/config.py:38 | succeeds iff every piece parses; the set is exactly the parsed ids; otherwise the error names the first failing piece |
| BotConfig.InitConfig | computer-use-demo/computer_use_demo/config.py:23-60 | the token must be set, the owner must parse and be non-zero, the allow-list must parse; defaults apply; WIDTH and HEIGHT are written back |
| BotConfig.AccessControl.CheckAccess | computer-use-demo/computer_use_demo/config.py:67-80 | the owner is always admitted, an empty list admits everyone, otherwise membership decides |
| BotConfig.SplitJoin | computer-use-demo/computer_use_demo/config.py:38 | comma-free pieces, joined by commas, split back into themselves |
| BotConfig.ParseJoinedIds | computer-use-demo/computer_use_demo/config.py:38 | decimal ids joined by commas parse back to their set |
| BotConfig.InitConfigReadsBack | computer-use-demo/computer_use_demo/config.py:23-60 | an environment written as token, owner and comma-joined users reads back as exactly those values, with the defaults |
| BotConfig.ConfiguredAccess | computer-use-demo/computer_use_demo/config.py:38-80 | without an allow-list every user is admitted; with one, the owner and the listed users are |
| BatchApi.TaskRequest.GetModel | computer-use-demo/computer_use_demo/batch_api.py:199-203 | the requested model, or the provider's default |
| BatchApi.NewTask | computer-use-demo/computer_use_demo/batch_api.py:297-303 | a pending task with no messages, no error and no completion time |
| BatchApi.ApplyEvent | computer-use-demo/computer_use_demo/batch_api.py:232-253 | an output or tool event appends exactly one message; an API response records its error if it has one; id, status and times are kept |
| BatchApi.Finish | computer-use-demo/computer_use_demo/batch_api.py:267-276 | a finished loop marks the row completed with the loop's messages; a crash marks it failed with the exception as its error; either way it is stamped with the completion time |
| BatchApi.ApplyEventsShape | computer-use-demo/computer_use_demo/batch_api.py:232-253 | callbacks only append messages and record the last API error; id, status and times are kept |
| BatchApi.RunTransitions | computer-use-demo/computer_use_demo/batch_api.py:216-276 | a run ends completed with the loop's messages, or failed with the exception and the callbacks' messages; either way it has a completion time |
| BatchApi.Remove | computer-use-demo/computer_use_demo/batch_api.py:325 | deleting a key removes exactly it from the insertion order and keeps the order distinct |
| BatchApi.TaskServer.constructor | computer-use-demo/computer_use_demo/batch_api.py:20 | no task is current and the table is empty |
| BatchApi.TaskServer.AcquireTaskLock | computer-use-demo/computer_use_demo/batch_api.py:22-35 | the slot is taken iff the lock is free and no task is current |
| BatchApi.TaskServer.ReleaseTaskLock | computer-use-demo/computer_use_demo/batch_api.py:37-44 | only the owner frees the slot |
| BatchApi.TaskServer.StoreTask | computer-use-demo/computer_use_demo/batch_api.py:305 | the given task is stored, and a new id goes last in the order |
| BatchApi.TaskServer.DeleteTask | computer-use-demo/computer_use_demo/batch_api.py:325 | the id's task leaves the table and the order |
| BatchApi.TaskServer.RunTask | computer-use-demo/computer_use_demo/batch_api.py:216-276 | an unknown id raises and changes nothing; otherwise the stored task becomes `RunSpec` of itself |
| BatchApi.TaskServer.CreateTask | computer-use-demo/computer_use_demo/batch_api.py:279-359 | 503 while a reset is running or the slot is busy, with no change; off Cloud Run the pending task is stored and keeps the slot; on Cloud Run the new task runs, leaves the table, and frees the slot |
| BatchApi.TaskServer.RunSynchronously | computer-use-demo/computer_use_demo/batch_api.py:307-341 | a reset error propagates; otherwise the run's final state is returned; either way the new task is deleted and the slot released |
| BatchApi.TaskServer.FinishInBackground | computer-use-demo/computer_use_demo/batch_api.py:346-355 | the queued run, then the release, which happens only when the run did not raise |
| BatchApi.TaskServer.GetTaskStatus | computer-use-demo/computer_use_demo/batch_api.py:361-375 | 400 on Cloud Run, 404 for an unknown id, otherwise the stored task |
| BatchApi.TaskServer.ListTasks | computer-use-demo/computer_use_demo/batch_api.py:377-387 | 400 on Cloud Run; otherwise every stored row exactly once, the i-th being the row stored under the i-th id in insertion order |
| RestApi.TextsOf | computer-use-demo/computer_use_demo/rest_api.py:73-79 | no more texts than blocks |
| RestApi.TextsOfAppend | computer-use-demo/computer_use_demo/rest_api.py:73-79 | collection distributes over a split of the stream |
| RestApi.TextsOfMembers | computer-use-demo/computer_use_demo/rest_api.py:73-79 | a text is collected iff a text block carried it |
| RestApi.SessionOf | computer-use-demo/computer_use_demo/rest_api.py:64 | a given non-empty id is kept; otherwise a fresh one is used |
| RestApi.ConversationStore.constructor | computer-use-demo/computer_use_demo/rest_api.py:37 | the store starts empty |
| RestApi.ConversationStore.History | computer-use-demo/computer_use_demo/rest_api.py:65 | a session's history, or empty for a new session |
| RestApi.ConversationStore.Chat | computer-use-demo/computer_use_demo/rest_api.py:57-102 | no key gives 500 with no change; otherwise the history plus the user's turn goes to the loop, the store keeps what the loop left (even when it raised), and the reply is the joined, stripped text |
| RestApi.CollectText | computer-use-demo/computer_use_demo/rest_api.py:73-79 | the callback loop collects `TextsOf` the stream |
| RestApi.SilentTurn | computer-use-demo/computer_use_demo/rest_api.py:99-102 | a stream without text answers with the empty string |
| StreamlitApp.SetupSpec | computer-use-demo/computer_use_demo/streamlit.py:89-97 | each of the four keys is set only when missing; existing values are kept |
| StreamlitApp.SetupIdempotent | computer-use-demo/computer_use_demo/streamlit.py:89-97 | setting up twice is setting up once |
| StreamlitApp.SessionState.SetupState | computer-use-demo/computer_use_demo/streamlit.py:89-97 | the state becomes `SetupSpec` of the old state |
| StreamlitApp.ModifyStateMessages | computer-use-demo/computer_use_demo/streamlit.py:112-116 | as written: the system prompt, then the first 30 messages |
| StreamlitApp.KeepLastMessages | computer-use-demo/computer_use_demo/streamlit.py:112-116 | as intended: the system prompt, then the last 30 messages, ending with the newest |
| StreamlitApp.FirstVersusLast | computer-use-demo/computer_use_demo/streamlit.py:112-116 | the two agree up to 30 messages; beyond that the code as written omits the newest message |
| StreamlitApp.NewestTurnDropped | computer-use-demo/computer_use_demo/streamlit.py:112-116 | with 31 messages, the newest turn is absent as written and present as intended |
| StreamlitApp.FormatMessage | computer-use-demo/computer_use_demo/streamlit.py:273-283 | a user entry becomes a human message; others become AI messages, a dict rendered as a tool use; a dict without name or input raises KeyError |
| StreamlitApp.FormatMessagesForLangchain | computer-use-demo/computer_use_demo/streamlit.py:267-284 | one message per entry in order, or the first entry's error |
| StreamlitApp.FormatRoles | computer-use-demo/computer_use_demo/streamlit.py:273-283 | well-formed logs convert, and only user entries become human messages |
| BalanceTracker.Dump | computer-use-demo/computer_use_demo/balance_tracker/balance_tracker_v3.py:103-111 | one record per entry |
| BalanceTracker.LoadEntries | computer-use-demo/computer_use_demo/balance_tracker/balance_tracker_v3.py:93-101 | no file, an unreadable file or a misfit record gives no entries; otherwise the records' entries |
| BalanceTracker.LoadDump | computer-use-demo/computer_use_demo/balance_tracker/balance_tracker_v3.py:93-111 | loading what was saved gives the entries back |
| BalanceTracker.SaveCredentials | computer-use-demo/computer_use_demo/balance_tracker/balance_tracker_v3.py:60-68 | credentials are saved encrypted |
| BalanceTracker.LoadCredentials | computer-use-demo/computer_use_demo/balance_tracker/balance_tracker_v3.py:70-82 | no file or a failed decryption gives none; otherwise the decrypted email and password |
| BalanceTracker.CredentialsRoundTrip | computer-use-demo/tests/balance_tracker/test_balance_tracker.py:70-83 | with a cipher that inverts itself, saved credentials load back |
| BalanceTracker.AddSpec | computer-use-demo/computer_use_demo/balance_tracker/balance_tracker_v3.py:113-122 | the entry goes last, and a successful save persists all entries |
| BalanceTracker.PollsAppendChanges | computer-use-demo/computer_use_demo/balance_tracker/balance_tracker_v3.py:256-269 | polling only appends automatic entries with a fetched, nonzero, changed amount; no appended amount repeats the amount just before it |
| BalanceTracker.NoCredsNoChange | computer-use-demo/computer_use_demo/balance_tracker/balance_tracker_v3.py:259 | without credentials polling changes nothing |
| BalanceTracker.RepeatedFetchSkipped | computer-use-demo/tests/balance_tracker/test_balance_tracker.py:172-201 | four polls fetching a, b, b, c (non-zero, neighbours distinct; the test uses 10000, 9500, 9500, 9000 cents) add exactly three entries a, b, c |
| BalanceTracker.RecentHistory | computer-use-demo/computer_use_demo/balance_tracker/balance_tracker_v3.py:217-224 | the last five entries, newest first |
| BalanceTracker.Icon | computer-use-demo/computer_use_demo/balance_tracker/balance_tracker_v3.py:220 | the robot icon iff the entry is automatic |
| BalanceTracker.Tracker.constructor | computer-use-demo/computer_use_demo/balance_tracker/balance_tracker_v3.py:86-91 | the entries are what the stored file loads as |
| BalanceTracker.Tracker.SaveEntries | computer-use-demo/computer_use_demo/balance_tracker/balance_tracker_v3.py:103-111 | a successful write dumps the entries; a failed one leaves the file |
| BalanceTracker.Tracker.AddEntry | computer-use-demo/computer_use_demo/balance_tracker/balance_tracker_v3.py:113-122 | the state becomes `AddSpec` of the old state |
| BalanceTracker.Tracker.BackgroundBalanceCheck | computer-use-demo/computer_use_demo/balance_tracker/balance_tracker_v3.py:256-269 | after the polls, the state is `PollsSpec` of the old state |

## Left out

- I/O, logging, the clock, uuids and sleeping. These are not modelled; times and ids are parameters, and the back-off delays are returned rather than slept.
- The model API, the shell, `xdotool`, screenshots, the MCP client and the Fernet cipher. These are foreign calls and become function parameters; their behaviour is not modelled.
- SamplingLoop.RunTools and ToolUtil.ExecuteTools: a tool is a function of its name and input (the `run`, `execute` and `invoke` parameters), so two identical calls in one run give the same result. Real tools keep state between calls (the screen, the shell session, the files). `ToolCollection.ToolCollection.Run` makes a single call, where this does not arise.
- Concurrency: `asyncio` locks, the middleware timeout and the parallel `gather` of tool calls.
  - `lockHeld` and `isCleaning` are parameters.
  - Parallel and sequential tool execution give the same responses in the model.
- Floating point. Balances are integer cents.
  - Coordinates are scaled with exact rationals and Python's round-half-even.
  - `average_tokens_per_request`, `request_times` and `token_rates` are not modelled.
- String subtleties:
  - `str()` of nested values and repr escapes are printed only for the shapes the model carries;
  - `int()` accepts no underscores, only whitespace in the ASCII range (the six usual characters and U+001C to U+001F) is stripped, and its error quotes the text without `repr` escaping;
  - `lower()` works on ASCII letters only;
  - header names are compared exactly, not case-insensitively;
  - files are read without newline translation, and undecodable bytes are not modelled.
- File-system details. `glob` and sorting are given as a parameter (`sortedMatches`). Directory creation, parent-path errors and OS error texts are not modelled, beyond "Is a directory" when writing; there the path is quoted as given, without `Path`'s normalisation or `repr`'s escaping.
- Rendering: Streamlit widgets, the sidebar, the `main` render loop and `render_message_with_balance` are not modelled.
- The Telegram bot's `notify_owner` and `handle_unauthorized_access` are not modelled.
- The health checks, history import and export, `fetch_console_balance` scraping and `reset_desktop_environment` are not modelled. The reset's outcome is a parameter.
- The 503 reply's `Retry-After` header is not modelled.
- SamplingLoop.SamplingLoop: `while True` is bounded by the list of replies it is given. When the replies run out, the loop ends with `OutOfReplies`, which the source has no counterpart for.
- SamplingLoop.SamplingLoop: the three callbacks, the client choice and the request's system prompt and tool list are not modelled; each reply is given as either the model's content blocks or the text of the exception it raised.
- BalanceTracker.Tracker.BackgroundBalanceCheck: the endless hourly loop is bounded by the list of polls it is given.
- FileTools.EditFile requires a non-empty `old_text`. Its only caller, `execute`, refuses an empty one first.
- Computer.ScaleCorners requires that the target be no taller than the screen. Otherwise the target's corner is refused by the bounds check (see `Computer.ApiCornerRefused`).
- BatchApi.TaskServer.FinishInBackground assumes that a queued run that raises stops the runs queued after it, so the slot stays taken.
- BatchApi: `api_response_callback` takes three arguments, but the loop calls it with one. The loop's outcome and its callback events are parameters, so that mismatch shows up only as whatever outcome the caller supplies (a `Crashed` run).
- RestApi.ConversationStore.Chat: the loop mutates the very list the store holds. The model passes the list by value and stores what the loop reports as its final contents.

## Findings

| source | as written | input that shows it | evidently intended | confidence | as-written member | corrected member |
|---|---|---|---|---|---|---|
| computer-use-demo/computer_use_demo/streamlit.py:112-116 | `messages[:MAX]` keeps the FIRST 30 state messages, although the comment beside it says the state keeps the last messages | a state of 31 messages: the newest user turn is not sent to the model | keep the last 30 messages, so the newest is always included | not executed | StreamlitApp.ModifyStateMessages / StreamlitApp.NewestTurnDropped | StreamlitApp.KeepLastMessages / StreamlitApp.FirstVersusLast |
