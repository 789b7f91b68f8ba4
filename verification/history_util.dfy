/** Chat history with token bookkeeping for a fixed context window
    (agents/utils/history_util.py).

    The history keeps three things in step: the messages, one
    `(input, output)` token record per assistant turn that reported usage,
    and a running total.  The total always equals the system prompt's token
    count plus the sum of all records; `AddMessage` and `Truncate` keep
    that balance. */
module HistoryUtil {
  import opened Wrappers

  /** One content block of a message; `cached` is the
      `"cache_control": {"type": "ephemeral"}` mark. */
  datatype Block = Block(kind: string, text: string, cached: bool)

  datatype Message = Message(role: string, content: seq<Block>)

  /** What a caller may pass as content: a plain string or a block list. */
  datatype Content = TextContent(text: string) | BlockContent(blocks: seq<Block>)

  /** The usage report of an assistant turn; a missing cache field is 0. */
  datatype Usage = Usage(inputTokens: int, cacheReadInputTokens: int,
                         cacheCreationInputTokens: int, outputTokens: int)

  /** One `(input_tokens, output_tokens)` record. */
  datatype TokenRecord = TokenRecord(input: int, output: int)

  /** The three pieces of state that `truncate` rewrites. */
  datatype History = History(messages: seq<Message>, tokens: seq<TokenRecord>, total: int)

  const TruncationNoticeTokens: int := 25

  /** The fixed message that replaces the head of a truncated history. */
  const TruncationMessage: Message :=
    Message("user", [Block("text", "[Earlier history has been truncated.]", false)])

  /** A string is stored as a single text block. */
  function ContentBlocks(content: Content): seq<Block>
  {
    match content
    case TextContent(s) => [Block("text", s, false)]
    case BlockContent(bs) => bs
  }

  function Sum(records: seq<TokenRecord>): int
  {
    if records == [] then 0 else records[0].input + records[0].output + Sum(records[1..])
  }

  lemma {:induction false} SumAppend(records: seq<TokenRecord>, r: TokenRecord)
    ensures Sum(records + [r]) == Sum(records) + r.input + r.output
  {
    if records != [] {
      assert (records + [r])[1..] == records[1..] + [r];
      SumAppend(records[1..], r);
    }
  }

  /** The conservation law: the running total is the system prompt's count
      plus every recorded turn. */
  predicate Conserved(h: History, systemTokens: int)
  {
    h.total == systemTokens + Sum(h.tokens)
  }

  // ---------------------------------------------------------------------------
  // `truncate` as functions on History, one loop iteration at a time
  // ---------------------------------------------------------------------------

  /** `remove_message_pair`: drop the two oldest messages and, when there is
      one, the oldest token record together with its tokens. */
  function RemoveMessagePair(h: History): (r: History)
    requires |h.messages| >= 2
    ensures r.messages == h.messages[2..]
    ensures h.tokens != [] ==> r.tokens == h.tokens[1..]
    ensures h.tokens == [] ==> r.tokens == [] && r.total == h.total
    ensures r.total - Sum(r.tokens) == h.total - Sum(h.tokens)
  {
    if h.tokens != [] then
      History(h.messages[2..], h.tokens[1..], h.total - (h.tokens[0].input + h.tokens[0].output))
    else
      History(h.messages[2..], h.tokens, h.total)
  }

  /** After a removal, the new head becomes the truncation notice and its
      record's input count becomes the notice's 25 tokens. */
  function RewriteHead(h: History): History
  {
    if h.messages != [] && h.tokens != [] then
      History([TruncationMessage] + h.messages[1..],
              [TokenRecord(TruncationNoticeTokens, h.tokens[0].output)] + h.tokens[1..],
              h.total + (TruncationNoticeTokens - h.tokens[0].input))
    else h
  }

  /** One iteration of the truncation loop. */
  function TruncationStep(h: History): (r: History)
    requires |h.messages| >= 2
    ensures |r.messages| == |h.messages| - 2
    ensures h.tokens != [] ==> |r.tokens| == |h.tokens| - 1
    ensures r.tokens != [] ==> |h.tokens| == |r.tokens| + 1
    ensures r.messages != [] && r.tokens != [] ==>
      r.messages[0] == TruncationMessage &&
      r.tokens[0] == TokenRecord(TruncationNoticeTokens, h.tokens[1].output)
    ensures forall i :: 1 <= i < |r.messages| ==> r.messages[i] == h.messages[i + 2]
  {
    RewriteHead(RemoveMessagePair(h))
  }

  predicate LoopContinues(h: History, window: int)
  {
    h.tokens != [] && |h.messages| >= 2 && h.total > window
  }

  function TruncateLoop(h: History, window: int): History
    decreases |h.messages|
  {
    if LoopContinues(h, window) then TruncateLoop(TruncationStep(h), window) else h
  }

  /** `truncate`: nothing happens while the total fits the window. */
  function TruncateSpec(h: History, window: int): History
  {
    if h.total <= window then h else TruncateLoop(h, window)
  }

  /** Each step keeps the conservation law. */
  lemma StepConserves(h: History, systemTokens: int)
    requires |h.messages| >= 2 && Conserved(h, systemTokens)
    ensures Conserved(TruncationStep(h), systemTokens)
  {
    var r := RemoveMessagePair(h);
    assert Conserved(r, systemTokens);
  }

  /** Truncation keeps the conservation law. */
  lemma {:induction false} TruncateConserves(h: History, window: int, systemTokens: int)
    requires Conserved(h, systemTokens)
    ensures Conserved(TruncateLoop(h, window), systemTokens)
    ensures Conserved(TruncateSpec(h, window), systemTokens)
    decreases |h.messages|
  {
    if LoopContinues(h, window) {
      StepConserves(h, systemTokens);
      TruncateConserves(TruncationStep(h), window, systemTokens);
    }
  }

  /** When truncation stops, the history fits, or there is no record left,
      or fewer than two messages remain. */
  lemma {:induction false} TruncateExit(h: History, window: int)
    ensures var r := TruncateLoop(h, window);
      r.total <= window || r.tokens == [] || |r.messages| < 2
    decreases |h.messages|
  {
    if LoopContinues(h, window) {
      TruncateExit(TruncationStep(h), window);
    }
  }

  /** `a` is no longer than `b`, and every element of `a` after its head
      is the element of `b` at the same position from the end. */
  ghost predicate KeepsTail<T>(a: seq<T>, b: seq<T>)
  {
    |a| <= |b| && forall i :: 1 <= i < |a| ==> a[i] == b[|b| - |a| + i]
  }

  /** Truncation only drops old messages: the result is no longer than the
      history, and every message after its head is one of the most recent
      messages of the history, in the same position from the end. */
  lemma {:induction false} TruncateKeepsRecent(h: History, window: int)
    ensures KeepsTail(TruncateLoop(h, window).messages, h.messages)
    decreases |h.messages|
  {
    if LoopContinues(h, window) {
      var s := TruncationStep(h);
      TruncateKeepsRecent(s, window);
      TailOfTail(TruncateLoop(s, window).messages, s.messages, h.messages);
    }
  }

  /** If `a` keeps the tail of `b`, and `b` keeps the tail of `c` after
      losing two elements, then `a` keeps the tail of `c`. */
  lemma TailOfTail<T>(a: seq<T>, b: seq<T>, c: seq<T>)
    requires KeepsTail(a, b) && |b| + 2 == |c|
    requires forall i :: 1 <= i < |b| ==> b[i] == c[i + 2]
    ensures KeepsTail(a, c)
  {
    forall i | 1 <= i < |a|
      ensures a[i] == c[|c| - |a| + i]
    {
      assert a[i] == b[|b| - |a| + i];
    }
  }

  /** Once at least one pair has been removed, a history that still has a
      message and a record starts with the truncation notice, counted as 25
      input tokens. */
  lemma {:induction false} TruncateMarksHead(h: History, window: int)
    requires LoopContinues(h, window)
    ensures var r := TruncateLoop(h, window);
      r.messages != [] && r.tokens != [] ==>
        r.messages[0] == TruncationMessage && r.tokens[0].input == TruncationNoticeTokens
    decreases |h.messages|
  {
    var s := TruncationStep(h);
    if LoopContinues(s, window) {
      TruncateMarksHead(s, window);
    }
  }

  // ---------------------------------------------------------------------------
  // The history object
  // ---------------------------------------------------------------------------

  class MessageHistory {
    const model: string
    const system: string
    const contextWindowTokens: int
    const enableCaching: bool
    /** The system prompt's token count, measured once by the model API. */
    const systemTokens: int

    var messages: seq<Message>
    var messageTokens: seq<TokenRecord>
    var totalTokens: int

    ghost predicate Valid()
      reads this
    {
      Conserved(State(), systemTokens)
    }

    function State(): History
      reads this
    {
      History(messages, messageTokens, totalTokens)
    }

    constructor (model: string, system: string, contextWindowTokens: int,
                 systemTokens: int, enableCaching: bool)
      ensures Valid()
      ensures this.model == model && this.system == system
      ensures this.contextWindowTokens == contextWindowTokens
      ensures this.enableCaching == enableCaching && this.systemTokens == systemTokens
      ensures messages == [] && messageTokens == [] && totalTokens == systemTokens
    {
      this.model := model;
      this.system := system;
      this.contextWindowTokens := contextWindowTokens;
      this.enableCaching := enableCaching;
      this.systemTokens := systemTokens;
      messages := [];
      messageTokens := [];
      totalTokens := systemTokens;
    }

    /** `add_message`: the message is appended last; an assistant turn with
        usage records this turn's share of the input and sets the total to
        everything the API reported. */
    method AddMessage(role: string, content: Content, usage: Option<Usage>)
      requires Valid()
      modifies this
      ensures Valid()
      ensures messages == old(messages) + [Message(role, ContentBlocks(content))]
      ensures role == "assistant" && usage.Some? ==>
        var u := usage.value;
        var totalInput := u.inputTokens + u.cacheReadInputTokens + u.cacheCreationInputTokens;
        && messageTokens == old(messageTokens) + [TokenRecord(totalInput - old(totalTokens), u.outputTokens)]
        && totalTokens == totalInput + u.outputTokens
      ensures !(role == "assistant" && usage.Some?) ==>
        messageTokens == old(messageTokens) && totalTokens == old(totalTokens)
    {
      messages := messages + [Message(role, ContentBlocks(content))];
      if role == "assistant" && usage.Some? {
        var u := usage.value;
        var totalInput := u.inputTokens + u.cacheReadInputTokens + u.cacheCreationInputTokens;
        var outputTokens := u.outputTokens;
        var currentTurnInput := totalInput - totalTokens;
        SumAppend(messageTokens, TokenRecord(currentTurnInput, outputTokens));
        messageTokens := messageTokens + [TokenRecord(currentTurnInput, outputTokens)];
        totalTokens := totalTokens + currentTurnInput + outputTokens;
      }
    }

    /** `truncate`: drop message pairs from the front until the history fits
        the window, turning each new head into the truncation notice. */
    method Truncate()
      requires Valid()
      modifies this
      ensures Valid()
      ensures State() == TruncateSpec(old(State()), contextWindowTokens)
      ensures old(totalTokens) <= contextWindowTokens ==> State() == old(State())
      ensures totalTokens <= contextWindowTokens || messageTokens == [] || |messages| < 2
    {
      TruncateExit(State(), contextWindowTokens);
      if totalTokens <= contextWindowTokens {
        return;
      }
      while messageTokens != [] && |messages| >= 2 && totalTokens > contextWindowTokens
        invariant Valid()
        invariant TruncateLoop(State(), contextWindowTokens) == TruncateLoop(old(State()), contextWindowTokens)
        decreases |messages|
      {
        ghost var before := State();
        StepConserves(before, systemTokens);
        // remove_message_pair
        messages := messages[2..];
        if messageTokens != [] {
          var removed := messageTokens[0];
          messageTokens := messageTokens[1..];
          totalTokens := totalTokens - (removed.input + removed.output);
        }
        if messages != [] && messageTokens != [] {
          var originalInput := messageTokens[0].input;
          var originalOutput := messageTokens[0].output;
          messages := [TruncationMessage] + messages[1..];
          messageTokens := [TokenRecord(TruncationNoticeTokens, originalOutput)] + messageTokens[1..];
          totalTokens := totalTokens + (TruncationNoticeTokens - originalInput);
        }
        assert State() == TruncationStep(before);
      }
    }

    /** `format_for_api`: the same messages in the same order; with caching
        on, the blocks of the last message carry the ephemeral cache mark.
        The stored history is only read. */
    function FormatForApi(): (r: seq<Message>)
      reads this
      ensures |r| == |messages|
      ensures forall i :: 0 <= i < |r| ==> r[i].role == messages[i].role
      ensures forall i :: 0 <= i < |r| && !(enableCaching && i == |r| - 1) ==>
        r[i].content == messages[i].content
      ensures enableCaching && messages != [] ==>
        var last := messages[|messages| - 1].content;
        |r[|r| - 1].content| == |last| &&
        forall j :: 0 <= j < |last| ==> r[|r| - 1].content[j] == last[j].(cached := true)
    {
      if enableCaching && messages != [] then
        var last := messages[|messages| - 1];
        messages[..|messages| - 1] +
          [Message(last.role, seq(|last.content|, j requires 0 <= j < |last.content| => last.content[j].(cached := true)))]
      else messages
    }
  }
}
