/** Token-usage accounting (computer-use-demo/computer_use_demo/token_logger.py):
    the per-session counters fed by response headers and payload sizes, the
    header extraction, and the classification of a message payload's blocks.

    Logging itself is left out; `ENABLE_TOKEN_LOGGING` arrives as a flag,
    `json.dumps` sizes as numbers carried by the values, and the clock that
    names a session as its id. */
module TokenLogger {
  import opened Wrappers
  import opened Text

  // ---------------------------------------------------------------------------
  // Header parsing
  // ---------------------------------------------------------------------------

  /** Response headers, by name. */
  type Headers = map<string, string>

  const InputTokensHeader: string := "anthropic-input-tokens"
  const OutputTokensHeader: string := "anthropic-output-tokens"
  /** What `int()` raises for a text that is not a decimal integer; the
      text is quoted as `repr` quotes it. */
  function IntValueError(text: string): string
  {
    "ValueError: invalid literal for int() with base 10: '" + text + "'"
  }

  /** `int(headers.get(name, 0))`: a missing header is 0, a present one is
      parsed as a decimal integer and raises when it is not one. */
  function HeaderInt(headers: Headers, name: string): (r: Result<int, string>)
    ensures name !in headers ==> r == Success(0)
    ensures name in headers ==> (r.Success? <==> ParseInt(headers[name]).Some?)
    ensures name in headers && r.Success? ==> r.value == ParseInt(headers[name]).value
    ensures r.Failure? ==> name in headers && r.error == IntValueError(headers[name])
  {
    if name !in headers then Success(0)
    else match ParseInt(headers[name])
      case Some(n) => Success(n)
      case None => Failure(IntValueError(headers[name]))
  }

  /** What one response reports: its input and output token counts and
      their sum. */
  datatype TokenCounts = TokenCounts(input: int, output: int, total: int)

  /** The two header reads of a response, input first. */
  function ReadTokenHeaders(headers: Headers): (r: Result<TokenCounts, string>)
    ensures r.Success? <==> HeaderInt(headers, InputTokensHeader).Success? && HeaderInt(headers, OutputTokensHeader).Success?
    ensures r.Success? ==>
      && r.value.input == HeaderInt(headers, InputTokensHeader).value
      && r.value.output == HeaderInt(headers, OutputTokensHeader).value
      && r.value.total == r.value.input + r.value.output
    ensures r.Failure? && HeaderInt(headers, InputTokensHeader).Failure? ==>
      r.error == IntValueError(headers[InputTokensHeader])
    ensures r.Failure? && HeaderInt(headers, InputTokensHeader).Success? ==>
      r.error == IntValueError(headers[OutputTokensHeader])
  {
    var input :- HeaderInt(headers, InputTokensHeader);
    var output :- HeaderInt(headers, OutputTokensHeader);
    Success(TokenCounts(input, output, input + output))
  }

  /** A response as `extract_token_usage_from_response` sees it: it may
      lack a `headers` attribute. */
  datatype Response = Response(headers: Option<Headers>)

  /** `extract_token_usage_from_response`: `{}` (here `None`) for no response
      or one without headers; otherwise the counts read from the headers,
      whose total is the sum of the other two. */
  function ExtractTokenUsage(response: Option<Response>): (r: Result<Option<TokenCounts>, string>)
    ensures (response.None? || response.value.headers.None?) ==> r == Success(None)
    ensures response.Some? && response.value.headers.Some? ==>
      match ReadTokenHeaders(response.value.headers.value)
      case Success(c) => r == Success(Some(c)) && c.total == c.input + c.output
      case Failure(e) => r == Failure(e)
  {
    if response.None? || response.value.headers.None? then Success(None)
    else
      var counts :- ReadTokenHeaders(response.value.headers.value);
      Success(Some(counts))
  }

  /** The test's response: 100 input and 50 output tokens make 150. */
  lemma ExtractExample()
    ensures ExtractTokenUsage(Some(Response(Some(map[InputTokensHeader := "100", OutputTokensHeader := "50"]))))
      == Success(Some(TokenCounts(100, 50, 150)))
    ensures ExtractTokenUsage(None) == Success(None)
  {
    ExampleHeaders();
  }

  // ---------------------------------------------------------------------------
  // The request counters, as values
  // ---------------------------------------------------------------------------

  datatype Counters = Counters(input: int, output: int, total: int, requests: nat)

  const Zero: Counters := Counters(0, 0, 0, 0)

  /** The counter part of `update_from_headers`: empty headers change
      nothing; a parse failure raises before anything changes; otherwise
      both counts accumulate and one more request is counted. */
  function UpdateCounters(c: Counters, headers: Headers): (r: Result<Counters, string>)
    ensures headers == map[] ==> r == Success(c)
    ensures headers != map[] ==> (r.Success? <==> ReadTokenHeaders(headers).Success?)
    ensures headers != map[] && r.Success? ==>
      var t := ReadTokenHeaders(headers).value;
      && r.value.input - c.input == t.input
      && r.value.output - c.output == t.output
      && r.value.total - c.total == t.total
      && r.value.requests == c.requests + 1
  {
    if headers == map[] then Success(c)
    else
      var t :- ReadTokenHeaders(headers);
      Success(Counters(c.input + t.input, c.output + t.output, c.total + t.input + t.output, c.requests + 1))
  }

  predicate Balanced(c: Counters)
  {
    c.total == c.input + c.output
  }

  /** Updates one after another, stopping at the first that raises. */
  function UpdateAll(c: Counters, hs: seq<Headers>): Result<Counters, string>
  {
    if hs == [] then Success(c)
    else
      match UpdateAll(c, hs[..|hs| - 1])
      case Failure(e) => Failure(e)
      case Success(c') => UpdateCounters(c', hs[|hs| - 1])
  }

  /** From zero counters, after any sequence of updates the total is the
      input plus the output, and at most one request is counted per update. */
  lemma {:induction false} UpdatesKeepBalance(c: Counters, hs: seq<Headers>)
    requires Balanced(c)
    ensures UpdateAll(c, hs).Success? ==> Balanced(UpdateAll(c, hs).value)
    ensures UpdateAll(c, hs).Success? ==> UpdateAll(c, hs).value.requests <= c.requests + |hs|
  {
    if hs != [] {
      UpdatesKeepBalance(c, hs[..|hs| - 1]);
    }
  }

  /** The test's two updates: 100/50 then 200/100 give 300/150/450 over two
      requests, after an empty update that changes nothing. */
  lemma UpdateExample()
    ensures UpdateAll(Zero, [map[],
                             map[InputTokensHeader := "100", OutputTokensHeader := "50"],
                             map[InputTokensHeader := "200", OutputTokensHeader := "100"]])
      == Success(Counters(300, 150, 450, 2))
  {
    var hs := [map[],
               map[InputTokensHeader := "100", OutputTokensHeader := "50"],
               map[InputTokensHeader := "200", OutputTokensHeader := "100"]];
    ExampleHeaders();
    assert hs[..2][..1] == hs[..1];
    assert hs[..1][..0] == [];
    assert UpdateAll(Zero, hs[..1]) == Success(Zero);
    assert UpdateAll(Zero, hs[..2]) == Success(Counters(100, 50, 150, 1));
  }

  lemma ExampleHeaders()
    ensures ReadTokenHeaders(map[InputTokensHeader := "100", OutputTokensHeader := "50"]) == Success(TokenCounts(100, 50, 150))
    ensures ReadTokenHeaders(map[InputTokensHeader := "200", OutputTokensHeader := "100"]) == Success(TokenCounts(200, 100, 300))
  {
    ParseExamples();
  }

  lemma ParseExamples()
    ensures ParseInt("50") == Some(50) && ParseInt("100") == Some(100) && ParseInt("200") == Some(200)
  {
    assert DigitChar(0) == '0' && DigitChar(1) == '1' && DigitChar(2) == '2' && DigitChar(5) == '5';
    assert NatToString(50) == NatToString(5) + "0" == "50";
    assert NatToString(10) == NatToString(1) + "0" == "10";
    assert NatToString(100) == NatToString(10) + "0" == "100";
    assert NatToString(20) == NatToString(2) + "0" == "20";
    assert NatToString(200) == NatToString(20) + "0" == "200";
    ParseIntToString(50);
    ParseIntToString(100);
    ParseIntToString(200);
  }

  // ---------------------------------------------------------------------------
  // `TokenUsage`
  // ---------------------------------------------------------------------------

  /** What `log_message_size` is given: a string, a dict or a list (each
      with the length of its `json.dumps` text), or anything else. */
  datatype Payload = StrPayload(text: string) | DictPayload(dumpedSize: nat) | ListPayload(dumpedSize: nat) | OtherPayload

  /** The size `log_message_size` charges a payload. */
  function PayloadSize(p: Payload): (n: nat)
    ensures p.StrPayload? ==> n == |p.text|
    ensures p.DictPayload? || p.ListPayload? ==> n == p.dumpedSize
    ensures p.OtherPayload? ==> n == 0
  {
    match p
    case StrPayload(t) => |t|
    case DictPayload(k) => k
    case ListPayload(k) => k
    case OtherPayload => 0
  }

  /** The bytes behind a base64 text, as `len(image_data) * 3 // 4`. */
  function ImageBytes(imageData: string): (n: nat)
    ensures 4 * n <= 3 * |imageData| < 4 * n + 4
  {
    |imageData| * 3 / 4
  }

  class TokenUsage {
    const sessionId: string
    var inputTokens: int
    var outputTokens: int
    var totalTokens: int
    var requestCount: nat
    var imageCount: nat
    var totalImageBytes: nat
    /** The `defaultdict(int)`: a missing type reads as 0. */
    var messageSizes: map<string, nat>

    function Counts(): Counters
      reads this
    {
      Counters(inputTokens, outputTokens, totalTokens, requestCount)
    }

    function SizeOf(messageType: string): nat
      reads this
    {
      if messageType in messageSizes then messageSizes[messageType] else 0
    }

    /** A fresh session: every counter zero, no sizes recorded. */
    constructor (sessionId: string)
      ensures this.sessionId == sessionId
      ensures Counts() == Zero && imageCount == 0 && totalImageBytes == 0 && messageSizes == map[]
    {
      this.sessionId := sessionId;
      inputTokens, outputTokens, totalTokens, requestCount := 0, 0, 0, 0;
      imageCount, totalImageBytes := 0, 0;
      messageSizes := map[];
    }

    /** `update_from_headers`; a header that does not parse raises with
        every counter untouched. */
    method UpdateFromHeaders(headers: Headers) returns (error: Option<string>)
      modifies this
      ensures error.Some? <==> UpdateCounters(old(Counts()), headers).Failure?
      ensures error.Some? ==> error.value == UpdateCounters(old(Counts()), headers).error && Counts() == old(Counts())
      ensures error.None? ==> Counts() == UpdateCounters(old(Counts()), headers).value
      ensures Balanced(old(Counts())) ==> Balanced(Counts())
      ensures imageCount == old(imageCount) && totalImageBytes == old(totalImageBytes)
      ensures messageSizes == old(messageSizes)
    {
      if headers == map[] {
        return None;
      }
      var input := HeaderInt(headers, InputTokensHeader);
      if input.Failure? {
        return Some(input.error);
      }
      var output := HeaderInt(headers, OutputTokensHeader);
      if output.Failure? {
        return Some(output.error);
      }
      inputTokens := inputTokens + input.value;
      outputTokens := outputTokens + output.value;
      totalTokens := totalTokens + input.value + output.value;
      requestCount := requestCount + 1;
      return None;
    }

    /** `log_message_size`: only the bucket of `messageType` changes, by
        the payload's size. */
    method LogMessageSize(messageType: string, message: Payload, enabled: bool)
      modifies this
      ensures !enabled ==> messageSizes == old(messageSizes)
      ensures enabled ==> messageType in messageSizes && SizeOf(messageType) == old(SizeOf(messageType)) + PayloadSize(message)
      ensures forall t | t != messageType :: SizeOf(t) == old(SizeOf(t))
      ensures forall t | t != messageType :: (t in messageSizes <==> t in old(messageSizes))
      ensures Counts() == old(Counts()) && imageCount == old(imageCount) && totalImageBytes == old(totalImageBytes)
    {
      if !enabled {
        return;
      }
      var size := PayloadSize(message);
      messageSizes := messageSizes[messageType := SizeOf(messageType) + size];
    }

    /** `log_image_data`: an empty image, or logging switched off, changes
        nothing; otherwise one more image and its approximate bytes. */
    method LogImageData(imageData: string, wasTruncated: bool, enabled: bool)
      modifies this
      ensures !enabled || imageData == "" ==> imageCount == old(imageCount) && totalImageBytes == old(totalImageBytes)
      ensures enabled && imageData != "" ==>
        imageCount == old(imageCount) + 1 && totalImageBytes == old(totalImageBytes) + ImageBytes(imageData)
      ensures Counts() == old(Counts()) && messageSizes == old(messageSizes)
    {
      if !enabled || imageData == "" {
        return;
      }
      imageCount := imageCount + 1;
      totalImageBytes := totalImageBytes + ImageBytes(imageData);
    }
  }

  /** The module-level `current_session` and the logging switch. */
  class TokenLog {
    const enabled: bool
    var currentSession: TokenUsage

    constructor (enabled: bool, sessionId: string)
      ensures this.enabled == enabled
      ensures currentSession.Counts() == Zero && currentSession.sessionId == sessionId
    {
      this.enabled := enabled;
      currentSession := new TokenUsage(sessionId);
    }

    /** `reset_session`: a new session with every counter zero replaces the
        current one. */
    method ResetSession(sessionId: string)
      modifies this
      ensures fresh(currentSession)
      ensures currentSession.sessionId == sessionId
      ensures currentSession.Counts() == Zero
      ensures currentSession.imageCount == 0 && currentSession.totalImageBytes == 0
      ensures currentSession.messageSizes == map[]
    {
      currentSession := new TokenUsage(sessionId);
    }

    /** `log_token_usage_from_response`: only a response whose headers
        yield counts updates the current session. */
    method LogTokenUsageFromResponse(response: Option<Response>) returns (error: Option<string>)
      modifies currentSession
      ensures !enabled || response.None? || response.value.headers.None? ==>
        error.None? && currentSession.Counts() == old(currentSession.Counts())
      ensures enabled && response.Some? && response.value.headers.Some? ==>
        (error.Some? <==> ReadTokenHeaders(response.value.headers.value).Failure?)
      ensures error.Some? ==> error.value == ReadTokenHeaders(response.value.headers.value).error
      ensures error.None? && enabled && response.Some? && response.value.headers.Some? ==>
        currentSession.Counts() == UpdateCounters(old(currentSession.Counts()), response.value.headers.value).value
      ensures currentSession.imageCount == old(currentSession.imageCount)
      ensures currentSession.totalImageBytes == old(currentSession.totalImageBytes)
      ensures currentSession.messageSizes == old(currentSession.messageSizes)
    {
      if !enabled || response.None? {
        return None;
      }
      var usage := ExtractTokenUsage(response);
      if usage.Failure? {
        return Some(usage.error);
      }
      if usage.value.None? {
        return None;
      }
      error := currentSession.UpdateFromHeaders(response.value.headers.value);
    }
  }

  // ---------------------------------------------------------------------------
  // `analyze_message_payload`
  // ---------------------------------------------------------------------------

  /** A block of a message's content list: a dict with an optional `type`
      and the length of its `json.dumps` text, or not a dict. */
  datatype PayloadBlock = DictBlock(kind: Option<string>, dumpedSize: nat) | NonDictBlock

  /** A message's `content`: a list of blocks, or anything else (a string,
      or missing). */
  datatype PayloadContent = BlockContent(blocks: seq<PayloadBlock>) | OtherContent

  datatype PayloadMessage = PayloadMessage(role: string, content: PayloadContent)

  datatype Category = TextCategory | ImageCategory | ToolCategory

  /** Which counter a block feeds, if any. */
  function CategoryOf(b: PayloadBlock): (r: Option<Category>)
    ensures r == Some(TextCategory) <==> b.DictBlock? && b.kind == Some("text")
    ensures r == Some(ImageCategory) <==> b.DictBlock? && b.kind == Some("image")
    ensures r == Some(ToolCategory) <==> b.DictBlock? && (b.kind == Some("tool_use") || b.kind == Some("tool_result"))
  {
    if !b.DictBlock? then None
    else if b.kind == Some("text") then Some(TextCategory)
    else if b.kind == Some("image") then Some(ImageCategory)
    else if b.kind == Some("tool_use") || b.kind == Some("tool_result") then Some(ToolCategory)
    else None
  }

  /** The blocks of a message that the analysis looks at. */
  function BlocksOf(m: PayloadMessage): seq<PayloadBlock>
  {
    if m.content.BlockContent? then m.content.blocks else []
  }

  /** How many blocks, and how many bytes, of a category. */
  function BlockCount(bs: seq<PayloadBlock>, c: Category): nat
  {
    if bs == [] then 0
    else BlockCount(bs[..|bs| - 1], c) + (if CategoryOf(bs[|bs| - 1]) == Some(c) then 1 else 0)
  }

  function BlockBytes(bs: seq<PayloadBlock>, c: Category): nat
  {
    if bs == [] then 0
    else
      var last := bs[|bs| - 1];
      BlockBytes(bs[..|bs| - 1], c) + (if CategoryOf(last) == Some(c) then last.dumpedSize else 0)
  }

  function MessagesCount(ms: seq<PayloadMessage>, c: Category): nat
  {
    if ms == [] then 0 else MessagesCount(ms[..|ms| - 1], c) + BlockCount(BlocksOf(ms[|ms| - 1]), c)
  }

  function MessagesBytes(ms: seq<PayloadMessage>, c: Category): nat
  {
    if ms == [] then 0 else MessagesBytes(ms[..|ms| - 1], c) + BlockBytes(BlocksOf(ms[|ms| - 1]), c)
  }

  /** The `analysis` dict. */
  datatype Analysis = Analysis(
    totalSizeBytes: nat,
    messageCount: nat,
    textBlocks: nat,
    imageBlocks: nat,
    toolBlocks: nat,
    textSizeBytes: nat,
    imageSizeBytes: nat,
    toolSizeBytes: nat)

  /** `analyze_message_payload`; `totalSize` is the length of the whole
      list's `json.dumps` text.  With logging off the result is `{}`
      (`None`). */
  method AnalyzeMessagePayload(messages: seq<PayloadMessage>, totalSize: nat, enabled: bool)
      returns (r: Option<Analysis>)
    ensures !enabled <==> r.None?
    ensures enabled ==> r == Some(Analysis(
      totalSize, |messages|,
      MessagesCount(messages, TextCategory), MessagesCount(messages, ImageCategory),
      MessagesCount(messages, ToolCategory),
      MessagesBytes(messages, TextCategory), MessagesBytes(messages, ImageCategory),
      MessagesBytes(messages, ToolCategory)))
  {
    if !enabled {
      return None;
    }
    var a := Analysis(totalSize, |messages|, 0, 0, 0, 0, 0, 0);
    var i := 0;
    while i < |messages|
      invariant 0 <= i <= |messages|
      invariant a.totalSizeBytes == totalSize && a.messageCount == |messages|
      invariant a.textBlocks == MessagesCount(messages[..i], TextCategory)
      invariant a.imageBlocks == MessagesCount(messages[..i], ImageCategory)
      invariant a.toolBlocks == MessagesCount(messages[..i], ToolCategory)
      invariant a.textSizeBytes == MessagesBytes(messages[..i], TextCategory)
      invariant a.imageSizeBytes == MessagesBytes(messages[..i], ImageCategory)
      invariant a.toolSizeBytes == MessagesBytes(messages[..i], ToolCategory)
    {
      assert messages[..i + 1][..i] == messages[..i];
      a := AnalyzeBlocks(a, BlocksOf(messages[i]));
      i := i + 1;
    }
    assert messages[..i] == messages;
    return Some(a);
  }

  /** The inner loop over one message's blocks. */
  method AnalyzeBlocks(a0: Analysis, bs: seq<PayloadBlock>) returns (a: Analysis)
    ensures a.totalSizeBytes == a0.totalSizeBytes && a.messageCount == a0.messageCount
    ensures a.textBlocks == a0.textBlocks + BlockCount(bs, TextCategory)
    ensures a.imageBlocks == a0.imageBlocks + BlockCount(bs, ImageCategory)
    ensures a.toolBlocks == a0.toolBlocks + BlockCount(bs, ToolCategory)
    ensures a.textSizeBytes == a0.textSizeBytes + BlockBytes(bs, TextCategory)
    ensures a.imageSizeBytes == a0.imageSizeBytes + BlockBytes(bs, ImageCategory)
    ensures a.toolSizeBytes == a0.toolSizeBytes + BlockBytes(bs, ToolCategory)
  {
    a := a0;
    var k := 0;
    while k < |bs|
      invariant 0 <= k <= |bs|
      invariant a.totalSizeBytes == a0.totalSizeBytes && a.messageCount == a0.messageCount
      invariant a.textBlocks == a0.textBlocks + BlockCount(bs[..k], TextCategory)
      invariant a.imageBlocks == a0.imageBlocks + BlockCount(bs[..k], ImageCategory)
      invariant a.toolBlocks == a0.toolBlocks + BlockCount(bs[..k], ToolCategory)
      invariant a.textSizeBytes == a0.textSizeBytes + BlockBytes(bs[..k], TextCategory)
      invariant a.imageSizeBytes == a0.imageSizeBytes + BlockBytes(bs[..k], ImageCategory)
      invariant a.toolSizeBytes == a0.toolSizeBytes + BlockBytes(bs[..k], ToolCategory)
    {
      assert bs[..k + 1][..k] == bs[..k];
      var b := bs[k];
      if b.DictBlock? {
        if b.kind == Some("text") {
          a := a.(textBlocks := a.textBlocks + 1, textSizeBytes := a.textSizeBytes + b.dumpedSize);
        } else if b.kind == Some("image") {
          a := a.(imageBlocks := a.imageBlocks + 1, imageSizeBytes := a.imageSizeBytes + b.dumpedSize);
        } else if b.kind == Some("tool_use") || b.kind == Some("tool_result") {
          a := a.(toolBlocks := a.toolBlocks + 1, toolSizeBytes := a.toolSizeBytes + b.dumpedSize);
        }
      }
      k := k + 1;
    }
    assert bs[..k] == bs;
  }

  /** The three categories never share a block: together they count no
      more blocks than there are dict blocks in list contents. */
  lemma {:induction false} CategoriesDisjoint(bs: seq<PayloadBlock>)
    ensures BlockCount(bs, TextCategory) + BlockCount(bs, ImageCategory) + BlockCount(bs, ToolCategory) <= |bs|
  {
    if bs != [] {
      CategoriesDisjoint(bs[..|bs| - 1]);
    }
  }

  /** Counting is additive over a split of the conversation, so a message
      with non-list content, or a non-dict block, adds nothing. */
  lemma {:induction false} MessagesCountAppend(a: seq<PayloadMessage>, b: seq<PayloadMessage>, c: Category)
    ensures MessagesCount(a + b, c) == MessagesCount(a, c) + MessagesCount(b, c)
    ensures MessagesBytes(a + b, c) == MessagesBytes(a, c) + MessagesBytes(b, c)
  {
    if b == [] {
      assert a + b == a;
    } else {
      MessagesCountAppend(a, b[..|b| - 1], c);
      assert (a + b)[..|a + b| - 1] == a + b[..|b| - 1];
    }
  }

  /** The test's payload: two text blocks, one image, one tool call. */
  lemma AnalyzeExample(textSize: nat, imageSize: nat, greetingSize: nat, toolSize: nat)
    ensures var ms := [
        PayloadMessage("user", BlockContent([DictBlock(Some("text"), textSize), DictBlock(Some("image"), imageSize)])),
        PayloadMessage("assistant", BlockContent([DictBlock(Some("text"), greetingSize), DictBlock(Some("tool_use"), toolSize)]))];
      && MessagesCount(ms, TextCategory) == 2
      && MessagesCount(ms, ImageCategory) == 1
      && MessagesCount(ms, ToolCategory) == 1
  {
    var b1 := [DictBlock(Some("text"), textSize), DictBlock(Some("image"), imageSize)];
    var b2 := [DictBlock(Some("text"), greetingSize), DictBlock(Some("tool_use"), toolSize)];
    PairCount(b1[0], b1[1], TextCategory);
    PairCount(b1[0], b1[1], ImageCategory);
    PairCount(b1[0], b1[1], ToolCategory);
    PairCount(b2[0], b2[1], TextCategory);
    PairCount(b2[0], b2[1], ImageCategory);
    PairCount(b2[0], b2[1], ToolCategory);
    var ms := [PayloadMessage("user", BlockContent(b1)), PayloadMessage("assistant", BlockContent(b2))];
    assert ms[..1][..0] == [];
    assert ms[..1] == [ms[0]];
    forall c
      ensures MessagesCount(ms, c) == BlockCount(b1, c) + BlockCount(b2, c)
    {
      assert MessagesCount(ms[..1], c) == BlockCount(b1, c);
    }
  }

  lemma PairCount(x: PayloadBlock, y: PayloadBlock, c: Category)
    ensures BlockCount([x, y], c) == (if CategoryOf(x) == Some(c) then 1 else 0) + (if CategoryOf(y) == Some(c) then 1 else 0)
  {
    assert [x, y][..1] == [x];
    assert [x][..0] == [];
    assert BlockCount([x], c) == (if CategoryOf(x) == Some(c) then 1 else 0);
    assert BlockCount([x, y], c) == BlockCount([x], c) + (if CategoryOf(y) == Some(c) then 1 else 0);
  }
}
