/** The REST bridge (computer-use-demo/computer_use_demo/rest_api.py).

    An in-memory store maps session ids to conversation histories. A chat
    request appends the user's turn to its session's history, hands the
    history to the sampling loop and answers with the text the loop
    streamed. The loop itself is a parameter: for the list it is given it
    reports the blocks it streamed to the output callback, the list's
    contents when it stopped, and the exception it raised, if any. The
    environment's API key and the fresh uuid are parameters too. */
module RestApi {
  import opened Wrappers
  import opened Text
  import opened SamplingLoop

  datatype ChatRequest = ChatRequest(sessionId: Option<string>, userMessage: string, systemSuffix: Option<string>)

  /** How a run of the sampling loop went, seen from the bridge. The loop
      appends to the very list it was given, so `history` is that list's
      contents when it returned or raised. */
  datatype LoopRun = LoopRun(streamed: seq<Block>, history: seq<Message>, exception: Option<string>)

  datatype ChatReply =
    | ChatResponse(sessionId: string, assistantMessage: string)
    | HttpError(code: int, detail: string)
    | Propagated(message: string)

  const MissingKey: string := "ANTHROPIC_API_KEY env‑var is missing"

  /** `_append_user_message`: one user message holding one text block. */
  function UserTurn(text: string): Message
  {
    Message("user", BlockList([TextBlock(text)]))
  }

  /** The texts of the text blocks, in order: what `output_cb` keeps. */
  function TextsOf(blocks: seq<Block>): (r: seq<string>)
    ensures |r| <= |blocks|
    decreases |blocks|
  {
    if blocks == [] then []
    else
      var b := blocks[|blocks| - 1];
      TextsOf(blocks[..|blocks| - 1]) + if b.TextBlock? then [b.text] else []
  }

  /** Streaming in two parts collects the texts of each part in turn. */
  lemma {:induction false} TextsOfAppend(a: seq<Block>, b: seq<Block>)
    ensures TextsOf(a + b) == TextsOf(a) + TextsOf(b)
    decreases |b|
  {
    if b == [] {
      assert a + b == a;
    } else {
      assert (a + b)[..|a + b| - 1] == a + b[..|b| - 1];
      TextsOfAppend(a, b[..|b| - 1]);
    }
  }

  /** A text block streamed contributes its text; nothing else does. */
  lemma {:induction false} TextsOfMembers(blocks: seq<Block>)
    ensures forall t :: t in TextsOf(blocks) <==> TextBlock(t) in blocks
    decreases |blocks|
  {
    if blocks != [] {
      TextsOfMembers(blocks[..|blocks| - 1]);
      assert blocks == blocks[..|blocks| - 1] + [blocks[|blocks| - 1]];
    }
  }

  /** `req.session_id or _new_session()`: an empty id counts as absent. */
  function SessionOf(req: ChatRequest, freshId: string): (sid: string)
    ensures req.sessionId.Some? && req.sessionId.value != "" ==> sid == req.sessionId.value
    ensures req.sessionId.None? || req.sessionId.value == "" ==> sid == freshId
  {
    if req.sessionId.Some? && req.sessionId.value != "" then req.sessionId.value else freshId
  }

  class ConversationStore {
    var conversations: map<string, seq<Message>>

    constructor ()
      ensures conversations == map[]
    {
      conversations := map[];
    }

    /** The history a session starts from: `setdefault(sid, [])`. */
    function History(sid: string): (h: seq<Message>)
      reads this
      ensures sid in conversations ==> h == conversations[sid]
      ensures sid !in conversations ==> h == []
    {
      if sid in conversations then conversations[sid] else []
    }

    /** `chat`. Without an API key it answers 500 and the store is
        untouched. Otherwise the session's history (empty for a new one)
        gets the user's turn at the end and goes to the loop; the store
        keeps whatever the loop left in that list, even when the loop
        raised; the answer is the streamed text blocks joined and
        stripped. */
    method Chat(req: ChatRequest, apiKey: Option<string>, freshId: string, loop: seq<Message> -> LoopRun)
      returns (reply: ChatReply)
      modifies this
      ensures apiKey.None? || apiKey.value == "" ==>
        reply == HttpError(500, MissingKey) && conversations == old(conversations)
      ensures apiKey.Some? && apiKey.value != "" ==>
        var sid := SessionOf(req, freshId);
        var run := loop(old(History(sid)) + [UserTurn(req.userMessage)]);
        && conversations == old(conversations)[sid := run.history]
        && (run.exception.Some? ==> reply == Propagated(run.exception.value))
        && (run.exception.None? ==> reply == ChatResponse(sid, Strip(Concat(TextsOf(run.streamed)))))
    {
      if apiKey.None? || apiKey.value == "" {
        return HttpError(500, MissingKey);
      }
      var sid := SessionOf(req, freshId);
      if sid !in conversations {
        conversations := conversations[sid := []];
      }
      conversations := conversations[sid := conversations[sid] + [UserTurn(req.userMessage)]];
      var run := loop(conversations[sid]);
      var textChunks := CollectText(run.streamed);
      conversations := conversations[sid := run.history];
      if run.exception.Some? {
        return Propagated(run.exception.value);
      }
      reply := ChatResponse(sid, Strip(Concat(textChunks)));
    }
  }

  /** `output_cb`, called once per streamed block: text blocks add their
      text to `text_chunks`. */
  method CollectText(streamed: seq<Block>) returns (textChunks: seq<string>)
    ensures textChunks == TextsOf(streamed)
  {
    textChunks := [];
    var i := 0;
    while i < |streamed|
      invariant 0 <= i <= |streamed|
      invariant textChunks == TextsOf(streamed[..i])
    {
      assert streamed[..i + 1][..i] == streamed[..i];
      if streamed[i].TextBlock? {
        textChunks := textChunks + [streamed[i].text];
      }
      i := i + 1;
    }
    assert streamed[..|streamed|] == streamed;
  }

  /** A turn in which the loop streamed no text block answers with the
      empty string. */
  lemma {:induction false} SilentTurn(streamed: seq<Block>)
    requires forall i | 0 <= i < |streamed| :: !streamed[i].TextBlock?
    ensures TextsOf(streamed) == []
    ensures Strip(Concat(TextsOf(streamed))) == ""
    decreases |streamed|
  {
    if streamed != [] {
      SilentTurn(streamed[..|streamed| - 1]);
    }
    assert StripLeft("") == "" && StripRight("") == "";
  }
}
