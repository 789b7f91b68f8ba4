/** The Streamlit front end's state handling
    (computer-use-demo/computer_use_demo/streamlit.py): session-state
    setup, the agent's state modifier, and the conversion of the chat log
    into LangChain messages. Rendering is outside the model; the system
    prompt (which embeds the machine type and the date) is a parameter. */
module StreamlitApp {
  import opened Wrappers

  // ---------------------------------------------------------------------------
  // Session state
  // ---------------------------------------------------------------------------

  /** A chat-log entry's content: a string, or a dict with the keys a
      tool-use entry has (`name`, and `input` as Python prints it) when
      present. */
  datatype ChatContent = StrContent(text: string) | DictContent(name: Option<string>, input: Option<string>)

  datatype ChatMessage = ChatMessage(role: string, content: ChatContent)

  /** The values `setup_state` puts into `st.session_state`. */
  datatype StateValue =
    | MessageLog(messages: seq<ChatMessage>)
    | Dict(entries: map<string, string>)
    | Text(text: string)

  const MessagesKey: string := "messages"
  const ResponsesKey: string := "responses"
  const ToolsKey: string := "tools"
  const SessionKey: string := "session_key"

  /** `setup_state` as a function of the state and the uuid it would draw:
      each of the four keys is set only when it is missing. */
  function SetupSpec(state: map<string, StateValue>, freshKey: string): (r: map<string, StateValue>)
    ensures r.Keys == state.Keys + {MessagesKey, ResponsesKey, ToolsKey, SessionKey}
    ensures forall k | k in state :: r[k] == state[k]
    ensures MessagesKey !in state ==> r[MessagesKey] == MessageLog([])
    ensures ResponsesKey !in state ==> r[ResponsesKey] == Dict(map[])
    ensures ToolsKey !in state ==> r[ToolsKey] == Dict(map[])
    ensures SessionKey !in state ==> r[SessionKey] == Text(freshKey)
  {
    var s1 := if MessagesKey in state then state else state[MessagesKey := MessageLog([])];
    var s2 := if ResponsesKey in s1 then s1 else s1[ResponsesKey := Dict(map[])];
    var s3 := if ToolsKey in s2 then s2 else s2[ToolsKey := Dict(map[])];
    if SessionKey in s3 then s3 else s3[SessionKey := Text(freshKey)]
  }

  /** Running setup twice is running it once, whatever uuid the second run
      draws. */
  lemma SetupIdempotent(state: map<string, StateValue>, k1: string, k2: string)
    ensures SetupSpec(SetupSpec(state, k1), k2) == SetupSpec(state, k1)
  {
    var once := SetupSpec(state, k1);
    var twice := SetupSpec(once, k2);
    assert twice.Keys == once.Keys;
    assert forall k | k in once :: twice[k] == once[k];
  }

  class SessionState {
    var state: map<string, StateValue>

    /** `setup_state`. */
    method SetupState(freshKey: string)
      modifies this
      ensures state == SetupSpec(old(state), freshKey)
    {
      if MessagesKey !in state {
        state := state[MessagesKey := MessageLog([])];
      }
      if ResponsesKey !in state {
        state := state[ResponsesKey := Dict(map[])];
      }
      if ToolsKey !in state {
        state := state[ToolsKey := Dict(map[])];
      }
      if SessionKey !in state {
        state := state[SessionKey := Text(freshKey)];
      }
    }
  }

  // ---------------------------------------------------------------------------
  // The agent's state modifier
  // ---------------------------------------------------------------------------

  /** LangChain messages. A human message carries the chat-log content as
      it was; the others carry text. */
  datatype AgentMessage =
    | SystemMessage(text: string)
    | HumanMessage(content: ChatContent)
    | AIMessage(text: string)

  const MaxStateMessages: nat := 30

  function Min(a: int, b: int): int
  {
    if a < b then a else b
  }

  /** `_modify_state_messages` as written: the system prompt, then the
      FIRST thirty messages of the state. */
  function ModifyStateMessages(systemPrompt: string, messages: seq<AgentMessage>): (r: seq<AgentMessage>)
    ensures |r| == 1 + Min(MaxStateMessages, |messages|)
    ensures r[0] == SystemMessage(systemPrompt)
    ensures forall i | 1 <= i < |r| :: r[i] == messages[i - 1]
  {
    [SystemMessage(systemPrompt)] + messages[..Min(MaxStateMessages, |messages|)]
  }

  /** What the comment beside it intends: the system prompt, then the LAST
      thirty messages of the state. */
  function KeepLastMessages(systemPrompt: string, messages: seq<AgentMessage>): (r: seq<AgentMessage>)
    ensures |r| == 1 + Min(MaxStateMessages, |messages|)
    ensures r[0] == SystemMessage(systemPrompt)
    ensures forall i | 1 <= i < |r| :: r[i] == messages[|messages| - (|r| - 1) + (i - 1)]
    ensures messages != [] ==> r[|r| - 1] == messages[|messages| - 1]
  {
    [SystemMessage(systemPrompt)] + messages[|messages| - Min(MaxStateMessages, |messages|)..]
  }

  /** The two agree while the state is short; past thirty messages the
      code as written never shows the model the newest message. */
  lemma FirstVersusLast(systemPrompt: string, messages: seq<AgentMessage>)
    ensures |messages| <= MaxStateMessages ==>
      ModifyStateMessages(systemPrompt, messages) == KeepLastMessages(systemPrompt, messages)
    ensures |messages| > MaxStateMessages && messages[|messages| - 1] !in messages[..|messages| - 1] ==>
      messages[|messages| - 1] !in ModifyStateMessages(systemPrompt, messages)[1..]
  {
    if |messages| > MaxStateMessages {
      var r := ModifyStateMessages(systemPrompt, messages);
      assert r[1..] == messages[..MaxStateMessages];
      assert messages[..MaxStateMessages] == messages[..|messages| - 1][..MaxStateMessages];
    } else {
      assert messages[..|messages|] == messages;
      assert messages[|messages| - |messages|..] == messages;
    }
  }

  /** A conversation of thirty-one user turns: the slice drops the turn the
      user just sent. */
  lemma NewestTurnDropped()
    ensures var messages := seq(31, i => HumanMessage(StrContent(if i == 30 then "newest" else "older")));
      && HumanMessage(StrContent("newest")) !in ModifyStateMessages("", messages)
      && HumanMessage(StrContent("newest")) in KeepLastMessages("", messages)
  {
    var messages := seq(31, i => HumanMessage(StrContent(if i == 30 then "newest" else "older")));
    var newest := HumanMessage(StrContent("newest"));
    assert "newest" != "older";
    assert forall i | 0 <= i < 30 :: messages[i] != newest;
    assert newest !in messages[..30];
    FirstVersusLast("", messages);
    assert ModifyStateMessages("", messages)[0] != newest;
    assert ModifyStateMessages("", messages) == [ModifyStateMessages("", messages)[0]] + ModifyStateMessages("", messages)[1..];
    var r := KeepLastMessages("", messages);
    assert r[|r| - 1] == newest;
  }

  // ---------------------------------------------------------------------------
  // The chat log as LangChain messages
  // ---------------------------------------------------------------------------

  function ToolUseText(name: string, input: string): string
  {
    "Tool Use: " + name + "\nInput: " + input
  }

  /** One entry of `format_messages_for_langchain`: a user entry becomes a
      human message with the same content; any other entry becomes an AI
      message, with string content kept and a dict content rendered as a
      tool use. A dict without `name` or `input` raises KeyError. */
  function FormatMessage(m: ChatMessage): (r: Result<AgentMessage, string>)
    ensures m.role == "user" ==> r == Success(HumanMessage(m.content))
    ensures m.role != "user" && m.content.StrContent? ==> r == Success(AIMessage(m.content.text))
    ensures m.role != "user" && m.content.DictContent? ==>
      if m.content.name.Some? && m.content.input.Some? then
        r == Success(AIMessage(ToolUseText(m.content.name.value, m.content.input.value)))
      else r.Failure?
    ensures r.Success? && r.value.HumanMessage? ==> m.role == "user"
  {
    if m.role == "user" then Success(HumanMessage(m.content))
    else
      match m.content
      case StrContent(s) => Success(AIMessage(s))
      case DictContent(name, input) =>
        if name.None? then Failure("KeyError: 'name'")
        else if input.None? then Failure("KeyError: 'input'")
        else Success(AIMessage(ToolUseText(name.value, input.value)))
  }

  /** `format_messages_for_langchain`: one LangChain message per entry, in
      order, or the error of the first entry that cannot be converted. */
  method FormatMessagesForLangchain(messages: seq<ChatMessage>) returns (r: Result<seq<AgentMessage>, string>)
    ensures r.Success? <==> forall i | 0 <= i < |messages| :: FormatMessage(messages[i]).Success?
    ensures r.Success? ==>
      && |r.value| == |messages|
      && forall i | 0 <= i < |messages| :: r.value[i] == FormatMessage(messages[i]).value
    ensures r.Failure? ==> exists i | 0 <= i < |messages| ::
      && FormatMessage(messages[i]).Failure? && r.error == FormatMessage(messages[i]).error
      && forall j | 0 <= j < i :: FormatMessage(messages[j]).Success?
  {
    var formatted: seq<AgentMessage> := [];
    var i := 0;
    while i < |messages|
      invariant 0 <= i <= |messages|
      invariant |formatted| == i
      invariant forall j | 0 <= j < i :: FormatMessage(messages[j]).Success? && formatted[j] == FormatMessage(messages[j]).value
    {
      var one := FormatMessage(messages[i]);
      if one.Failure? {
        return Failure(one.error);
      }
      formatted := formatted + [one.value];
      i := i + 1;
    }
    r := Success(formatted);
  }

  /** Only user entries become human messages, and every entry converts
      when the log holds strings and well-formed tool uses. */
  lemma FormatRoles(messages: seq<ChatMessage>)
    requires forall i | 0 <= i < |messages| ::
      messages[i].content.DictContent? ==> messages[i].content.name.Some? && messages[i].content.input.Some?
    ensures forall i | 0 <= i < |messages| :: FormatMessage(messages[i]).Success?
    ensures forall i | 0 <= i < |messages| ::
      FormatMessage(messages[i]).value.HumanMessage? <==> messages[i].role == "user"
  {
  }
}
