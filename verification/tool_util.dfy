/** Running the agent's tool calls (agents/utils/tool_util.py): each call
    becomes one `tool_result` dict, and a batch of calls becomes the list
    of their results in call order.

    What a tool does is outside the model: `execute` says, for a tool name
    and an input, whether the call returned (with the `str` of its result),
    raised a `KeyError`, or raised another exception (with its `str`). */
module ToolUtil {
  import opened Wrappers
  import ToolBase

  /** A tool call the model made. */
  datatype ToolCall = ToolCall(id: string, name: string, input: ToolBase.Dict)

  datatype Execution = Returned(text: string) | RaisedKeyError | RaisedOther(message: string)

  /** The response dict; `isError` is `None` when the dict has no
      `is_error` key. */
  datatype ToolResponse = ToolResponse(kind: string, toolUseId: string, content: string, isError: Option<bool>)

  /** `_execute_single_tool`: a name the tool dict lacks, or a `KeyError`
      from inside the tool, reads as "not found"; any other exception is
      reported with its text; a returned value becomes the content, with no
      error flag. */
  function ExecuteSingleTool(call: ToolCall, toolNames: set<string>, execute: (string, ToolBase.Dict) -> Execution)
    : (r: ToolResponse)
    ensures r.kind == "tool_result" && r.toolUseId == call.id
    ensures call.name !in toolNames ==> r.content == "Tool '" + call.name + "' not found" && r.isError == Some(true)
    ensures call.name in toolNames ==>
      match execute(call.name, call.input)
      case Returned(t) => r.content == t && r.isError.None?
      case RaisedKeyError => r.content == "Tool '" + call.name + "' not found" && r.isError == Some(true)
      case RaisedOther(m) => r.content == "Error executing tool: " + m && r.isError == Some(true)
  {
    if call.name !in toolNames then
      ToolResponse("tool_result", call.id, "Tool '" + call.name + "' not found", Some(true))
    else
      match execute(call.name, call.input)
      case Returned(t) => ToolResponse("tool_result", call.id, t, None)
      case RaisedKeyError => ToolResponse("tool_result", call.id, "Tool '" + call.name + "' not found", Some(true))
      case RaisedOther(m) => ToolResponse("tool_result", call.id, "Error executing tool: " + m, Some(true))
  }

  /** `execute_tools`: one response per call, each answering its own call,
      in call order; sequential and parallel runs give the same list. */
  function ExecuteTools(calls: seq<ToolCall>, toolNames: set<string>, execute: (string, ToolBase.Dict) -> Execution,
                        parallel: bool): (r: seq<ToolResponse>)
    ensures |r| == |calls|
    ensures forall i | 0 <= i < |calls| :: r[i].toolUseId == calls[i].id && r[i].kind == "tool_result"
    ensures forall i | 0 <= i < |calls| :: r[i] == ExecuteSingleTool(calls[i], toolNames, execute)
  {
    seq(|calls|, i requires 0 <= i < |calls| => ExecuteSingleTool(calls[i], toolNames, execute))
  }

  /** The responses of a batch are those of its parts, one after the other. */
  lemma ExecuteToolsSplit(a: seq<ToolCall>, b: seq<ToolCall>, toolNames: set<string>,
                          execute: (string, ToolBase.Dict) -> Execution, parallel: bool)
    ensures ExecuteTools(a + b, toolNames, execute, parallel)
      == ExecuteTools(a, toolNames, execute, parallel) + ExecuteTools(b, toolNames, execute, parallel)
  {
    var r := ExecuteTools(a + b, toolNames, execute, parallel);
    var s := ExecuteTools(a, toolNames, execute, parallel) + ExecuteTools(b, toolNames, execute, parallel);
    assert |r| == |s|;
    forall i | 0 <= i < |r|
      ensures r[i] == s[i]
    {
      if i < |a| {
        assert (a + b)[i] == a[i];
      } else {
        assert (a + b)[i] == b[i - |a|];
      }
    }
  }

  /** A response is an error exactly when the call did not return a value. */
  lemma ErrorIffNotReturned(call: ToolCall, toolNames: set<string>, execute: (string, ToolBase.Dict) -> Execution)
    ensures var r := ExecuteSingleTool(call, toolNames, execute);
      r.isError.Some? <==> !(call.name in toolNames && execute(call.name, call.input).Returned?)
    ensures var r := ExecuteSingleTool(call, toolNames, execute);
      r.isError.Some? ==> r.isError.value
  {
  }
}
