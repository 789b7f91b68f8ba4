/** A tool served by an MCP server (agents/tools/mcp_tool.py): running it
    calls the server under the tool's own name and keeps only the first text
    item of the reply.

    The server is outside the model: `callTool` says what the call with a
    name and arguments ended with, a reply or an exception's text. */
module McpTool {
  import opened Wrappers
  import ToolBase

  /** An item of a reply's `content`; `kind` is its `type` attribute, if
      any. */
  datatype ContentItem = ContentItem(kind: Option<string>, text: string)

  /** A call's reply; `content` is `None` when the reply has no such
      attribute. */
  datatype CallResult = CallResult(content: Option<seq<ContentItem>>)

  const NoTextContent: string := "No text content in tool response"

  predicate IsText(it: ContentItem)
  {
    it.kind == Some("text")
  }

  /** The text of the first text item, if any. */
  function FirstText(items: seq<ContentItem>): (r: Option<string>)
    ensures r.None? <==> forall i | 0 <= i < |items| :: !IsText(items[i])
    ensures r.Some? ==> exists i | 0 <= i < |items| :: IsText(items[i]) && r.value == items[i].text &&
                          forall j | 0 <= j < i :: !IsText(items[j])
  {
    if items == [] then None
    else if IsText(items[0]) then Some(items[0].text)
    else
      var r := FirstText(items[1..]);
      assert forall i | 1 <= i < |items| :: items[i] == items[1..][i - 1];
      if r.Some? then
        var k :| 0 <= k < |items[1..]| && IsText(items[1..][k]) && r.value == items[1..][k].text &&
                 forall j | 0 <= j < k :: !IsText(items[1..][j]);
        assert IsText(items[k + 1]) && forall j | 0 <= j < k + 1 :: !IsText(items[j]);
        r
      else r
  }

  /** `MCPTool.execute`. */
  function Execute(name: string, kwargs: ToolBase.Dict, callTool: (string, ToolBase.Dict) -> Result<CallResult, string>)
    : (r: string)
    ensures callTool(name, kwargs).Failure? ==> r == "Error executing " + name + ": " + callTool(name, kwargs).error
    ensures callTool(name, kwargs).Success? ==>
      var res := callTool(name, kwargs).value;
      if res.content.Some? && FirstText(res.content.value).Some? then r == FirstText(res.content.value).value
      else r == NoTextContent
  {
    match callTool(name, kwargs)
    case Failure(e) => "Error executing " + name + ": " + e
    case Success(res) =>
      if res.content.Some? && res.content.value != [] then
        match FirstText(res.content.value)
        case Some(t) => t
        case None => NoTextContent
      else NoTextContent
  }

  /** Items before the first text item do not matter: an image and then a
      text give the text. */
  lemma SkipsLeadingNonText(name: string, kwargs: ToolBase.Dict, before: seq<ContentItem>, text: string,
                            after: seq<ContentItem>, callTool: (string, ToolBase.Dict) -> Result<CallResult, string>)
    requires forall i | 0 <= i < |before| :: !IsText(before[i])
    requires callTool(name, kwargs) == Success(CallResult(Some(before + [ContentItem(Some("text"), text)] + after)))
    ensures Execute(name, kwargs, callTool) == text
  {
    var items := before + [ContentItem(Some("text"), text)] + after;
    var r := FirstText(items);
    assert IsText(items[|before|]);
    var k :| 0 <= k < |items| && IsText(items[k]) && r.value == items[k].text &&
             forall j | 0 <= j < k :: !IsText(items[j]);
    assert forall j | 0 <= j < |before| :: items[j] == before[j];
    assert k == |before|;
  }
}
