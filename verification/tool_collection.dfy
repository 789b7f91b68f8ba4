/** A collection of tools, dispatched by name
    (computer-use-demo/computer_use_demo/tools/collection.py).

    A tool is known by its parameter dictionary; what running it does is
    outside the model and arrives as the function `invoke`, which says for
    a tool (by its position) and an input what the call ended with. */
module ToolCollection {
  import opened Wrappers
  import opened ToolBase

  /** A tool as the collection sees it: what `to_params()` is built from. */
  datatype Tool = Tool(name: string, apiType: string, options: Option<Dict>)

  /** How a tool call ended: a result, a raised `ToolError`, or another
      exception (named by its message). */
  datatype Outcome = Returned(result: ToolResult) | RaisedToolError(message: string) | RaisedOther(exception: string)

  const IndexError: string := "IndexError: list index out of range"

  function Params(t: Tool): Dict
  {
    ToolBase.ToParams(t.name, t.apiType, t.options)
  }

  /** `tool.to_params()["name"]`, the key a tool is stored under. */
  function Key(t: Tool): ParamValue
  {
    match Lookup(Params(t), "name")
    case Some(v) => v
    case None => PNone
  }

  /** The key of each tool, in order. */
  function KeysOf(tools: seq<Tool>): (keys: seq<ParamValue>)
    ensures |keys| == |tools| && forall i | 0 <= i < |tools| :: keys[i] == Key(tools[i])
  {
    seq(|tools|, i requires 0 <= i < |tools| => Key(tools[i]))
  }

  /** `m` maps exactly the keys of `keys`, each to the last position that
      holds it. */
  ghost predicate IndexesLast<K(!new)>(keys: seq<K>, m: map<K, nat>)
  {
    && (forall k :: k in m <==> k in keys)
    && (forall k | k in m :: m[k] < |keys| && keys[m[k]] == k)
    && (forall k | k in m :: forall j | m[k] < j < |keys| :: keys[j] != k)
  }

  /** The `tool_map` comprehension: each tool keyed by its name, so that of
      two tools with the same name the later one wins. */
  function BuildToolMap(tools: seq<Tool>): (m: map<ParamValue, nat>)
    ensures IndexesLast(KeysOf(tools), m)
  {
    if tools == [] then map[]
    else
      var m := BuildToolMap(tools[..|tools| - 1]);
      assert KeysOf(tools[..|tools| - 1]) == KeysOf(tools)[..|tools| - 1];
      AddLast(KeysOf(tools), m);
      m[Key(tools[|tools| - 1]) := |tools| - 1]
  }

  /** Storing the last position under its key extends an index of the
      other positions to one of all of them. */
  lemma AddLast<K(!new)>(keys: seq<K>, m: map<K, nat>)
    requires keys != [] && IndexesLast(keys[..|keys| - 1], m)
    ensures IndexesLast(keys, m[keys[|keys| - 1] := |keys| - 1])
  {
    var n := |keys| - 1;
    assert keys == keys[..n] + [keys[n]];
  }

  class ToolCollection {
    const tools: seq<Tool>
    const toolMap: map<ParamValue, nat>

    ghost predicate Valid()
    {
      toolMap == BuildToolMap(tools)
    }

    constructor (tools: seq<Tool>)
      ensures this.tools == tools
      ensures Valid()
    {
      this.tools := tools;
      this.toolMap := BuildToolMap(tools);
    }

    /** `to_params`: one dictionary per tool, in order; with caching on,
        the last one also gets `cache_control`, and an empty collection
        fails on `tools[-1]`. */
    function ToParams(enablePromptCaching: bool): (r: Result<seq<Dict>, string>)
      ensures r.Failure? <==> enablePromptCaching && tools == []
      ensures r.Failure? ==> r.error == IndexError
      ensures r.Success? ==> |r.value| == |tools|
      ensures r.Success? ==> forall i | 0 <= i < |tools| && !(enablePromptCaching && i == |tools| - 1) ::
        r.value[i] == Params(tools[i])
      ensures r.Success? && enablePromptCaching ==>
        var last := r.value[|tools| - 1];
        && Lookup(last, "cache_control") == Some(PCacheControl("ephemeral"))
        && forall k | k != "cache_control" :: Lookup(last, k) == Lookup(Params(tools[|tools| - 1]), k)
    {
      var ps := seq(|tools|, i requires 0 <= i < |tools| => Params(tools[i]));
      if !enablePromptCaching then Success(ps)
      else if ps == [] then Failure(IndexError)
      else Success(ps[..|ps| - 1] + [Put(ps[|ps| - 1], "cache_control", PCacheControl("ephemeral"))])
    }

    /** `run`: an unknown name is a failure result; a `ToolError` becomes a
        failure carrying its message; any other exception propagates. */
    function Run(name: string, toolInput: Dict, invoke: (nat, Dict) -> Outcome): (r: Result<ToolResult, string>)
      requires Valid()
      ensures PStr(name) !in toolMap ==> r == Success(FailureOf("Tool " + name + " is invalid"))
      ensures PStr(name) in toolMap ==>
        var i := toolMap[PStr(name)];
        && i < |tools| && Key(tools[i]) == PStr(name)
        && match invoke(i, toolInput)
           case Returned(x) => r == Success(x)
           case RaisedToolError(m) => r == Success(FailureOf(m))
           case RaisedOther(e) => r == Failure(e)
    {
      if PStr(name) !in toolMap then Success(FailureOf("Tool " + name + " is invalid"))
      else
        match invoke(toolMap[PStr(name)], toolInput)
        case Returned(x) => Success(x)
        case RaisedToolError(m) => Success(FailureOf(m))
        case RaisedOther(e) => Failure(e)
    }
  }

  /** Running a name reaches the last tool that carries it, and a name no
      tool carries never reaches `invoke`. */
  lemma RunDispatchesToLast(c: ToolCollection, name: string, toolInput: Dict, invoke: (nat, Dict) -> Outcome)
    requires c.Valid()
    ensures (forall i | 0 <= i < |c.tools| :: Key(c.tools[i]) != PStr(name)) ==>
      c.Run(name, toolInput, invoke) == Success(FailureOf("Tool " + name + " is invalid"))
    ensures forall i | 0 <= i < |c.tools| && Key(c.tools[i]) == PStr(name) &&
                       (forall j | i < j < |c.tools| :: Key(c.tools[j]) != PStr(name)) ::
      c.Run(name, toolInput, invoke) ==
        match invoke(i, toolInput)
        case Returned(x) => Success(x)
        case RaisedToolError(m) => Success(FailureOf(m))
        case RaisedOther(e) => Failure(e)
  {
    forall i | 0 <= i < |c.tools| && Key(c.tools[i]) == PStr(name) &&
               (forall j | i < j < |c.tools| :: Key(c.tools[j]) != PStr(name))
      ensures c.toolMap[PStr(name)] == i
    {
      var m := c.toolMap[PStr(name)];
      assert m < |c.tools| && Key(c.tools[m]) == PStr(name);
      assert !(m < i) && !(i < m);
    }
  }
}
