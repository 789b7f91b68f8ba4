/** Connecting to MCP servers (agents/utils/connections.py): a server's
    configuration is validated into a stdio or an SSE connection, and the
    tools of every server that could be reached are collected.

    Opening a connection and listing its tools is I/O: `connect` says, for
    a validated connection, which tools the server listed, or the exception
    that setting it up raised. */
module Connections {
  import opened Wrappers
  import opened Text

  /** A value of a server's configuration dict, as far as validation looks
      at it. */
  datatype ConfigValue =
    | Null
    | Str(s: string)
    | StrList(items: seq<string>)
    | StrMap(entries: map<string, string>)
    | OtherValue(repr: string)

  type Config = map<string, ConfigValue>

  /** `config.get(key)`: a missing key reads as `None`. */
  function Get(config: Config, key: string): ConfigValue
  {
    if key in config then config[key] else Null
  }

  /** Python truthiness of a configuration value. */
  predicate Truthy(v: ConfigValue)
  {
    match v
    case Null => false
    case Str(s) => s != ""
    case StrList(items) => items != []
    case StrMap(entries) => entries != map[]
    case OtherValue(_) => true
  }

  /** A validated connection; `args` and `env` are passed on as found,
      `None` included. */
  datatype Connection =
    | Stdio(command: ConfigValue, args: ConfigValue, env: ConfigValue)
    | Sse(url: ConfigValue, headers: ConfigValue)

  const CommandRequired: string := "ValueError: Command is required for STDIO connections"
  const UrlRequired: string := "ValueError: URL is required for SSE connections"

  /** `config.get("type", "stdio").lower()`; a type that is not a string has
      no `lower`. */
  function ConnectionType(config: Config): (r: Result<string, string>)
    ensures "type" !in config ==> r == Success("stdio")
    ensures "type" in config && config["type"].Str? ==> r == Success(Lower(config["type"].s))
    ensures "type" in config && !config["type"].Str? ==> r.Failure?
  {
    if "type" !in config then Success("stdio")
    else match config["type"]
      case Str(s) => Success(Lower(s))
      case _ => Failure("AttributeError: object has no attribute 'lower'")
  }

  /** `create_mcp_connection`. */
  function CreateMcpConnection(config: Config): (r: Result<Connection, string>)
    ensures ConnectionType(config).Failure? ==> r.Failure?
    ensures ConnectionType(config) == Success("stdio") ==>
      if Truthy(Get(config, "command"))
      then r == Success(Stdio(config["command"], Get(config, "args"), Get(config, "env")))
      else r == Failure(CommandRequired)
    ensures ConnectionType(config) == Success("sse") ==>
      if Truthy(Get(config, "url"))
      then r == Success(Sse(config["url"], if Truthy(Get(config, "headers")) then config["headers"] else StrMap(map[])))
      else r == Failure(UrlRequired)
    ensures ConnectionType(config).Success? && ConnectionType(config).value != "stdio" && ConnectionType(config).value != "sse" ==>
      r == Failure("ValueError: Unsupported connection type: " + ConnectionType(config).value)
  {
    var kind :- ConnectionType(config);
    if kind == "stdio" then
      if !Truthy(Get(config, "command")) then Failure(CommandRequired)
      else Success(Stdio(config["command"], Get(config, "args"), Get(config, "env")))
    else if kind == "sse" then
      if !Truthy(Get(config, "url")) then Failure(UrlRequired)
      else Success(Sse(config["url"], if Truthy(Get(config, "headers")) then config["headers"] else StrMap(map[])))
    else Failure("ValueError: Unsupported connection type: " + kind)
  }

  /** The type is matched whatever its case: "SSE" and "sse" build the same
      connection. */
  lemma TypeCaseInsensitive(config: Config, t: string)
    requires "type" in config && config["type"] == Str(t)
    ensures CreateMcpConnection(config) == CreateMcpConnection(config["type" := Str(Lower(t))])
  {
    var lowered := config["type" := Str(Lower(t))];
    LowerTwice(t);
    assert ConnectionType(lowered) == ConnectionType(config);
    SameKey(config, Lower(t), "command");
    SameKey(config, Lower(t), "args");
    SameKey(config, Lower(t), "env");
    SameKey(config, Lower(t), "url");
    SameKey(config, Lower(t), "headers");
  }

  lemma LowerTwice(t: string)
    ensures Lower(Lower(t)) == Lower(t)
  {
  }

  /** Rewriting the type leaves every other key as it was. */
  lemma SameKey(config: Config, t: string, k: string)
    requires k != "type"
    ensures Get(config["type" := Str(t)], k) == Get(config, k)
    ensures k in config ==> config["type" := Str(t)][k] == config[k]
  {
  }

  /** A tool as a server lists it. */
  datatype ToolInfo = ToolInfo(name: string, description: Option<string>, inputSchema: ConfigValue)

  /** An `MCPTool`, bound to the connection it came from. */
  datatype McpToolEntry = McpToolEntry(name: string, description: string, inputSchema: ConfigValue, connection: Connection)

  /** The tool built from a listing: an empty description becomes
      "MCP tool: <name>". */
  function MakeTool(info: ToolInfo, connection: Connection): (t: McpToolEntry)
    ensures t.name == info.name && t.inputSchema == info.inputSchema && t.connection == connection
    ensures t.description == (if info.description.Some? && info.description.value != "" then info.description.value
                              else "MCP tool: " + info.name)
  {
    McpToolEntry(info.name,
                 if info.description.Some? && info.description.value != "" then info.description.value
                 else "MCP tool: " + info.name,
                 info.inputSchema, connection)
  }

  /** What one server contributes: its tools, or nothing when its
      configuration is invalid or setting it up raises. */
  function ServerTools(config: Config, connect: Connection -> Result<seq<ToolInfo>, string>): (r: seq<McpToolEntry>)
    ensures r != [] ==>
      && CreateMcpConnection(config).Success? && connect(CreateMcpConnection(config).value).Success?
      && |r| == |connect(CreateMcpConnection(config).value).value|
    ensures forall i | 0 <= i < |r| :: r[i].connection == CreateMcpConnection(config).value
  {
    match CreateMcpConnection(config)
    case Failure(_) => []
    case Success(c) =>
      match connect(c)
      case Failure(_) => []
      case Success(infos) => seq(|infos|, i requires 0 <= i < |infos| => MakeTool(infos[i], c))
  }

  /** A server whose configuration is valid and whose setup succeeds
      contributes one tool per listed tool, in listing order, each bound to
      that server's connection; any other server contributes nothing. */
  lemma ServerToolsCases(config: Config, connect: Connection -> Result<seq<ToolInfo>, string>)
    ensures var r := ServerTools(config, connect);
      && (CreateMcpConnection(config).Failure? ==> r == [])
      && (CreateMcpConnection(config).Success? && connect(CreateMcpConnection(config).value).Failure? ==> r == [])
      && (CreateMcpConnection(config).Success? && connect(CreateMcpConnection(config).value).Success? ==>
            var infos := connect(CreateMcpConnection(config).value).value;
            && |r| == |infos|
            && forall i | 0 <= i < |infos| :: r[i] == MakeTool(infos[i], CreateMcpConnection(config).value))
  {
  }

  /** `setup_mcp_connections`: `None` or no servers give no tools; otherwise
      each server's tools, in server order. */
  function SetupMcpConnections(servers: Option<seq<Config>>, connect: Connection -> Result<seq<ToolInfo>, string>)
    : (r: seq<McpToolEntry>)
    ensures servers.None? || servers == Some([]) ==> r == []
  {
    if servers.None? then [] else CollectTools(servers.value, connect)
  }

  function CollectTools(servers: seq<Config>, connect: Connection -> Result<seq<ToolInfo>, string>): seq<McpToolEntry>
  {
    FlatMap(servers, c => ServerTools(c, connect))
  }

  /** The pieces `f` gives the elements of `xs`, joined in order. */
  function FlatMap<A, B>(xs: seq<A>, f: A -> seq<B>): seq<B>
  {
    if xs == [] then [] else FlatMap(xs[..|xs| - 1], f) + f(xs[|xs| - 1])
  }

  lemma {:induction false} FlatMapAppend<A, B>(a: seq<A>, b: seq<A>, f: A -> seq<B>)
    ensures FlatMap(a + b, f) == FlatMap(a, f) + FlatMap(b, f)
  {
    if b == [] {
      assert a + b == a;
    } else {
      var init := b[..|b| - 1];
      var last := b[|b| - 1];
      FlatMapAppend(a, init, f);
      assert (a + b)[..|a + b| - 1] == a + init;
      assert (a + b)[|a + b| - 1] == last;
      assert FlatMap(a + b, f) == FlatMap(a + init, f) + f(last);
      assert FlatMap(b, f) == FlatMap(init, f) + f(last);
    }
  }

  /** An element whose piece is empty leaves no trace in the join. */
  lemma FlatMapSkip<A, B>(before: seq<A>, x: A, after: seq<A>, f: A -> seq<B>)
    requires f(x) == []
    ensures FlatMap(before + [x] + after, f) == FlatMap(before + after, f)
  {
    FlatMapAppend(before + [x], after, f);
    FlatMapAppend(before, [x], f);
    FlatMapAppend(before, after, f);
    assert [x][..0] == [];
    assert FlatMap([x], f) == [];
  }

  /** Servers contribute independently: the tools of a list of servers are
      those of its two parts, one after the other. */
  lemma CollectToolsAppend(a: seq<Config>, b: seq<Config>, connect: Connection -> Result<seq<ToolInfo>, string>)
    ensures CollectTools(a + b, connect) == CollectTools(a, connect) + CollectTools(b, connect)
  {
    FlatMapAppend(a, b, c => ServerTools(c, connect));
  }

  /** A server that fails is skipped: the others' tools are collected as if
      it were not in the list. */
  lemma FailingServerSkipped(before: seq<Config>, bad: Config, after: seq<Config>,
                             connect: Connection -> Result<seq<ToolInfo>, string>)
    requires CreateMcpConnection(bad).Failure? || connect(CreateMcpConnection(bad).value).Failure?
    ensures SetupMcpConnections(Some(before + [bad] + after), connect) == SetupMcpConnections(Some(before + after), connect)
  {
    FailingServerNothing(bad, connect);
    FlatMapSkip(before, bad, after, c => ServerTools(c, connect));
  }

  /** A server that fails contributes no tools. */
  lemma FailingServerNothing(bad: Config, connect: Connection -> Result<seq<ToolInfo>, string>)
    requires CreateMcpConnection(bad).Failure? || connect(CreateMcpConnection(bad).value).Failure?
    ensures ServerTools(bad, connect) == []
  {
  }
}
