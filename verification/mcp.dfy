/**
 * Starting the MCP toolboxes configured for a repository (`start_mcp_toolboxes`).
 * Spawning a server's subprocess and the protocol handshake are one fallible step, `connect`.
 */
module Mcp {
  import opened Results
  import opened Config

  /** The handle of a running MCP service, as the handshake returns it. */
  type ServiceHandle = nat

  /** A started toolbox: the running service, named after its configuration entry, with its filter if any. */
  datatype McpToolbox = McpToolbox(service: ServiceHandle, name: string, filter: Option<ToolFilter>)

  const EMPTY_COMMAND_ERROR := "Empty command for mcp tool"

  /** A server entry that starts: its command is not empty and spawning and handshaking it succeed. */
  predicate Starts(server: McpServer, connect: McpServer -> Result<ServiceHandle>) {
    server.command != "" && connect(server).Ok?
  }

  /** Entry `k` is the first of `servers` that does not start. */
  predicate FirstFailure(servers: seq<McpServer>, connect: McpServer -> Result<ServiceHandle>, k: int) {
    && 0 <= k < |servers|
    && (forall i :: 0 <= i < k ==> Starts(servers[i], connect))
    && !Starts(servers[k], connect)
  }

  /** The error with which starting `server` fails: the empty-command check comes before the spawn. */
  function StartError(server: McpServer, connect: McpServer -> Result<ServiceHandle>): string
    requires !Starts(server, connect)
  {
    if server.command == "" then EMPTY_COMMAND_ERROR else connect(server).error
  }

  /** The toolbox made from a server entry that started. */
  function ToolboxFor(server: McpServer, connect: McpServer -> Result<ServiceHandle>): McpToolbox
    requires Starts(server, connect)
  {
    McpToolbox(connect(server).value, server.name, server.filter)
  }

  /**
   * Starts one toolbox per configured server, in configuration order. Stops at the first entry
   * that does not start and fails with its error; without an `mcp` section there are no toolboxes.
   */
  method StartMcpToolboxes(config: RepoConfig, connect: McpServer -> Result<ServiceHandle>)
    returns (r: Result<seq<McpToolbox>>)
    ensures config.mcp.None? ==> r == Ok([])
    ensures r.Ok? <==> forall i :: 0 <= i < |McpServers(config)| ==> Starts(McpServers(config)[i], connect)
    ensures r.Ok? ==> |r.value| == |McpServers(config)|
    ensures r.Ok? ==> forall i :: 0 <= i < |r.value| ==>
      && r.value[i].name == McpServers(config)[i].name
      && r.value[i].filter == McpServers(config)[i].filter
      && r.value[i].service == connect(McpServers(config)[i]).value
    ensures r.Err? ==> exists k :: FirstFailure(McpServers(config), connect, k) && r.error == StartError(McpServers(config)[k], connect)
  {
    var services: seq<McpToolbox> := [];
    if config.mcp.Some? {
      var servers := config.mcp.value;
      assert servers == McpServers(config);
      var i := 0;
      while i < |servers|
        invariant 0 <= i <= |servers|
        invariant forall j :: 0 <= j < i ==> Starts(servers[j], connect)
        invariant |services| == i
        invariant forall j :: 0 <= j < i ==> services[j] == ToolboxFor(servers[j], connect)
      {
        var server := servers[i];
        if server.command == "" {
          assert FirstFailure(servers, connect, i) && !Starts(servers[i], connect);
          return Err(EMPTY_COMMAND_ERROR);
        }
        var service := connect(server);
        if service.Err? {
          assert FirstFailure(servers, connect, i);
          return Err(service.error);
        }
        services := services + [McpToolbox(service.value, server.name, server.filter)];
        i := i + 1;
      }
    }
    return Ok(services);
  }
}
