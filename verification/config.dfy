/** The part of a repository's configuration that the session core reads. */
module Config {
  import opened Results

  /** The three-way `agent_edit_mode` setting. */
  datatype EditMode = Whole | Line | Patch

  /** A filter restricting which remote tools an MCP toolbox exposes; its rules are applied by the toolbox library. */
  datatype ToolFilter = ToolFilter(rules: seq<string>)

  /** One configured MCP server. The configuration knows a single kind: a subprocess to spawn. */
  datatype McpServer = SubProcess(
    name: string,
    command: string,
    args: seq<string>,
    filter: Option<ToolFilter>,
    env: Option<map<string, string>>)

  datatype RepoConfig = RepoConfig(
    editMode: EditMode,
    githubEnabled: bool,
    tavilyApiKey: Option<string>,
    testCommand: Option<string>,
    coverageCommand: Option<string>,
    disabledTools: seq<string>,
    mcp: Option<seq<McpServer>>)

  /** The configured MCP servers, none when the `mcp` section is absent. */
  function McpServers(config: RepoConfig): seq<McpServer> {
    match config.mcp
    case None => []
    case Some(servers) => servers
  }
}
