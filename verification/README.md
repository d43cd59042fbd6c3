# kwaak agent session core, modelled in Dafny

This project models the sequential logic inside kwaak's agent session layer (`src/agent/session.rs`).
A session gives a language-model agent a set of tools, starts the external MCP toolboxes the
repository configures, and then keeps a live `RunningSession`. That session has a swappable
active agent, a replaceable cancel token, a loop that applies control messages, and a teardown
that cancels every toolbox.

The modules:

- `Results` (`results.dfy`): `Option` and `Result`; an error is its message, as with `anyhow`.
- `Config` (`config.dfy`): the configuration fields the core reads. These are the edit mode, the
  GitHub flag, the Tavily key, the test and coverage commands, the disabled tools and the MCP servers.
- `ToolSet` (`tool_set.dfy`): `available_builtin_tools`. It starts from seven baseline tools, adds
  one edit-mode group, then the optional tools in a fixed order, then removes the disabled names.
  The pushes and the `retain` are imperative (`AvailableBuiltinTools`, `Retain`). They are proved
  against the specification functions `Assembled` and `Retained`, and lemmas state what those promise.
- `PlanAndAct` (`plan_and_act.dfy`): the outer agent's tool list in the plan-and-act topology. It
  drops the blacklisted mutating tools and appends the `delegate_coding_agent` tool.
- `Mcp` (`mcp.dfy`): `start_mcp_toolboxes`. It validates each server entry, connects it and wraps it
  as a toolbox.
- `Sessions` (`session.dfy`): the `RunningSession` class, the message handler loop, the `Drop`
  teardown loop and `generate_initial_context`.

Tools are values of the `Tool` datatype, one constructor per builtin tool, plus the delegate tool. A tool's name comes
from a parameter `name: Tool -> string`. Only the five names the session file spells out are
pinned down, by `KnownNames`: `write_file`, `shell_command`, `replace_lines`, `add_lines` and
`delegate_coding_agent`. Every other name is whatever `name` returns. Filtering by disabled or
blacklisted names compares names, as the source does.

Calls into code that is not part of this model are parameters:

- `buildSearchClient` stands for the Tavily client constructor, which may fail.
- `connect` stands for spawning an MCP server and its handshake, one fallible step.
- `cancel` gives the outcome of cancelling a toolbox.
- `GenerateInitialContext` takes the result of the retrieval query.

### Behaviour of the code worth knowing

- An entry with an empty command fails with the fixed message `Empty command for mcp tool`. The
  message does not name the failing entry.
- When an entry fails, the toolboxes already started for earlier entries are dropped. They are not
  cancelled explicitly.
- `RunningSession` is `Clone`, and `Drop` runs for every handle that is released. Each release
  makes one full round of cancel attempts over the same toolboxes. `RunningSession.Drop` models one
  such round.

## Model

| member | source | states |
|---|---|---|
| `ToolSet.Retained` | src/agent/session.rs:461-467 | filtering never lengthens the list |
| `ToolSet.RetainedMembership` | src/agent/session.rs:461-467 | a tool is kept exactly when it was present and its name is not excluded |
| `ToolSet.RetainedAppend` | src/agent/session.rs:461-467 | filtering distributes over concatenation, so kept tools keep their relative order whichever branch added them |
| `ToolSet.RetainedCount` | src/agent/session.rs:461-467 | every copy of an excluded tool is removed, and every other tool keeps all of its copies |
| `ToolSet.RetainedSameExclusions` | src/agent/session.rs:466 | only the set of excluded names matters, not their order or repetition |
| `ToolSet.RetainedNothingExcluded` | src/agent/session.rs:461-467 | a list none of whose names is excluded passes through unchanged |
| `ToolSet.RetainedKeepsOrder` | src/agent/session.rs:461-467 | any pairwise order the input respects, the filtered list respects too |
| `ToolSet.Retain` | src/agent/session.rs:461-467 | the `retain` loop leaves exactly the filtered list; the in-place update is rendered as a freshly built sequence |
| `ToolSet.AvailableBuiltinTools` | src/agent/session.rs:402-470 | fails exactly when a Tavily key is set and its client cannot be built, with that error; otherwise returns the assembled list minus the disabled tools |
| `ToolSet.PushEditTools` | src/agent/session.rs:419-433 | the edit-mode match appends exactly the configured mode's edit group after the tools already present |
| `ToolSet.AssembledPrefix` | src/agent/session.rs:408-433 | the list starts with the seven baseline tools in order, followed by the configured mode's edit group |
| `ToolSet.FixedToolMembership` | src/agent/session.rs:408-433 | a non-optional tool is present exactly when the baseline or the edit group holds it |
| `ToolSet.EditGroupExclusive` | src/agent/session.rs:419-433 | exactly one edit group is added: read-file only in Whole, line-numbered read unless Whole, replace/add lines only in Line, patch only in Patch |
| `ToolSet.FixedWriteFileCount` | src/agent/session.rs:408-423 | the baseline plus edit group name `write_file` twice in Whole mode, once otherwise |
| `ToolSet.WriteFileCount` | src/agent/session.rs:408-423 | the assembled list holds `write_file` twice in Whole mode and once in the other modes |
| `ToolSet.OptionalLacksFixed` | src/agent/session.rs:435-459 | no baseline or edit-group tool is ever pushed by an optional branch |
| `ToolSet.OptionalToolMembership` | src/agent/session.rs:435-459 | an optional tool is present exactly when the optional part holds it |
| `ToolSet.GithubAndWebSearchPresence` | src/agent/session.rs:435-445 | the pull-request and GitHub code-search tools appear iff GitHub is enabled; web search iff a Tavily key is set, carrying that key |
| `ToolSet.CommandAndResetPresence` | src/agent/session.rs:447-459 | run-tests and run-coverage appear iff their command is set, carrying it; reset-file iff an environment is supplied, carrying its start ref |
| `ToolSet.OptionalToolPresence` | src/agent/session.rs:435-459 | in the whole assembled list, each optional tool is present iff its condition holds, with that configuration |
| `ToolSet.GroupStages` | src/agent/session.rs:435-459 | each conditional branch pushes only tools of its own stage, in increasing stage |
| `ToolSet.OptionalStages` | src/agent/session.rs:435-459 | the optional tools come in strictly increasing stage: PR, GitHub search, web search, tests, coverage, reset file |
| `ToolSet.AvailableToolsOrder` | src/agent/session.rs:408-467 | in the final list every fixed tool precedes every optional tool, and the optional tools keep their fixed order, whatever is disabled |
| `ToolSet.LineModeWithoutIntegrations` | src/agent/session.rs:408-467 | Line mode with no integrations and nothing disabled gives the baseline plus the three line tools, with no read-file or patch tool and one `write_file` |
| `ToolSet.DisabledToolsRemoved` | src/agent/session.rs:461-467 | a tool whose name is disabled is absent, whichever branch added it; any other tool keeps as many copies as were pushed |
| `ToolSet.BuiltinToolsLackDelegate` | src/agent/session.rs:402-470 | the builtin tools never include the delegate tool |
| `PlanAndAct.DelegateTools` | src/agent/session.rs:266-272 | the result ends with the delegate tool, contains no tool with a blacklisted name (so none of write_file, shell_command, replace_lines, add_lines) and keeps every other available tool |
| `PlanAndAct.BlacklistDuplicateHarmless` | src/agent/session.rs:224-230 | the duplicated `write_file` entry filters exactly like the four distinct names |
| `PlanAndAct.DelegateToolsKeepOrder` | src/agent/session.rs:267-272 | the kept tools stay in order: a split input filters each side in place, and the delegate tool stays last |
| `PlanAndAct.DelegateToolOnce` | src/agent/session.rs:267-272 | when the input lacks the delegate tool, it appears exactly once; blacklisted tools have no copies; others keep all their copies |
| `PlanAndAct.DelegateIsolation` | src/agent/session.rs:267-272 | for the builtin tools of any configuration, the outer agent's list has the delegate tool exactly once |
| `Mcp.StartMcpToolboxes` | src/agent/session.rs:472-521 | no `mcp` section gives no toolboxes; it succeeds iff every entry has a command and connects; then one toolbox per entry in order; otherwise it fails with the first failing entry's error, the empty-command error checked first |
| `Sessions.ApplyAllConcat` | src/agent/session.rs:214-221 | handling two batches of messages in turn is handling them as one batch, in order |
| `Sessions.ApplyAllLastSent` | src/agent/session.rs:214-221 | after draining, the active agent is the last one sent, or unchanged when none was sent |
| `Sessions.RunningMessageHandler` | src/agent/session.rs:210-222 | applies the swaps one at a time in receive order; the active agent ends as their fold and the cancel token is untouched |
| `Sessions.CancellationToken.constructor` | src/agent/session.rs:375 | a new token is not cancelled |
| `Sessions.RunningSession.constructor` | src/agent/session.rs:187-195 | the session holds the built agent, the executor, the git environment and the toolboxes, with a fresh uncancelled token |
| `Sessions.RunningSession.ActiveAgent` | src/agent/session.rs:324-326 | reads the active-agent slot; what it returns is fixed by the `SwapAgent`, `ResetCancelToken`, `Stop` and message-handler ensures |
| `Sessions.RunningSession.CancelToken` | src/agent/session.rs:364-366 | reads the cancel-token slot; what it returns is fixed by the `ResetCancelToken`, `Stop` and `SwapAgent` ensures |
| `Sessions.RunningSession.SwapAgent` | src/agent/session.rs:343-346 | afterwards `ActiveAgent()` returns the new agent and the cancel token is the same; the other fields are constants |
| `Sessions.RunningSession.ResetCancelToken` | src/agent/session.rs:373-376 | `CancelToken()` is a fresh, uncancelled token; the old token and the active agent are unchanged |
| `Sessions.RunningSession.Stop` | src/agent/session.rs:383-388 | resets the token as above, leaves the active agent alone, and issues the stop to the agent active at that moment |
| `Sessions.RunningSession.Drop` | src/agent/session.rs:303-315 | exactly one cancel attempt per toolbox, in list order, whatever earlier attempts returned |
| `Sessions.GenerateInitialContext` | src/agent/session.rs:392-400 | a failed retrieval fails with its error; otherwise the result is the header `Additional information:` with two newlines, followed by the retrieved text, which can be read back |

## Left out

- The startup pipeline `SessionBuilder::start` (src/agent/session.rs:98-206) is async wiring and is
  not modelled. This covers the concurrent `try_join!` of naming, executor start, branch naming and
  context retrieval, the responder update, `GitAgentEnvironment::setup`, the agent builds, the
  `on_agent_build` hook and the spawned message task with its abort-on-drop handle. Their bodies
  are not part of this model.
- The `Session` descriptor, its builder and `Session::swap_agent` are left out. The channel send
  and its failure belong to the transport; the model starts from the received messages.
- `query_agent` and `run_agent` only forward to the agent's own async methods, whose bodies are not
  part of this model. `executor()` and `git_environment()` read `const` fields of the class.
- `Mutex` locking and poisoning panics are left out. The slots are plain fields, so atomicity under
  concurrent callers cannot be expressed, and the message handler is modelled as a sequential loop.
- `block_in_place` and `block_on` in `Drop` are runtime plumbing. Only the loop of cancel attempts
  is modelled, and each attempt's outcome comes from the `cancel` parameter.
- In `build_plan_and_act`, starting the inner coding agent and building the delegate tool can fail.
  Both are external builders, and the delegate tool's description and parameter spec are not
  modelled beyond its name.
- The MCP subprocess command, arguments, environment secrets and the `ClientInfo` handshake are one
  abstract `connect` step.
- Tool constructors beyond their identity and configuration are left out, as is `ExplainCode`'s index.
- Tool names other than the five spelled out in the session file are opaque.
- Tracing, `Debug` and the builder-derive machinery are left out.
