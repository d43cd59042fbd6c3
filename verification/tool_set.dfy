/**
 * The tool-set assembly policy: which builtin tools an agent gets, in which order,
 * for a given repository configuration (`available_builtin_tools`).
 */
module ToolSet {
  import opened Results
  import opened Config

  // The only tool names the session code fixes itself; every other name is opaque.
  const WRITE_FILE := "write_file"
  const SHELL_COMMAND := "shell_command"
  const REPLACE_LINES := "replace_lines"
  const ADD_LINES := "add_lines"
  const DELEGATE_CODING_AGENT := "delegate_coding_agent"

  /** The version-control working environment of a session; the reset-file tool resets to its start reference. */
  datatype GitAgentEnvironment = GitAgentEnvironment(startRef: string)

  /** The tools a session can hand to an agent. Tools built from configuration carry that configuration. */
  datatype Tool =
    | WriteFile | SearchFile | Git | ShellCommand | SearchCode | FetchUrl | ExplainCode
    | ReadFile | ReadFileWithLineNumbers | ReplaceLines | AddLines | PatchFile
    | CreateOrUpdatePullRequest | GithubSearchCode
    | SearchWeb(apiKey: string)
    | RunTests(testCommand: string)
    | RunCoverage(coverageCommand: string)
    | ResetFile(startRef: string)
    | DelegateCodingAgent

  /** `name` reports each tool's name; only the five names fixed by the session code are pinned down. */
  predicate KnownNames(name: Tool -> string) {
    && name(WriteFile) == WRITE_FILE
    && name(ShellCommand) == SHELL_COMMAND
    && name(ReplaceLines) == REPLACE_LINES
    && name(AddLines) == ADD_LINES
    && name(DelegateCodingAgent) == DELEGATE_CODING_AGENT
  }

  /** The tools of `tools`, in order, whose name is not listed in `excluded`. */
  function Retained(tools: seq<Tool>, name: Tool -> string, excluded: seq<string>): (r: seq<Tool>)
    ensures |r| <= |tools|
  {
    if tools == [] then []
    else (if name(tools[0]) in excluded then [] else [tools[0]]) + Retained(tools[1..], name, excluded)
  }

  /** A tool is kept exactly when it was present and its name is not excluded. */
  lemma {:induction false} RetainedMembership(tools: seq<Tool>, name: Tool -> string, excluded: seq<string>)
    ensures forall t :: t in Retained(tools, name, excluded) <==> t in tools && name(t) !in excluded
  {
    if tools != [] {
      assert tools == [tools[0]] + tools[1..];
      RetainedMembership(tools[1..], name, excluded);
    }
  }

  /** Filtering distributes over concatenation: kept tools keep their relative order. */
  lemma {:induction false} RetainedAppend(a: seq<Tool>, b: seq<Tool>, name: Tool -> string, excluded: seq<string>)
    ensures Retained(a + b, name, excluded) == Retained(a, name, excluded) + Retained(b, name, excluded)
  {
    if a == [] {
      assert a + b == b;
    } else {
      assert (a + b)[0] == a[0] && (a + b)[1..] == a[1..] + b;
      RetainedAppend(a[1..], b, name, excluded);
    }
  }

  /** Every copy of an excluded tool goes; every other tool keeps all of its copies. */
  lemma {:induction false} RetainedCount(tools: seq<Tool>, name: Tool -> string, excluded: seq<string>, t: Tool)
    ensures multiset(Retained(tools, name, excluded))[t] == if name(t) in excluded then 0 else multiset(tools)[t]
  {
    if tools != [] {
      assert tools == [tools[0]] + tools[1..];
      RetainedCount(tools[1..], name, excluded, t);
    }
  }

  /** Only which names are excluded matters, not their order or repetitions. */
  lemma {:induction false} RetainedSameExclusions(tools: seq<Tool>, name: Tool -> string, e1: seq<string>, e2: seq<string>)
    requires forall s :: s in e1 <==> s in e2
    ensures Retained(tools, name, e1) == Retained(tools, name, e2)
  {
    if tools != [] {
      RetainedSameExclusions(tools[1..], name, e1, e2);
    }
  }

  /** A list none of whose names is excluded passes through unchanged. */
  lemma {:induction false} RetainedNothingExcluded(tools: seq<Tool>, name: Tool -> string, excluded: seq<string>)
    requires forall i :: 0 <= i < |tools| ==> name(tools[i]) !in excluded
    ensures Retained(tools, name, excluded) == tools
  {
    if tools != [] {
      RetainedNothingExcluded(tools[1..], name, excluded);
    }
  }

  /** `before` holds of every pair of `tools` taken in list order. */
  predicate PairwiseOrdered(tools: seq<Tool>, before: (Tool, Tool) -> bool) {
    forall i, j :: 0 <= i < j < |tools| ==> before(tools[i], tools[j])
  }

  /** Filtering never reorders: any order the input respects, the output respects too. */
  lemma {:induction false} RetainedKeepsOrder(tools: seq<Tool>, name: Tool -> string, excluded: seq<string>, before: (Tool, Tool) -> bool)
    requires PairwiseOrdered(tools, before)
    ensures PairwiseOrdered(Retained(tools, name, excluded), before)
  {
    if tools != [] {
      var rest := Retained(tools[1..], name, excluded);
      assert PairwiseOrdered(tools[1..], before) by {
        forall i, j | 0 <= i < j < |tools[1..]| ensures before(tools[1..][i], tools[1..][j]) {
          assert tools[1..][i] == tools[i + 1] && tools[1..][j] == tools[j + 1];
        }
      }
      RetainedKeepsOrder(tools[1..], name, excluded, before);
      RetainedMembership(tools[1..], name, excluded);
      if name(tools[0]) !in excluded {
        var r := [tools[0]] + rest;
        forall i, j | 0 <= i < j < |r| ensures before(r[i], r[j]) {
          if i == 0 {
            assert r[j] in tools[1..];
            var k :| 0 <= k < |tools[1..]| && tools[1..][k] == r[j];
            assert tools[k + 1] == r[j];
          } else {
            assert r[i] == rest[i - 1] && r[j] == rest[j - 1];
          }
        }
      }
    }
  }

  /** The seven tools every agent starts from, in order. */
  function Baseline(): seq<Tool> {
    [WriteFile, SearchFile, Git, ShellCommand, SearchCode, FetchUrl, ExplainCode]
  }

  /** The editing tools of one edit mode. */
  function EditGroup(mode: EditMode): seq<Tool> {
    match mode
    case Whole => [WriteFile, ReadFile]
    case Line => [ReadFileWithLineNumbers, ReplaceLines, AddLines]
    case Patch => [ReadFileWithLineNumbers, PatchFile]
  }

  /** The pull-request and code-search tools, when GitHub is enabled. */
  function GithubTools(config: RepoConfig): seq<Tool> {
    if config.githubEnabled then [CreateOrUpdatePullRequest, GithubSearchCode] else []
  }

  /** The web-search tool, when a Tavily key is configured. */
  function WebSearchTools(config: RepoConfig): seq<Tool> {
    match config.tavilyApiKey
    case Some(key) => [SearchWeb(key)]
    case None => []
  }

  /** The test-running tool, when a test command is configured. */
  function TestTools(config: RepoConfig): seq<Tool> {
    match config.testCommand
    case Some(command) => [RunTests(command)]
    case None => []
  }

  /** The coverage tool, when a coverage command is configured. */
  function CoverageTools(config: RepoConfig): seq<Tool> {
    match config.coverageCommand
    case Some(command) => [RunCoverage(command)]
    case None => []
  }

  /** The reset-file tool, when a version-control environment is supplied. */
  function ResetTools(agentEnv: Option<GitAgentEnvironment>): seq<Tool> {
    match agentEnv
    case Some(env) => [ResetFile(env.startRef)]
    case None => []
  }

  /** The tools added only when their integration is configured, in the order they are added. */
  function OptionalTools(config: RepoConfig, agentEnv: Option<GitAgentEnvironment>): seq<Tool> {
    GithubTools(config) + WebSearchTools(config) + TestTools(config) + CoverageTools(config) + ResetTools(agentEnv)
  }

  /** The tool list before disabled tools are removed: the fixed tools, then the optional ones, in push order. */
  function Assembled(config: RepoConfig, agentEnv: Option<GitAgentEnvironment>): seq<Tool> {
    Baseline() + EditGroup(config.editMode) + OptionalTools(config, agentEnv)
  }

  /** Pushes the editing tools of `mode` onto `tools`. */
  method PushEditTools(tools: seq<Tool>, mode: EditMode) returns (r: seq<Tool>)
    ensures r == tools + EditGroup(mode)
  {
    r := tools;
    match mode {
      case Whole =>
        r := r + [WriteFile];
        r := r + [ReadFile];
      case Line =>
        r := r + [ReadFileWithLineNumbers];
        r := r + [ReplaceLines];
        r := r + [AddLines];
      case Patch =>
        r := r + [ReadFileWithLineNumbers];
        r := r + [PatchFile];
    }
  }

  /** Pushing five groups one after another onto `fixed` appends their concatenation. */
  lemma AppendAssociates(fixed: seq<Tool>, g: seq<Tool>, w: seq<Tool>, t: seq<Tool>, c: seq<Tool>, r: seq<Tool>)
    ensures fixed + g + w + t + c + r == fixed + (g + w + t + c + r)
  {
  }

  /** Builds the agent's builtin tools: baseline, one edit group, the configured optional tools, minus disabled ones. */
  method AvailableBuiltinTools(
    config: RepoConfig,
    agentEnv: Option<GitAgentEnvironment>,
    name: Tool -> string,
    buildSearchClient: string -> Result<()>)
    returns (r: Result<seq<Tool>>)
    ensures r.Err? <==> config.tavilyApiKey.Some? && buildSearchClient(config.tavilyApiKey.value).Err?
    ensures r.Err? ==> r.error == buildSearchClient(config.tavilyApiKey.value).error
    ensures r.Ok? ==> r.value == Retained(Assembled(config, agentEnv), name, config.disabledTools)
  {
    var tools := [WriteFile, SearchFile, Git, ShellCommand, SearchCode, FetchUrl, ExplainCode];
    tools := PushEditTools(tools, config.editMode);
    ghost var fixed := tools;
    if config.githubEnabled {
      tools := tools + [CreateOrUpdatePullRequest];
      tools := tools + [GithubSearchCode];
    }
    assert tools == fixed + GithubTools(config);
    if config.tavilyApiKey.Some? {
      var key := config.tavilyApiKey.value;
      var client := buildSearchClient(key);
      if client.Err? {
        return Err(client.error);
      }
      tools := tools + [SearchWeb(key)];
    }
    assert tools == fixed + GithubTools(config) + WebSearchTools(config);
    if config.testCommand.Some? {
      tools := tools + [RunTests(config.testCommand.value)];
    }
    assert tools == fixed + GithubTools(config) + WebSearchTools(config) + TestTools(config);
    if config.coverageCommand.Some? {
      tools := tools + [RunCoverage(config.coverageCommand.value)];
    }
    assert tools == fixed + GithubTools(config) + WebSearchTools(config) + TestTools(config) + CoverageTools(config);
    if agentEnv.Some? {
      tools := tools + [ResetFile(agentEnv.value.startRef)];
    }
    assert tools == fixed + GithubTools(config) + WebSearchTools(config) + TestTools(config) + CoverageTools(config) + ResetTools(agentEnv);
    AppendAssociates(fixed, GithubTools(config), WebSearchTools(config), TestTools(config), CoverageTools(config), ResetTools(agentEnv));
    assert tools == Assembled(config, agentEnv);

    var kept := Retain(tools, name, config.disabledTools);
    return Ok(kept);
  }

  /** `Vec::retain` by name: keeps, in order, the tools whose name is not excluded. */
  method Retain(tools: seq<Tool>, name: Tool -> string, excluded: seq<string>) returns (kept: seq<Tool>)
    ensures kept == Retained(tools, name, excluded)
  {
    kept := [];
    var i := 0;
    while i < |tools|
      invariant 0 <= i <= |tools|
      invariant kept == Retained(tools[..i], name, excluded)
    {
      assert tools[..i + 1] == tools[..i] + [tools[i]];
      RetainedAppend(tools[..i], [tools[i]], name, excluded);
      if name(tools[i]) !in excluded {
        kept := kept + [tools[i]];
      }
      i := i + 1;
    }
    assert tools[..i] == tools;
  }

  /** The baseline holds `write_file` once. */
  lemma BaselineWriteFileOnce()
    ensures multiset(Baseline())[WriteFile] == 1
  {
  }

  /** Only the whole-file edit group holds `write_file`, once. */
  lemma EditGroupWriteFile(mode: EditMode)
    ensures multiset(EditGroup(mode))[WriteFile] == if mode == Whole then 1 else 0
  {
  }

  /** Counts add up over concatenation. */
  lemma CountAppend(a: seq<Tool>, b: seq<Tool>, t: Tool)
    ensures multiset(a + b)[t] == multiset(a)[t] + multiset(b)[t]
  {
    assert multiset(a + b) == multiset(a) + multiset(b);
  }

  /** The fixed part of the list names `write_file` twice in whole-file mode and once otherwise. */
  lemma FixedWriteFileCount(mode: EditMode)
    ensures multiset(Baseline() + EditGroup(mode))[WriteFile] == if mode == Whole then 2 else 1
  {
    BaselineWriteFileOnce();
    EditGroupWriteFile(mode);
    CountAppend(Baseline(), EditGroup(mode), WriteFile);
  }

  /** Appending a list that lacks `t` leaves the count of `t` alone. */
  lemma CountAppendAbsent(a: seq<Tool>, b: seq<Tool>, t: Tool)
    requires t !in b
    ensures multiset(a + b)[t] == multiset(a)[t]
  {
    assert multiset(a + b) == multiset(a) + multiset(b);
  }

  /** The list starts with the seven baseline tools, followed by the edit group of the configured mode. */
  lemma AssembledPrefix(config: RepoConfig, agentEnv: Option<GitAgentEnvironment>)
    ensures var tools := Assembled(config, agentEnv);
      && tools[..7] == Baseline()
      && tools[7..7 + |EditGroup(config.editMode)|] == EditGroup(config.editMode)
  {
  }

  /** The baseline and every edit group hold only tools of stage 0. */
  lemma FixedStagesZero(mode: EditMode)
    ensures forall t :: t in Baseline() + EditGroup(mode) ==> Stage(t) == 0
  {
  }

  /** A tool of stage 0 is in the list exactly when the baseline or the edit group holds it. */
  lemma FixedToolMembership(config: RepoConfig, agentEnv: Option<GitAgentEnvironment>, t: Tool)
    requires Stage(t) == 0
    ensures t in Assembled(config, agentEnv) <==> t in Baseline() + EditGroup(config.editMode)
  {
    OptionalLacksFixed(config, agentEnv, t);
  }

  /** Which editing tools the baseline and the edit group of each mode hold. */
  lemma EditGroupMembership(mode: EditMode)
    ensures var fixed := Baseline() + EditGroup(mode);
      && (ReadFile in fixed <==> mode == Whole)
      && (ReadFileWithLineNumbers in fixed <==> mode != Whole)
      && (ReplaceLines in fixed <==> mode == Line)
      && (AddLines in fixed <==> mode == Line)
      && (PatchFile in fixed <==> mode == Patch)
  {
  }

  /** Exactly one edit group is added: the editing tools present are those of the configured mode. */
  lemma EditGroupExclusive(config: RepoConfig, agentEnv: Option<GitAgentEnvironment>)
    ensures var tools := Assembled(config, agentEnv);
      && (ReadFile in tools <==> config.editMode == Whole)
      && (ReadFileWithLineNumbers in tools <==> config.editMode != Whole)
      && (ReplaceLines in tools <==> config.editMode == Line)
      && (AddLines in tools <==> config.editMode == Line)
      && (PatchFile in tools <==> config.editMode == Patch)
  {
    EditGroupMembership(config.editMode);
    FixedToolMembership(config, agentEnv, ReadFile);
    FixedToolMembership(config, agentEnv, ReadFileWithLineNumbers);
    FixedToolMembership(config, agentEnv, ReplaceLines);
    FixedToolMembership(config, agentEnv, AddLines);
    FixedToolMembership(config, agentEnv, PatchFile);
  }

  /** In whole-file mode `write_file` is pushed a second time, so the list holds it twice; otherwise once. */
  lemma WriteFileCount(config: RepoConfig, agentEnv: Option<GitAgentEnvironment>)
    ensures multiset(Assembled(config, agentEnv))[WriteFile] == if config.editMode == Whole then 2 else 1
  {
    OptionalLacksFixed(config, agentEnv, WriteFile);
    FixedWriteFileCount(config.editMode);
    CountAppendAbsent(Baseline() + EditGroup(config.editMode), OptionalTools(config, agentEnv), WriteFile);
  }

  /** A tool of positive stage is in the list exactly when the optional tools hold it. */
  lemma OptionalToolMembership(config: RepoConfig, agentEnv: Option<GitAgentEnvironment>, t: Tool)
    requires Stage(t) > 0
    ensures t in Assembled(config, agentEnv) <==> t in OptionalTools(config, agentEnv)
  {
    FixedStagesZero(config.editMode);
  }

  /** A tool is in the optional tools exactly when one of their groups holds it. */
  lemma OptionalMembers(config: RepoConfig, agentEnv: Option<GitAgentEnvironment>, x: Tool)
    ensures x in OptionalTools(config, agentEnv) <==>
      (x in GithubTools(config) || x in WebSearchTools(config) || x in TestTools(config)
       || x in CoverageTools(config) || x in ResetTools(agentEnv))
  {
  }

  /** No tool of the baseline or an edit group is ever added as an optional tool. */
  lemma OptionalLacksFixed(config: RepoConfig, agentEnv: Option<GitAgentEnvironment>, t: Tool)
    requires Stage(t) == 0
    ensures t !in OptionalTools(config, agentEnv)
  {
    OptionalMembers(config, agentEnv, t);
  }

  /** Within the optional tools: the GitHub pair and the web-search tool follow their configuration. */
  lemma GithubAndWebSearchPresence(config: RepoConfig, agentEnv: Option<GitAgentEnvironment>, arg: string)
    ensures var tools := OptionalTools(config, agentEnv);
      && (CreateOrUpdatePullRequest in tools <==> config.githubEnabled)
      && (GithubSearchCode in tools <==> config.githubEnabled)
      && (SearchWeb(arg) in tools <==> config.tavilyApiKey == Some(arg))
  {
    OptionalMembers(config, agentEnv, CreateOrUpdatePullRequest);
    OptionalMembers(config, agentEnv, GithubSearchCode);
    OptionalMembers(config, agentEnv, SearchWeb(arg));
  }

  /** Within the optional tools: the test, coverage and reset-file tools follow their configuration. */
  lemma CommandAndResetPresence(config: RepoConfig, agentEnv: Option<GitAgentEnvironment>, arg: string)
    ensures var tools := OptionalTools(config, agentEnv);
      && (RunTests(arg) in tools <==> config.testCommand == Some(arg))
      && (RunCoverage(arg) in tools <==> config.coverageCommand == Some(arg))
      && (ResetFile(arg) in tools <==> agentEnv == Some(GitAgentEnvironment(arg)))
  {
    OptionalMembers(config, agentEnv, RunTests(arg));
    OptionalMembers(config, agentEnv, RunCoverage(arg));
    OptionalMembers(config, agentEnv, ResetFile(arg));
  }

  /**
   * Each optional tool is present exactly when its integration is configured, and carries that
   * configuration: the key, the command or the start reference `arg`.
   */
  lemma OptionalToolPresence(config: RepoConfig, agentEnv: Option<GitAgentEnvironment>, arg: string)
    ensures var tools := Assembled(config, agentEnv);
      && (CreateOrUpdatePullRequest in tools <==> config.githubEnabled)
      && (GithubSearchCode in tools <==> config.githubEnabled)
      && (SearchWeb(arg) in tools <==> config.tavilyApiKey == Some(arg))
      && (RunTests(arg) in tools <==> config.testCommand == Some(arg))
      && (RunCoverage(arg) in tools <==> config.coverageCommand == Some(arg))
      && (ResetFile(arg) in tools <==> agentEnv == Some(GitAgentEnvironment(arg)))
  {
    GithubAndWebSearchPresence(config, agentEnv, arg);
    CommandAndResetPresence(config, agentEnv, arg);
    OptionalToolMembership(config, agentEnv, CreateOrUpdatePullRequest);
    OptionalToolMembership(config, agentEnv, GithubSearchCode);
    OptionalToolMembership(config, agentEnv, SearchWeb(arg));
    OptionalToolMembership(config, agentEnv, RunTests(arg));
    OptionalToolMembership(config, agentEnv, RunCoverage(arg));
    OptionalToolMembership(config, agentEnv, ResetFile(arg));
  }

  /**
   * The stage at which a tool is added: 0 for the baseline and edit-group tools,
   * then 1 to 6 for the optional tools in the order they are appended.
   */
  function Stage(t: Tool): nat {
    match t
    case CreateOrUpdatePullRequest => 1
    case GithubSearchCode => 2
    case SearchWeb(_) => 3
    case RunTests(_) => 4
    case RunCoverage(_) => 5
    case ResetFile(_) => 6
    case _ => 0
  }

  /** `a` may precede `b`: the fixed tools come first, then the optional ones in strictly increasing stage. */
  predicate AddedBefore(a: Tool, b: Tool) {
    Stage(a) == 0 || Stage(a) < Stage(b)
  }

  /** The stages along `tools` strictly increase, all within `lo..hi`. */
  predicate StagedWithin(tools: seq<Tool>, lo: nat, hi: nat) {
    && (forall t :: t in tools ==> lo <= Stage(t) <= hi)
    && (forall i, j :: 0 <= i < j < |tools| ==> Stage(tools[i]) < Stage(tools[j]))
  }

  /** Two stage-ordered lists in adjacent stage bands concatenate to a stage-ordered list. */
  lemma StagedConcat(a: seq<Tool>, b: seq<Tool>, lo: nat, mid: nat, hi: nat)
    requires lo <= mid <= hi && StagedWithin(a, lo, mid) && StagedWithin(b, mid + 1, hi)
    ensures StagedWithin(a + b, lo, hi)
  {
    forall i, j | 0 <= i < j < |a + b| ensures Stage((a + b)[i]) < Stage((a + b)[j]) {
      if j < |a| {
        assert (a + b)[i] == a[i] && (a + b)[j] == a[j];
      } else if i < |a| {
        assert (a + b)[i] in a && (a + b)[j] in b;
      } else {
        assert (a + b)[i] == b[i - |a|] && (a + b)[j] == b[j - |a|];
      }
    }
  }

  /** Each optional group lies in its own stage band. */
  lemma GroupStages(config: RepoConfig, agentEnv: Option<GitAgentEnvironment>)
    ensures StagedWithin(GithubTools(config), 1, 2) && StagedWithin(WebSearchTools(config), 3, 3)
    ensures StagedWithin(TestTools(config), 4, 4) && StagedWithin(CoverageTools(config), 5, 5)
    ensures StagedWithin(ResetTools(agentEnv), 6, 6)
  {
  }

  /** Every optional tool has a positive stage, and they are listed in strictly increasing stage. */
  lemma OptionalStages(config: RepoConfig, agentEnv: Option<GitAgentEnvironment>)
    ensures StagedWithin(OptionalTools(config, agentEnv), 1, 6)
  {
    var g, w, t, c := GithubTools(config), WebSearchTools(config), TestTools(config), CoverageTools(config);
    GroupStages(config, agentEnv);
    StagedConcat(g, w, 1, 2, 3);
    StagedConcat(g + w, t, 1, 3, 4);
    StagedConcat(g + w + t, c, 1, 4, 5);
    StagedConcat(g + w + t + c, ResetTools(agentEnv), 1, 5, 6);
  }

  /** Stage-0 tools followed by stage-ordered optional tools respect `AddedBefore` pairwise. */
  lemma FixedThenOptionalOrdered(fixed: seq<Tool>, opt: seq<Tool>)
    requires forall t :: t in fixed ==> Stage(t) == 0
    requires StagedWithin(opt, 1, 6)
    ensures PairwiseOrdered(fixed + opt, AddedBefore)
  {
    var tools := fixed + opt;
    forall i, j | 0 <= i < j < |tools| ensures AddedBefore(tools[i], tools[j]) {
      if i < |fixed| {
        assert tools[i] == fixed[i] && fixed[i] in fixed;
      } else {
        assert tools[i] == opt[i - |fixed|] && tools[j] == opt[j - |fixed|];
      }
    }
  }

  /** The optional tools follow the fixed ones in their fixed order, and disabling tools never reorders the rest. */
  lemma {:induction false} AvailableToolsOrder(config: RepoConfig, agentEnv: Option<GitAgentEnvironment>, name: Tool -> string)
    ensures PairwiseOrdered(Retained(Assembled(config, agentEnv), name, config.disabledTools), AddedBefore)
  {
    var tools := Assembled(config, agentEnv);
    FixedStagesZero(config.editMode);
    OptionalStages(config, agentEnv);
    FixedThenOptionalOrdered(Baseline() + EditGroup(config.editMode), OptionalTools(config, agentEnv));
    RetainedKeepsOrder(tools, name, config.disabledTools, AddedBefore);
  }

  /** Line mode with no integrations and nothing disabled: the baseline plus the three line-editing tools. */
  lemma LineModeWithoutIntegrations(config: RepoConfig, name: Tool -> string)
    requires config.editMode == Line && !config.githubEnabled
    requires config.tavilyApiKey.None? && config.testCommand.None? && config.coverageCommand.None?
    requires config.disabledTools == []
    ensures var tools := Retained(Assembled(config, None), name, config.disabledTools);
      && tools == Baseline() + [ReadFileWithLineNumbers, ReplaceLines, AddLines]
      && ReadFile !in tools && PatchFile !in tools
      && multiset(tools)[WriteFile] == 1
  {
    assert OptionalTools(config, None) == [];
    assert Assembled(config, None) == Baseline() + EditGroup(Line);
    RetainedNothingExcluded(Assembled(config, None), name, config.disabledTools);
    EditGroupMembership(Line);
    FixedWriteFileCount(Line);
  }

  /** A disabled name removes its tool whichever branch added it; every other tool keeps its copies. */
  lemma DisabledToolsRemoved(config: RepoConfig, agentEnv: Option<GitAgentEnvironment>, name: Tool -> string, t: Tool)
    ensures var tools := Retained(Assembled(config, agentEnv), name, config.disabledTools);
      && (name(t) in config.disabledTools ==> t !in tools)
      && (name(t) !in config.disabledTools ==> multiset(tools)[t] == multiset(Assembled(config, agentEnv))[t])
  {
    RetainedCount(Assembled(config, agentEnv), name, config.disabledTools, t);
  }

  /** The builtin tools never include the delegate tool; only the plan-and-act topology adds it. */
  lemma BuiltinToolsLackDelegate(config: RepoConfig, agentEnv: Option<GitAgentEnvironment>, name: Tool -> string)
    ensures DelegateCodingAgent !in Retained(Assembled(config, agentEnv), name, config.disabledTools)
  {
    OptionalLacksFixed(config, agentEnv, DelegateCodingAgent);
    assert DelegateCodingAgent !in Baseline() + EditGroup(config.editMode);
    RetainedMembership(Assembled(config, agentEnv), name, config.disabledTools);
  }
}
