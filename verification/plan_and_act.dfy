/**
 * The tool list of the outer agent in the plan-and-act topology: the available tools
 * minus the mutating ones, followed by the tool that delegates to the inner coding agent.
 */
module PlanAndAct {
  import opened Results
  import opened Config
  import opened ToolSet

  /** The names the outer agent may not use directly; `write_file` is listed twice. */
  const BLACKLIST_DELEGATE_TOOLS: seq<string> := [WRITE_FILE, SHELL_COMMAND, WRITE_FILE, REPLACE_LINES, ADD_LINES]

  /** The outer agent's tools: every available tool whose name is not blacklisted, in order, then the delegate tool. */
  function DelegateTools(available: seq<Tool>, name: Tool -> string): (r: seq<Tool>)
    requires KnownNames(name)
    ensures |r| >= 1 && r[|r| - 1] == DelegateCodingAgent
    ensures forall t :: t in r ==> name(t) !in BLACKLIST_DELEGATE_TOOLS
    ensures forall t :: t in available && name(t) !in BLACKLIST_DELEGATE_TOOLS ==> t in r
    ensures WriteFile !in r && ShellCommand !in r && ReplaceLines !in r && AddLines !in r
  {
    RetainedMembership(available, name, BLACKLIST_DELEGATE_TOOLS);
    Retained(available, name, BLACKLIST_DELEGATE_TOOLS) + [DelegateCodingAgent]
  }

  /** The repeated blacklist entry changes nothing: the four distinct names filter the same way. */
  lemma BlacklistDuplicateHarmless(available: seq<Tool>, name: Tool -> string)
    ensures Retained(available, name, BLACKLIST_DELEGATE_TOOLS)
         == Retained(available, name, [WRITE_FILE, SHELL_COMMAND, REPLACE_LINES, ADD_LINES])
  {
    RetainedSameExclusions(available, name, BLACKLIST_DELEGATE_TOOLS, [WRITE_FILE, SHELL_COMMAND, REPLACE_LINES, ADD_LINES]);
  }

  /** Kept tools keep their relative order: filtering a split list filters each side in place. */
  lemma DelegateToolsKeepOrder(front: seq<Tool>, back: seq<Tool>, name: Tool -> string)
    requires KnownNames(name)
    ensures DelegateTools(front + back, name)
         == Retained(front, name, BLACKLIST_DELEGATE_TOOLS) + DelegateTools(back, name)
  {
    RetainedAppend(front, back, name, BLACKLIST_DELEGATE_TOOLS);
  }

  /**
   * When the available tools lack the delegate tool, the outer agent gets none of the mutating tools,
   * keeps every other tool with all its copies, and has the delegate tool exactly once, at the end.
   */
  lemma DelegateToolOnce(available: seq<Tool>, name: Tool -> string, t: Tool)
    requires KnownNames(name)
    requires DelegateCodingAgent !in available
    ensures var r := DelegateTools(available, name);
      && multiset(r)[DelegateCodingAgent] == 1
      && (t != DelegateCodingAgent && name(t) !in BLACKLIST_DELEGATE_TOOLS ==> multiset(r)[t] == multiset(available)[t])
      && (name(t) in BLACKLIST_DELEGATE_TOOLS ==> multiset(r)[t] == 0)
  {
    var kept := Retained(available, name, BLACKLIST_DELEGATE_TOOLS);
    RetainedCount(available, name, BLACKLIST_DELEGATE_TOOLS, DelegateCodingAgent);
    RetainedCount(available, name, BLACKLIST_DELEGATE_TOOLS, t);
    assert multiset(kept + [DelegateCodingAgent]) == multiset(kept) + multiset{DelegateCodingAgent};
  }

  /** In the plan-and-act topology built from any configuration, the delegate tool is present exactly once. */
  lemma DelegateIsolation(config: RepoConfig, agentEnv: Option<GitAgentEnvironment>, name: Tool -> string)
    requires KnownNames(name)
    ensures multiset(DelegateTools(Retained(Assembled(config, agentEnv), name, config.disabledTools), name))[DelegateCodingAgent] == 1
  {
    BuiltinToolsLackDelegate(config, agentEnv, name);
    DelegateToolOnce(Retained(Assembled(config, agentEnv), name, config.disabledTools), name, DelegateCodingAgent);
  }
}
