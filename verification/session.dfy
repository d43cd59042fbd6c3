/**
 * The live session (`RunningSession`): its swappable active agent, its replaceable cancel token,
 * the loop that applies control messages, and the teardown of its MCP toolboxes.
 */
module Sessions {
  import opened Results
  import opened ToolSet
  import opened Mcp

  /** A handle to a running agent; copies are cheap and all drive the same agent. */
  datatype Agent = Agent(id: nat)

  /** The tool executor the session's agents run commands through. */
  datatype Executor = Executor(id: nat)

  /** A message that code such as a tool sends to a live session. */
  datatype SessionMessage = SwapAgent(agent: Agent)

  /** The active agent after the session handles one message. */
  function Apply(agent: Agent, message: SessionMessage): Agent {
    match message
    case SwapAgent(next) => next
  }

  /** The active agent after the session handles `messages` one at a time, in receive order. */
  function ApplyAll(agent: Agent, messages: seq<SessionMessage>): Agent
    decreases messages
  {
    if messages == [] then agent else ApplyAll(Apply(agent, messages[0]), messages[1..])
  }

  /** Handling two batches one after the other is handling them as one batch. */
  lemma {:induction false} ApplyAllConcat(agent: Agent, first: seq<SessionMessage>, second: seq<SessionMessage>)
    ensures ApplyAll(agent, first + second) == ApplyAll(ApplyAll(agent, first), second)
    decreases first
  {
    if first == [] {
      assert first + second == second;
    } else {
      assert (first + second)[1..] == first[1..] + second;
      ApplyAllConcat(Apply(agent, first[0]), first[1..], second);
    }
  }

  /** After the messages are drained the active agent is the last one sent, or unchanged if none was sent. */
  lemma {:induction false} ApplyAllLastSent(agent: Agent, messages: seq<SessionMessage>)
    ensures ApplyAll(agent, messages) == if messages == [] then agent else messages[|messages| - 1].agent
    decreases messages
  {
    if messages != [] {
      ApplyAllLastSent(Apply(agent, messages[0]), messages[1..]);
    }
  }

  /** A cancellation signal for one run; the agents observe it through their copies, and the session replaces it between runs. */
  class CancellationToken {
    var isCancelled: bool

    constructor ()
      ensures !isCancelled
    {
      isCancelled := false;
    }
  }

  /** One attempt to cancel an MCP toolbox during teardown, and whether it succeeded. */
  datatype CancelAttempt = CancelAttempt(toolbox: McpToolbox, succeeded: bool)

  class RunningSession {
    var activeAgent: Agent
    var cancelToken: CancellationToken
    const executor: Executor
    const gitEnvironment: GitAgentEnvironment
    const mcpToolboxes: seq<McpToolbox>

    /** The session as startup assembles it: the finished agent and a fresh, uncancelled token. */
    constructor (agent: Agent, executor: Executor, gitEnvironment: GitAgentEnvironment, mcpToolboxes: seq<McpToolbox>)
      ensures activeAgent == agent
      ensures this.executor == executor && this.gitEnvironment == gitEnvironment && this.mcpToolboxes == mcpToolboxes
      ensures fresh(cancelToken) && !cancelToken.isCancelled
    {
      activeAgent := agent;
      this.executor := executor;
      this.gitEnvironment := gitEnvironment;
      this.mcpToolboxes := mcpToolboxes;
      cancelToken := new CancellationToken();
    }

    /** A copy of the active agent handle. */
    function ActiveAgent(): Agent
      reads this
    {
      activeAgent
    }

    /** A copy of the current cancel token; copies share the token's state. */
    function CancelToken(): CancellationToken
      reads this
    {
      cancelToken
    }

    /** Replaces the active agent; nothing else changes. */
    method SwapAgent(agent: Agent)
      modifies this`activeAgent
      ensures ActiveAgent() == agent
      ensures CancelToken() == old(CancelToken())
    {
      activeAgent := agent;
    }

    /** Replaces the cancel token by a fresh, uncancelled one; the old token is left as it was. */
    method ResetCancelToken()
      modifies this`cancelToken
      ensures fresh(CancelToken()) && !CancelToken().isCancelled
      ensures unchanged(old(CancelToken()))
      ensures ActiveAgent() == old(ActiveAgent())
    {
      cancelToken := new CancellationToken();
    }

    /** Resets the cancel token, then asks the active agent to stop; returns the agent the stop went to. */
    method Stop() returns (stopped: Agent)
      modifies this`cancelToken
      ensures fresh(CancelToken()) && !CancelToken().isCancelled
      ensures ActiveAgent() == old(ActiveAgent())
      ensures stopped == old(ActiveAgent())
    {
      ResetCancelToken();
      stopped := ActiveAgent();
    }

    /**
     * Teardown: tries to cancel every toolbox exactly once, in list order; a failed cancel is
     * only recorded and the remaining toolboxes are still tried. `cancel` is the outcome of each attempt.
     */
    method Drop(cancel: McpToolbox -> bool) returns (attempts: seq<CancelAttempt>)
      ensures |attempts| == |mcpToolboxes|
      ensures forall i :: 0 <= i < |attempts| ==> attempts[i] == CancelAttempt(mcpToolboxes[i], cancel(mcpToolboxes[i]))
    {
      attempts := [];
      var i := 0;
      while i < |mcpToolboxes|
        invariant 0 <= i <= |mcpToolboxes|
        invariant |attempts| == i
        invariant forall j :: 0 <= j < i ==> attempts[j] == CancelAttempt(mcpToolboxes[j], cancel(mcpToolboxes[j]))
      {
        var mcp := mcpToolboxes[i];
        var ok := cancel(mcp);
        attempts := attempts + [CancelAttempt(mcp, ok)];
        i := i + 1;
      }
    }
  }

  /** Applies the received messages to the session one at a time, in receive order. */
  method RunningMessageHandler(session: RunningSession, received: seq<SessionMessage>)
    modifies session`activeAgent
    ensures session.ActiveAgent() == ApplyAll(old(session.ActiveAgent()), received)
    ensures session.CancelToken() == old(session.CancelToken())
  {
    var i := 0;
    while i < |received|
      invariant 0 <= i <= |received|
      invariant session.ActiveAgent() == ApplyAll(old(session.ActiveAgent()), received[..i])
      invariant session.CancelToken() == old(session.CancelToken())
    {
      match received[i] {
        case SwapAgent(agent) =>
          session.SwapAgent(agent);
      }
      assert received[..i + 1] == received[..i] + [received[i]];
      ApplyAllConcat(old(session.ActiveAgent()), received[..i], [received[i]]);
      i := i + 1;
    }
    assert received[..i] == received;
  }

  const CONTEXT_HEADER := "Additional information:\n\n"

  /** The initial context handed to the agent: the retrieved text under a fixed header; a failed retrieval fails. */
  function GenerateInitialContext(retrieved: Result<string>): (r: Result<string>)
    ensures r.Err? <==> retrieved.Err?
    ensures r.Err? ==> r.error == retrieved.error
    ensures r.Ok? ==> |r.value| == |CONTEXT_HEADER| + |retrieved.value|
    ensures r.Ok? ==> r.value[..|CONTEXT_HEADER|] == CONTEXT_HEADER && r.value[|CONTEXT_HEADER|..] == retrieved.value
  {
    match retrieved
    case Err(e) => Err(e)
    case Ok(text) => Ok(CONTEXT_HEADER + text)
  }
}
