/** The workflow as wired by `build_graph`: four nodes, one conditional edge
    out of Reasoning keyed on `state.next`, and unconditional edges
    HumanApproval -> GraphTools -> END. */
module Graph {
  import opened PyValues
  import opened Messages
  import opened State
  import opened ToolCalls
  import opened Reasoning
  import opened Approval

  datatype Node = ReasoningStage | HumanApprovalStage | GraphToolsStage | EndStage

  const Entry: Node := ReasoningStage
  const Finish: Node := EndStage

  /** The path map of the conditional edge out of Reasoning. */
  const ReasoningBranches: map<string, Node> :=
    map[SignalHumanApproval := HumanApprovalStage, SignalEnd := EndStage]

  /** Where control goes after a node has run. A `Fault` is a signal the
      conditional edge has no entry for (None included): the run stops there. */
  datatype Route = Goto(target: Node) | Finished | Fault(signal: Option<string>)

  /** The edges as they are registered, independent of any state. */
  function Successors(n: Node): set<Node> {
    match n
    case ReasoningStage => {HumanApprovalStage, EndStage}
    case HumanApprovalStage => {GraphToolsStage}
    case GraphToolsStage => {EndStage}
    case EndStage => {}
  }

  /** Distance to the finish node; every edge lowers it. */
  function Rank(n: Node): nat {
    match n
    case ReasoningStage => 3
    case HumanApprovalStage => 2
    case GraphToolsStage => 1
    case EndStage => 0
  }

  /** The edge taken out of `n` once it has produced `s`. Only the edge out
      of Reasoning reads the state, and only its `next` field. */
  function RouteFrom(n: Node, s: AgentState): (r: Route)
    ensures r.Goto? ==> r.target in Successors(n) && Rank(r.target) < Rank(n)
    ensures r.Fault? ==> n == ReasoningStage
    ensures r.Finished? <==> n == Finish
  {
    match n
    case ReasoningStage =>
      if s.next.Some? && s.next.value in ReasoningBranches then Goto(ReasoningBranches[s.next.value])
      else Fault(s.next)
    case HumanApprovalStage => Goto(GraphToolsStage)
    case GraphToolsStage => Goto(EndStage)
    case EndStage => Finished
  }

  /** The conditional edge: HumanApproval and END are the only signals it
      follows; every other value of `next`, 'Reasoning' and None included,
      is a fault. */
  lemma ReasoningRouting(s: AgentState)
    ensures RouteFrom(ReasoningStage, s) == Goto(HumanApprovalStage) <==> s.next == Some(SignalHumanApproval)
    ensures RouteFrom(ReasoningStage, s) == Goto(EndStage) <==> s.next == Some(SignalEnd)
    ensures RouteFrom(ReasoningStage, s).Fault? <==> s.next != Some(SignalHumanApproval) && s.next != Some(SignalEnd)
    ensures s.next == Some(SignalReasoning) ==> RouteFrom(ReasoningStage, s) == Fault(Some(SignalReasoning))
  {
  }

  /** HumanApproval goes on to GraphTools whatever `approved` and `next` say. */
  lemma ApprovalEdgeIgnoresState(s1: AgentState, s2: AgentState)
    ensures RouteFrom(HumanApprovalStage, s1) == RouteFrom(HumanApprovalStage, s2) == Goto(GraphToolsStage)
  {
  }

  /** A sequence of nodes that follows the registered edges. */
  ghost predicate IsPath(p: seq<Node>) {
    forall i :: 0 <= i < |p| - 1 ==> p[i + 1] in Successors(p[i])
  }

  lemma {:induction false} PathRankDescends(p: seq<Node>, i: nat, j: nat)
    requires IsPath(p) && i <= j < |p|
    ensures Rank(p[j]) + (j - i) <= Rank(p[i])
    decreases j - i
  {
    if i < j {
      PathRankDescends(p, i, j - 1);
      assert p[j] in Successors(p[j - 1]);
    }
  }

  /** The edge set is acyclic: a path never repeats a node, so it visits at
      most the four nodes there are. */
  lemma PathsAreSimple(p: seq<Node>)
    requires IsPath(p)
    ensures |p| <= 4
    ensures forall i, j :: 0 <= i < j < |p| ==> p[i] != p[j]
  {
    if |p| > 4 {
      PathRankDescends(p, 0, 4);
    }
    forall i, j | 0 <= i < j < |p|
      ensures p[i] != p[j]
    {
      PathRankDescends(p, i, j);
    }
  }

  /** The only complete runs, from the entry to the finish node, are
      Reasoning -> END and Reasoning -> HumanApproval -> GraphTools -> END. */
  lemma CompleteRuns(p: seq<Node>)
    ensures (IsPath(p) && |p| > 0 && p[0] == Entry && p[|p| - 1] == Finish) <==>
      (p == [ReasoningStage, EndStage] ||
       p == [ReasoningStage, HumanApprovalStage, GraphToolsStage, EndStage])
  {
    if IsPath(p) && |p| > 0 && p[0] == Entry && p[|p| - 1] == Finish {
      PathRankDescends(p, 0, |p| - 1);
      assert |p| >= 2 && p[1] in Successors(ReasoningStage);
      if p[1] == EndStage {
        PathRankDescends(p, 1, |p| - 1);
      } else {
        assert |p| >= 3 && p[2] == GraphToolsStage;
        assert |p| >= 4 && p[3] == EndStage;
        PathRankDescends(p, 3, |p| - 1);
      }
    }
  }

  /** The outside inputs of one run: the completion service's replies, the
      tools, the text conversions, and the two answers typed at the prompts. */
  datatype Env = Env(
    responses: seq<Response>,
    tools: Tools,
    fmt: Formatter,
    approvalAnswer: string,
    plotAnswer: string)

  /** The state a node leaves and the inputs it handed to the plotting tool. */
  datatype Step = Step(state: AgentState, plotted: seq<Option<string>>)

  /** What each node does to the state; the END node returns it unchanged. */
  function RunNode(n: Node, s: AgentState, env: Env): Step
    requires MaxReasoningIterations <= |env.responses|
  {
    match n
    case ReasoningStage => Step(Reason(s, env.responses, env.tools, env.fmt).state, [])
    case HumanApprovalStage => Step(HumanApprovalNode(s, env.approvalAnswer), [])
    case GraphToolsStage =>
      var g := GraphToolsNode(s, env.plotAnswer);
      Step(g.state, g.plotted)
    case EndStage => Step(s, [])
  }

  /** A run: the nodes visited, the final state, every plotting request, and
      the unmapped signal that stopped it, if any. */
  datatype Run = Run(trace: seq<Node>, state: AgentState, plotted: seq<Option<string>>, fault: Option<Option<string>>)

  /** Runs the workflow from node `n`, following the routes until the
      finish node has run or a fault stops it. */
  function Execute(n: Node, s: AgentState, env: Env): (r: Run)
    requires MaxReasoningIterations <= |env.responses|
    ensures r.trace != [] && r.trace[0] == n
    ensures r.fault == None <==> r.trace[|r.trace| - 1] == Finish
    decreases Rank(n)
  {
    var step := RunNode(n, s, env);
    match RouteFrom(n, step.state)
    case Finished => Run([n], step.state, step.plotted, None)
    case Fault(signal) => Run([n], step.state, step.plotted, Some(signal))
    case Goto(m) =>
      var rest := Execute(m, step.state, env);
      Run([n] + rest.trace, rest.state, step.plotted + rest.plotted, rest.fault)
  }

  /** Every run follows the registered edges. */
  lemma {:induction false} ExecuteFollowsEdges(n: Node, s: AgentState, env: Env)
    requires MaxReasoningIterations <= |env.responses|
    ensures IsPath(Execute(n, s, env).trace)
    decreases Rank(n)
  {
    var step := RunNode(n, s, env);
    var route := RouteFrom(n, step.state);
    if route.Goto? {
      var rest := Execute(route.target, step.state, env);
      ExecuteFollowsEdges(route.target, step.state, env);
      var p := [n] + rest.trace;
      assert Execute(n, s, env).trace == p;
      forall i | 0 <= i < |p| - 1
        ensures p[i + 1] in Successors(p[i])
      {
        if i > 0 {
          assert p[i] == rest.trace[i - 1] && p[i + 1] == rest.trace[i];
        }
      }
    }
  }

  /** `agent.invoke({"raw_query": q})` on the compiled graph. */
  function Invoke(rawQuery: string, env: Env): Run
    requires MaxReasoningIterations <= |env.responses|
  {
    Execute(Entry, InitialState(rawQuery), env)
  }

  /** A Reasoning stage whose signal is neither END nor HumanApproval (in
      practice 'Reasoning') stops the run after one node, with that signal
      as the fault. */
  lemma ReasoningFault(rawQuery: string, env: Env)
    requires MaxReasoningIterations <= |env.responses|
    ensures var e := Reason(InitialState(rawQuery), env.responses, env.tools, env.fmt);
      e.state.next != Some(SignalEnd) && e.state.next != Some(SignalHumanApproval) ==>
        Invoke(rawQuery, env) == Run([ReasoningStage], e.state, [], Some(e.state.next))
  {
  }

  /** END straight after Reasoning: the run finishes with the Reasoning
      stage's state, and nothing is plotted. */
  lemma ReasoningEnds(rawQuery: string, env: Env)
    requires MaxReasoningIterations <= |env.responses|
    ensures var e := Reason(InitialState(rawQuery), env.responses, env.tools, env.fmt);
      e.state.next == Some(SignalEnd) ==>
        Invoke(rawQuery, env) == Run([ReasoningStage, EndStage], e.state, [], None)
  {
    var e := Reason(InitialState(rawQuery), env.responses, env.tools, env.fmt);
    if e.state.next == Some(SignalEnd) {
      assert Execute(EndStage, e.state, env) == Run([EndStage], e.state, [], None);
    }
  }

  /** A hand-off goes through both prompts and reaches the plotting step even
      when the answer is declined: approval and plot confirmation are the
      answers' yes/no readings, and the result is plotted exactly when the
      second answer is yes. */
  lemma HandOffRun(rawQuery: string, env: Env)
    requires MaxReasoningIterations <= |env.responses|
    ensures var e := Reason(InitialState(rawQuery), env.responses, env.tools, env.fmt);
      var r := Invoke(rawQuery, env);
      e.state.next == Some(SignalHumanApproval) ==>
        r.trace == [ReasoningStage, HumanApprovalStage, GraphToolsStage, EndStage] && r.fault == None &&
        r.state.result == e.state.result && r.state.next == Some(SignalEnd) &&
        (r.state.approved <==> Affirmative(env.approvalAnswer)) &&
        (r.state.plotConfirm <==> Affirmative(env.plotAnswer)) &&
        r.plotted == (if Affirmative(env.plotAnswer) then [e.state.result] else [])
  {
    var e := Reason(InitialState(rawQuery), env.responses, env.tools, env.fmt);
    if e.state.next == Some(SignalHumanApproval) {
      RunFromReasoning(InitialState(rawQuery), env);
      ConfirmationStages(e.state, env.approvalAnswer, env.plotAnswer);
    }
  }

  /** What the two confirmation stages leave, read off the two answers. */
  lemma ConfirmationStages(s: AgentState, approval: string, plot: string)
    ensures var g := GraphToolsNode(HumanApprovalNode(s, approval), plot);
      g.state.result == s.result && g.state.next == Some(SignalEnd) &&
      (g.state.approved <==> Affirmative(approval)) &&
      (g.state.plotConfirm <==> Affirmative(plot)) &&
      g.plotted == (if Affirmative(plot) then [s.result] else [])
  {
    var a := HumanApprovalNode(s, approval);
    assert a.approved == Affirmative(approval) && a.result == s.result;
    var g := GraphToolsNode(a, plot);
    assert g.state.plotConfirm == Affirmative(plot);
  }

  /** A Reasoning stage that hands off is followed by both confirmation
      stages and END, whatever the first answer. */
  lemma RunFromReasoning(s: AgentState, env: Env)
    requires MaxReasoningIterations <= |env.responses|
    ensures var e := Reason(s, env.responses, env.tools, env.fmt);
      var g := GraphToolsNode(HumanApprovalNode(e.state, env.approvalAnswer), env.plotAnswer);
      e.state.next == Some(SignalHumanApproval) ==>
        Execute(ReasoningStage, s, env) ==
          Run([ReasoningStage, HumanApprovalStage, GraphToolsStage, EndStage], g.state, g.plotted, None)
  {
    var e := Reason(s, env.responses, env.tools, env.fmt);
    if e.state.next == Some(SignalHumanApproval) {
      assert RunNode(ReasoningStage, s, env) == Step(e.state, []);
      assert RouteFrom(ReasoningStage, e.state) == Goto(HumanApprovalStage);
      RunFromApproval(e.state, env);
      var g := GraphToolsNode(HumanApprovalNode(e.state, env.approvalAnswer), env.plotAnswer);
      assert [ReasoningStage] + [HumanApprovalStage, GraphToolsStage, EndStage]
          == [ReasoningStage, HumanApprovalStage, GraphToolsStage, EndStage];
      assert [] + g.plotted == g.plotted;
    }
  }

  /** From GraphTools the run always ends at END, with the plot step's state. */
  lemma RunFromGraphTools(s: AgentState, env: Env)
    requires MaxReasoningIterations <= |env.responses|
    ensures var g := GraphToolsNode(s, env.plotAnswer);
      Execute(GraphToolsStage, s, env) == Run([GraphToolsStage, EndStage], g.state, g.plotted, None)
  {
    var g := GraphToolsNode(s, env.plotAnswer);
    assert RunNode(GraphToolsStage, s, env) == Step(g.state, g.plotted);
    assert RouteFrom(GraphToolsStage, g.state) == Goto(EndStage);
    assert Execute(EndStage, g.state, env) == Run([EndStage], g.state, [], None);
    assert [GraphToolsStage] + [EndStage] == [GraphToolsStage, EndStage];
    assert g.plotted + [] == g.plotted;
  }

  /** From HumanApproval the run always passes through GraphTools to END. */
  lemma RunFromApproval(s: AgentState, env: Env)
    requires MaxReasoningIterations <= |env.responses|
    ensures var a := HumanApprovalNode(s, env.approvalAnswer);
      var g := GraphToolsNode(a, env.plotAnswer);
      Execute(HumanApprovalStage, s, env) ==
        Run([HumanApprovalStage, GraphToolsStage, EndStage], g.state, g.plotted, None)
  {
    var a := HumanApprovalNode(s, env.approvalAnswer);
    var g := GraphToolsNode(a, env.plotAnswer);
    assert RunNode(HumanApprovalStage, s, env) == Step(a, []);
    assert RouteFrom(HumanApprovalStage, a) == Goto(GraphToolsStage);
    RunFromGraphTools(a, env);
    assert [HumanApprovalStage] + [GraphToolsStage, EndStage] == [HumanApprovalStage, GraphToolsStage, EndStage];
    assert [] + g.plotted == g.plotted;
  }

  /** A reply that is not an assistant message makes the Reasoning stage
      signal 'Reasoning', which the conditional edge does not map: the run
      stops right after Reasoning instead of re-entering it. */
  lemma UnexpectedReplyFaults(rawQuery: string, env: Env, k: nat)
    requires MaxReasoningIterations <= |env.responses|
    requires DecidedAt(env.responses, k) && Classify(env.responses[k]) == UnexpectedShape
    ensures Invoke(rawQuery, env).trace == [ReasoningStage]
    ensures Invoke(rawQuery, env).fault == Some(Some(SignalReasoning))
    ensures Invoke(rawQuery, env).state.result == None
  {
    StageDecidedAt(InitialState(rawQuery), env.responses, env.tools, env.fmt, k);
    ReasoningFault(rawQuery, env);
  }

  /** A run that does not fault is one of the two complete runs. */
  lemma FinishedRunsAreComplete(rawQuery: string, env: Env)
    requires MaxReasoningIterations <= |env.responses|
    ensures var r := Invoke(rawQuery, env);
      r.fault == None <==>
        (r.trace == [ReasoningStage, EndStage] ||
         r.trace == [ReasoningStage, HumanApprovalStage, GraphToolsStage, EndStage])
  {
    var r := Invoke(rawQuery, env);
    ExecuteFollowsEdges(Entry, InitialState(rawQuery), env);
    CompleteRuns(r.trace);
  }
}
