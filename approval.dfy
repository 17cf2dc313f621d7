/** The two confirmation stages: human approval of the answer, and the
    offer to plot it. Each turns a yes/no answer into a flag and a signal. */
module Approval {
  import opened PyValues
  import opened PyStrings
  import opened State

  /** `ans.strip().lower().startswith('y')`. */
  predicate Affirmative(answer: string) {
    StartsWith(Lower(Strip(answer)), "y")
  }

  /** The same test read off the raw answer: after any leading whitespace,
      the first character is 'y' or 'Y'. */
  ghost predicate YesAt(answer: string, k: int) {
    0 <= k < |answer| && (answer[k] == 'y' || answer[k] == 'Y') &&
    forall i :: 0 <= i < k ==> IsSpace(answer[i])
  }

  lemma AffirmativeIff(answer: string)
    ensures Affirmative(answer) <==> exists k :: YesAt(answer, k)
  {
    if Affirmative(answer) {
      var t := TrimStart(answer);
      TrimStartRemovesLeadingSpace(answer);
      var k := |answer| - |t|;
      var r := TrimEnd(t);
      TrimEndRemovesTrailingSpace(t);
      LowerPerCharacter(r);
      assert r != [] && LowerChar(r[0]) == 'y';
      assert t != [] && r[0] == t[0] && t[0] == answer[k];
      assert YesAt(answer, k);
    }
    if k :| YesAt(answer, k) {
      StripStartsAtFirstNonSpace(answer, k);
      LowerPerCharacter(Strip(answer));
    }
  }

  /** `human_approval_node`: the signal it writes is GraphTools when the
      answer approves and Reasoning otherwise. Nothing else in the state changes. */
  function HumanApprovalNode(state: AgentState, answer: string): (r: AgentState)
    ensures r.next == Some(SignalGraphTools) <==> r.approved
    ensures r.next == Some(SignalReasoning) <==> !r.approved
    ensures r == state.(approved := r.approved, next := r.next)
  {
    var approved := Affirmative(answer);
    state.(approved := approved, next := Some(if approved then SignalGraphTools else SignalReasoning))
  }

  /** What `graph_tools_node` leaves behind: the new state and the inputs it
      handed to the plotting tool, in order. */
  datatype GraphToolsExit = GraphToolsExit(state: AgentState, plotted: seq<Option<string>>)

  /** `graph_tools_node`: the plotting tool runs once, on the current result,
      exactly when the plot is confirmed; the signal is always END. */
  function GraphToolsNode(state: AgentState, answer: string): (r: GraphToolsExit)
    ensures r.plotted == if r.state.plotConfirm then [state.result] else []
    ensures r.state.next == Some(SignalEnd)
    ensures r.state == state.(plotConfirm := r.state.plotConfirm, next := r.state.next)
  {
    var confirm := Affirmative(answer);
    GraphToolsExit(state.(plotConfirm := confirm, next := Some(SignalEnd)),
                   if confirm then [state.result] else [])
  }

  /** Approval is granted exactly when the first non-whitespace character of
      the answer is 'y' or 'Y'. */
  lemma ApprovalReading(state: AgentState, answer: string)
    ensures HumanApprovalNode(state, answer).approved <==> exists k :: YesAt(answer, k)
  {
    AffirmativeIff(answer);
  }

  /** The plot is confirmed exactly when the first non-whitespace character of
      the answer is 'y' or 'Y'. */
  lemma PlotConfirmReading(state: AgentState, answer: string)
    ensures GraphToolsNode(state, answer).state.plotConfirm <==> exists k :: YesAt(answer, k)
  {
    AffirmativeIff(answer);
  }
}
