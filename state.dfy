/** The shared record threaded through every stage of the workflow. */
module State {
  import opened PyValues

  /** `AgentState`. `result` holds text (an answer or an error message) once a
      stage has set it; `next` is the routing signal the last stage wrote. */
  datatype AgentState = AgentState(
    rawQuery: string,
    query: string,
    result: Option<string>,
    approved: bool,
    plotConfirm: bool,
    next: Option<string>)

  /** The state the workflow is invoked with: only `raw_query` is given, every
      other field takes its declared default. */
  function InitialState(rawQuery: string): AgentState {
    AgentState(rawQuery, "", None, false, false, None)
  }

  /** Signals written into `next`. */
  const SignalEnd := "END"
  const SignalHumanApproval := "HumanApproval"
  const SignalGraphTools := "GraphTools"
  const SignalReasoning := "Reasoning"
}
