/** A worked example: the question "How many customers are there?" asked
    of a store whose Customer table has 59 rows. */
module Scenario {
  import opened PyValues
  import opened Messages
  import opened State
  import opened ToolCalls
  import opened Reasoning
  import opened Approval
  import opened Graph

  const Question := "How many customers are there?"
  const CountQuery := "SELECT COUNT(*) FROM Customer"
  const CountRows := VList([VList([VInt(59)])])

  /** Call 1 asks for the table list, call 2 runs the count, call 3 answers. */
  function ListTablesReply(): Response {
    Response(true, None, "", [DictItem(Some("list_tables"), VDict(map[]), Some("call-1"))])
  }

  function QueryReply(): Response {
    Response(true, None, "",
      [ObjectItem(Some("db_query_tool"), VDict(map["query" := VStr(CountQuery)]), Some("call-2"), VNone)])
  }

  function AnswerReply(): Response {
    Response(true, None, "59", [])
  }

  /** The Reasoning stage makes three calls, records both tool rounds with
      their results under the calls' own ids, and hands "59" to approval. */
  lemma CountCustomersReasoning(tools: Tools, fmt: Formatter, rest: seq<Response>)
    requires |rest| >= 2
    requires tools.dbQuery(VStr(CountQuery)) == Returned(CountRows)
    ensures var responses := [ListTablesReply(), QueryReply(), AnswerReply()] + rest;
      var e := Reason(InitialState(Question), responses, tools, fmt);
      e.calls == 3 &&
      e.state.result == Some("59") && e.state.next == Some(SignalHumanApproval) &&
      e.history == [Human(Question, tools.tables),
                    Assistant(ListTablesReply()), Tool("call-1", Serialized(StrList(tools.tables))),
                    Assistant(QueryReply()), Tool("call-2", Serialized(CountRows))]
  {
    var responses := [ListTablesReply(), QueryReply(), AnswerReply()] + rest;
    assert Classify(responses[0]).ToolRound? && Classify(responses[1]).ToolRound?;
    assert Classify(responses[2]) == FinalText("59");
    assert DecidedAt(responses, 2);
    StageDecidedAt(InitialState(Question), responses, tools, fmt, 2);
    assert Transcript(responses, 2, 2, tools, fmt) == [];
    assert ToolMessages(QueryReply().toolCalls, tools, fmt) == [Tool("call-2", Serialized(CountRows))];
    assert ToolMessages(ListTablesReply().toolCalls, tools, fmt)
        == [Tool("call-1", Serialized(StrList(tools.tables)))];
  }

  /** Approving routes on to GraphTools; so does declining, since the edge
      out of HumanApproval is unconditional. "59" is plotted exactly when the
      second answer is yes. */
  lemma CountCustomersWorkflow(tools: Tools, fmt: Formatter, rest: seq<Response>,
                               approval: string, plot: string)
    requires |rest| >= 2
    requires tools.dbQuery(VStr(CountQuery)) == Returned(CountRows)
    ensures var env := Env([ListTablesReply(), QueryReply(), AnswerReply()] + rest, tools, fmt, approval, plot);
      var r := Invoke(Question, env);
      r.trace == [ReasoningStage, HumanApprovalStage, GraphToolsStage, EndStage] &&
      r.state.result == Some("59") &&
      (r.state.approved <==> Affirmative(approval)) &&
      r.plotted == (if Affirmative(plot) then [Some("59")] else [])
  {
    var env := Env([ListTablesReply(), QueryReply(), AnswerReply()] + rest, tools, fmt, approval, plot);
    CountCustomersReasoning(tools, fmt, rest);
    HandOffRun(Question, env);
  }
}
