/** The Reasoning stage: a bounded loop of completion-service calls in which
    every tool-call round appends the assistant reply and one tool result
    per requested call to the history, until a round ends the stage. */
module Reasoning {
  import opened PyValues
  import opened PyStrings
  import opened Messages
  import opened State
  import opened ToolCalls

  const MaxReasoningIterations: nat := 5
  const MalformedFunctionCall := "MALFORMED_FUNCTION_CALL"
  const MalformedCallMessage :=
    "Error: The AI tried to use a tool in an invalid way. Please try rephrasing your request."
  /** The exhaustion message, with MaxReasoningIterations written out. */
  const MaxStepsMessage := "Error: AI reached maximum thinking steps (5) without a conclusion."
  /** The refusal sentence the prompt asks for when a question is out of scope. */
  const NegativePrompt := "I am a SQL agent designed to answer queries about the database."

  /** How one completion-service reply is handled, tested in this order. */
  datatype Round =
    | MalformedCall                            // finish_reason says the tool call was malformed
    | UnexpectedShape                          // not an assistant message
    | FinalText(text: string)                  // no tool calls, non-empty content
    | ToolRound(items: seq<ToolCallItem>)      // everything else (possibly no items at all)

  function Classify(r: Response): Round {
    if FinishReason(r) == VStr(MalformedFunctionCall) then MalformedCall
    else if !r.isAIMessage then UnexpectedShape
    else if r.toolCalls == [] && r.content != "" then FinalText(r.content)
    else ToolRound(r.toolCalls)
  }

  /** The state left by a round that ends the stage. */
  function Conclude(state: AgentState, round: Round): AgentState
    requires !round.ToolRound?
  {
    match round
    case MalformedCall => state.(result := Some(MalformedCallMessage), next := Some(SignalEnd))
    case UnexpectedShape => state.(next := Some(SignalReasoning))
    case FinalText(text) =>
      state.(result := Some(text),
             next := Some(if Contains(text, NegativePrompt) then SignalEnd else SignalHumanApproval))
  }

  /** The history entries a tool round adds: the reply, then its tool results. */
  function RoundEntries(r: Response, tools: Tools, fmt: Formatter): seq<Message> {
    [Assistant(r)] + ToolMessages(r.toolCalls, tools, fmt)
  }

  /** What the stage ends with: the new state, the history at that moment
      and how many times the completion service was called. */
  datatype Exit = Exit(state: AgentState, history: seq<Message>, calls: nat)

  /** The stage from call number `done + 1` on, with `history` so far.
      `responses[i]` is the reply the completion service gives to call i + 1. */
  function Rounds(state: AgentState, responses: seq<Response>, tools: Tools, fmt: Formatter,
                  history: seq<Message>, done: nat): (e: Exit)
    requires done < MaxReasoningIterations <= |responses|
    ensures done < e.calls <= MaxReasoningIterations
    ensures e.state.next in {Some(SignalEnd), Some(SignalHumanApproval), Some(SignalReasoning)}
    decreases MaxReasoningIterations - done
  {
    var round := Classify(responses[done]);
    if !round.ToolRound? then
      Exit(Conclude(state, round), history, done + 1)
    else
      var h := history + RoundEntries(responses[done], tools, fmt);
      if done + 1 >= MaxReasoningIterations then
        Exit(state.(result := Some(MaxStepsMessage), next := Some(SignalEnd)), h, done + 1)
      else
        Rounds(state, responses, tools, fmt, h, done + 1)
  }

  /** The stage only appends to the history, and changes no field of the
      state but `result` and `next`. */
  lemma {:induction false} RoundsKeeps(state: AgentState, responses: seq<Response>, tools: Tools, fmt: Formatter,
                                       history: seq<Message>, done: nat)
    requires done < MaxReasoningIterations <= |responses|
    ensures var e := Rounds(state, responses, tools, fmt, history, done);
      |history| <= |e.history| && e.history[..|history|] == history &&
      e.state == state.(result := e.state.result, next := e.state.next)
    decreases MaxReasoningIterations - done
  {
    if Classify(responses[done]).ToolRound? {
      RoundsContinue(state, responses, tools, fmt, history, done);
      var h := history + RoundEntries(responses[done], tools, fmt);
      if done + 1 < MaxReasoningIterations {
        RoundsKeeps(state, responses, tools, fmt, h, done + 1);
        var e := Rounds(state, responses, tools, fmt, h, done + 1);
        assert e.history[..|history|] == h[..|history|];
      }
    } else {
      RoundsConclude(state, responses, tools, fmt, history, done);
    }
  }

  /** The whole stage: the history starts with the instruction message that
      embeds the question and the current table list. */
  function Reason(state: AgentState, responses: seq<Response>, tools: Tools, fmt: Formatter): Exit
    requires MaxReasoningIterations <= |responses|
  {
    Rounds(state, responses, tools, fmt, [Human(state.rawQuery, tools.tables)], 0)
  }

  /** The entries the tool rounds `lo` .. `hi - 1` add to the history, in order. */
  function Transcript(responses: seq<Response>, lo: nat, hi: nat, tools: Tools, fmt: Formatter): seq<Message>
    requires lo <= hi <= |responses|
    decreases hi - lo
  {
    if lo == hi then [] else RoundEntries(responses[lo], tools, fmt) + Transcript(responses, lo + 1, hi, tools, fmt)
  }

  /** Calls `lo + 1` .. `hi` all get tool-call rounds. */
  ghost predicate ToolRoundsBetween(responses: seq<Response>, lo: nat, hi: nat)
    requires hi <= |responses|
  {
    forall j :: lo <= j < hi ==> Classify(responses[j]).ToolRound?
  }

  /** Call `k + 1` is the first one whose reply ends the stage. */
  ghost predicate DecidedAt(responses: seq<Response>, k: nat)
    requires MaxReasoningIterations <= |responses|
  {
    k < MaxReasoningIterations && ToolRoundsBetween(responses, 0, k) && !Classify(responses[k]).ToolRound?
  }

  lemma {:induction false} RoundsDecidedAt(state: AgentState, responses: seq<Response>, tools: Tools,
                                           fmt: Formatter, history: seq<Message>, done: nat, k: nat)
    requires done <= k < MaxReasoningIterations <= |responses|
    requires ToolRoundsBetween(responses, done, k) && !Classify(responses[k]).ToolRound?
    ensures Rounds(state, responses, tools, fmt, history, done) ==
      Exit(Conclude(state, Classify(responses[k])), history + Transcript(responses, done, k, tools, fmt), k + 1)
    decreases k - done
  {
    if done == k {
      RoundsConclude(state, responses, tools, fmt, history, done);
    } else {
      RoundsContinue(state, responses, tools, fmt, history, done);
      var h := history + RoundEntries(responses[done], tools, fmt);
      RoundsDecidedAt(state, responses, tools, fmt, h, done + 1, k);
      TranscriptCons(responses, done, k, tools, fmt);
    }
  }

  /** Peeling the first round off a transcript, with the history in front. */
  lemma TranscriptCons(responses: seq<Response>, lo: nat, hi: nat, tools: Tools, fmt: Formatter)
    requires lo < hi <= |responses|
    ensures forall history: seq<Message> {:trigger history + Transcript(responses, lo, hi, tools, fmt)} ::
      history + RoundEntries(responses[lo], tools, fmt) + Transcript(responses, lo + 1, hi, tools, fmt)
      == history + Transcript(responses, lo, hi, tools, fmt)
  {
  }

  lemma {:induction false} RoundsExhausted(state: AgentState, responses: seq<Response>, tools: Tools,
                                           fmt: Formatter, history: seq<Message>, done: nat)
    requires done < MaxReasoningIterations <= |responses|
    requires ToolRoundsBetween(responses, done, MaxReasoningIterations)
    ensures Rounds(state, responses, tools, fmt, history, done) ==
      Exit(state.(result := Some(MaxStepsMessage), next := Some(SignalEnd)),
           history + Transcript(responses, done, MaxReasoningIterations, tools, fmt), MaxReasoningIterations)
    decreases MaxReasoningIterations - done
  {
    RoundsContinue(state, responses, tools, fmt, history, done);
    var h := history + RoundEntries(responses[done], tools, fmt);
    if done + 1 < MaxReasoningIterations {
      RoundsExhausted(state, responses, tools, fmt, h, done + 1);
      TranscriptCons(responses, done, MaxReasoningIterations, tools, fmt);
    } else {
      assert Transcript(responses, done + 1, MaxReasoningIterations, tools, fmt) == [];
    }
  }

  /** The first reply that is not a tool-call round decides the stage: the
      service is called exactly up to it, the state is what that reply
      concludes, and the history holds the instruction and the earlier tool
      rounds only (nothing of the deciding reply is processed). */
  lemma StageDecidedAt(state: AgentState, responses: seq<Response>, tools: Tools, fmt: Formatter, k: nat)
    requires MaxReasoningIterations <= |responses|
    requires DecidedAt(responses, k)
    ensures Reason(state, responses, tools, fmt) ==
      Exit(Conclude(state, Classify(responses[k])),
           [Human(state.rawQuery, tools.tables)] + Transcript(responses, 0, k, tools, fmt), k + 1)
  {
    RoundsDecidedAt(state, responses, tools, fmt, [Human(state.rawQuery, tools.tables)], 0, k);
  }

  /** When every one of the five replies asks for tools, the service is called
      five times, every round is recorded, and the stage gives up with the
      exhaustion message and routes to END. */
  lemma StageExhausted(state: AgentState, responses: seq<Response>, tools: Tools, fmt: Formatter)
    requires MaxReasoningIterations <= |responses|
    requires ToolRoundsBetween(responses, 0, MaxReasoningIterations)
    ensures Reason(state, responses, tools, fmt) ==
      Exit(state.(result := Some(MaxStepsMessage), next := Some(SignalEnd)),
           [Human(state.rawQuery, tools.tables)] + Transcript(responses, 0, MaxReasoningIterations, tools, fmt),
           MaxReasoningIterations)
  {
    RoundsExhausted(state, responses, tools, fmt, [Human(state.rawQuery, tools.tables)], 0);
  }

  /** Exactly one of the two cases above describes every run of the stage. */
  lemma StageCases(responses: seq<Response>)
    requires MaxReasoningIterations <= |responses|
    ensures ToolRoundsBetween(responses, 0, MaxReasoningIterations) <==> !exists k :: DecidedAt(responses, k)
  {
    if !ToolRoundsBetween(responses, 0, MaxReasoningIterations) {
      var k := FirstDecisive(responses, 0);
      assert DecidedAt(responses, k);
    }
  }

  /** The least index in `from ..` whose reply is not a tool round. */
  lemma {:induction false} FirstDecisive(responses: seq<Response>, from: nat) returns (k: nat)
    requires MaxReasoningIterations <= |responses| && from <= MaxReasoningIterations
    requires ToolRoundsBetween(responses, 0, from)
    requires !ToolRoundsBetween(responses, 0, MaxReasoningIterations)
    ensures DecidedAt(responses, k)
    decreases MaxReasoningIterations - from
  {
    if from < MaxReasoningIterations && !Classify(responses[from]).ToolRound? {
      k := from;
    } else {
      assert from < MaxReasoningIterations;
      k := FirstDecisive(responses, from + 1);
    }
  }

  /** A malformed-call signal aborts at once, before the reply's shape or any
      of its tool calls is looked at: result is the fixed error text, next is
      END, and the history holds only the earlier rounds. */
  lemma MalformedCallAborts(state: AgentState, responses: seq<Response>, tools: Tools, fmt: Formatter, k: nat)
    requires MaxReasoningIterations <= |responses|
    requires k < MaxReasoningIterations && ToolRoundsBetween(responses, 0, k)
    requires FinishReason(responses[k]) == VStr(MalformedFunctionCall)
    ensures var e := Reason(state, responses, tools, fmt);
      e.state.result == Some(MalformedCallMessage) && e.state.next == Some(SignalEnd) &&
      e.calls == k + 1 &&
      e.history == [Human(state.rawQuery, tools.tables)] + Transcript(responses, 0, k, tools, fmt)
  {
    StageDecidedAt(state, responses, tools, fmt, k);
  }

  /** A reply that is not an assistant message ends the stage with the signal
      'Reasoning' and the previous result left as it was. */
  lemma UnexpectedShapeKeepsResult(state: AgentState, responses: seq<Response>, tools: Tools, fmt: Formatter, k: nat)
    requires MaxReasoningIterations <= |responses|
    requires k < MaxReasoningIterations && ToolRoundsBetween(responses, 0, k)
    requires FinishReason(responses[k]) != VStr(MalformedFunctionCall) && !responses[k].isAIMessage
    ensures var e := Reason(state, responses, tools, fmt);
      e.state.result == state.result && e.state.next == Some(SignalReasoning) && e.calls == k + 1
  {
    StageDecidedAt(state, responses, tools, fmt, k);
  }

  /** A final text answer becomes the result; the stage routes to END exactly
      when the refusal sentence occurs somewhere in it, and to HumanApproval
      otherwise. */
  lemma FinalTextRouting(state: AgentState, responses: seq<Response>, tools: Tools, fmt: Formatter, k: nat)
    requires MaxReasoningIterations <= |responses|
    requires DecidedAt(responses, k) && Classify(responses[k]).FinalText?
    ensures var e := Reason(state, responses, tools, fmt);
      var text := responses[k].content;
      e.state.result == Some(text) && text != "" &&
      (e.state.next == Some(SignalEnd) <==> exists i :: OccursAt(text, NegativePrompt, i)) &&
      (e.state.next == Some(SignalHumanApproval) <==> !exists i :: OccursAt(text, NegativePrompt, i))
  {
    StageDecidedAt(state, responses, tools, fmt, k);
    ContainsIff(responses[k].content, NegativePrompt);
  }

  /** Each tool round adds one reply entry and one tool result per requested
      call: the history's length counts them exactly. */
  lemma {:induction false} TranscriptLength(responses: seq<Response>, lo: nat, hi: nat, tools: Tools, fmt: Formatter)
    requires lo <= hi <= |responses|
    ensures |Transcript(responses, lo, hi, tools, fmt)| == (hi - lo) + ToolCallCount(responses, lo, hi)
    decreases hi - lo
  {
    if lo < hi {
      TranscriptLength(responses, lo + 1, hi, tools, fmt);
    }
  }

  /** The number of tool calls requested by replies `lo` .. `hi - 1`. */
  function ToolCallCount(responses: seq<Response>, lo: nat, hi: nat): nat
    requires lo <= hi <= |responses|
    decreases hi - lo
  {
    if lo == hi then 0 else |responses[lo].toolCalls| + ToolCallCount(responses, lo + 1, hi)
  }

  /** A round that is not a tool round ends the stage with what it concludes. */
  lemma RoundsConclude(state: AgentState, responses: seq<Response>, tools: Tools, fmt: Formatter,
                       history: seq<Message>, done: nat)
    requires done < MaxReasoningIterations <= |responses|
    requires !Classify(responses[done]).ToolRound?
    ensures Rounds(state, responses, tools, fmt, history, done) ==
      Exit(Conclude(state, Classify(responses[done])), history, done + 1)
  {
  }

  /** A tool round is recorded; then the stage gives up or goes on. */
  lemma RoundsContinue(state: AgentState, responses: seq<Response>, tools: Tools, fmt: Formatter,
                       history: seq<Message>, done: nat)
    requires done < MaxReasoningIterations <= |responses|
    requires Classify(responses[done]).ToolRound?
    ensures var h := history + RoundEntries(responses[done], tools, fmt);
      Rounds(state, responses, tools, fmt, history, done) ==
        if done + 1 >= MaxReasoningIterations then
          Exit(state.(result := Some(MaxStepsMessage), next := Some(SignalEnd)), h, done + 1)
        else Rounds(state, responses, tools, fmt, h, done + 1)
  {
  }

  /** `reasoning_node`, step by step as the source runs it. */
  method ReasoningNode(state: AgentState, responses: seq<Response>, tools: Tools, fmt: Formatter)
    returns (out: AgentState, history: seq<Message>, calls: nat)
    requires MaxReasoningIterations <= |responses|
    ensures Exit(out, history, calls) == Reason(state, responses, tools, fmt)
    ensures 1 <= calls <= MaxReasoningIterations
  {
    ghost var goal := Reason(state, responses, tools, fmt);
    var tables := tools.tables;
    history := [Human(state.rawQuery, tables)];
    var iterations := 0;
    while true
      invariant iterations < MaxReasoningIterations
      invariant Rounds(state, responses, tools, fmt, history, iterations) == goal
      decreases MaxReasoningIterations - iterations
    {
      var response := responses[iterations];
      ghost var done := iterations;
      iterations := iterations + 1;
      calls := iterations;

      if FinishReason(response) == VStr(MalformedFunctionCall) {
        out := state.(result := Some(MalformedCallMessage), next := Some(SignalEnd));
        RoundsConclude(state, responses, tools, fmt, history, done);
        return;
      }
      if !response.isAIMessage {
        out := state.(next := Some(SignalReasoning));
        RoundsConclude(state, responses, tools, fmt, history, done);
        return;
      }

      var toolCalls := response.toolCalls;
      if toolCalls == [] && response.content != "" {
        out := state.(result := Some(response.content));
        if Contains(response.content, NegativePrompt) {
          out := out.(next := Some(SignalEnd));
        } else {
          out := out.(next := Some(SignalHumanApproval));
        }
        RoundsConclude(state, responses, tools, fmt, history, done);
        return;
      }

      RoundsContinue(state, responses, tools, fmt, history, done);
      ghost var previous := history;
      history := history + [Assistant(response)];
      history := AppendToolResults(history, toolCalls, tools, fmt);
      assert history == previous + RoundEntries(response, tools, fmt);

      if iterations >= MaxReasoningIterations {
        out := state.(result := Some(MaxStepsMessage), next := Some(SignalEnd));
        return;
      }
    }
  }

  /** The loop over the items of a tool-call round: one tool result per item,
      in order, whatever the item holds. */
  method AppendToolResults(history: seq<Message>, items: seq<ToolCallItem>, tools: Tools, fmt: Formatter)
    returns (h: seq<Message>)
    ensures h == history + ToolMessages(items, tools, fmt)
  {
    h := history;
    for j := 0 to |items|
      invariant h == history + ToolMessages(items[..j], tools, fmt)
    {
      h := h + [ToolMessageFor(items[j], tools, fmt)];
      assert ToolMessages(items[..j + 1], tools, fmt)
          == ToolMessages(items[..j], tools, fmt) + [ToolMessageFor(items[j], tools, fmt)];
    }
    assert items[..|items|] == items;
  }
}
