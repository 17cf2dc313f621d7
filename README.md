# Question-answering orchestration of Alora, modelled in Dafny

Alora answers natural-language questions about a SQLite database. A language
model may call four schema and query tools, and the answer is then shown to a
person for approval and, optionally, plotted. This project models the
orchestration that ties those steps together:

- **The Reasoning stage** (`reasoning_node`, `Reasoning`). It makes at most
  `MAX_REASONING_ITERATIONS = 5` calls to the completion service. Each reply
  is handled in a fixed order:
  1. A `MALFORMED_FUNCTION_CALL` finish reason aborts the stage.
  2. A reply that is not an assistant message ends it with the signal
     `Reasoning`.
  3. A text answer without tool calls ends it: the signal is `END` when the
     refusal sentence occurs in the text and `HumanApproval` otherwise.
  4. Anything else is a tool round. The round appends the reply to the
     history, then one tool-result message per tool-call item, in order.
  Every tool-call item is normalised from one of its three shapes
  (`ToolCalls`). It is then skipped with an error report or dispatched by
  name, with a check for its required argument. `Reasoning.ReasoningNode` is
  the loop as the source runs it. It is proved equal to the recursive
  specification `Reasoning.Reason`. The lemmas beside them are stated about
  that specification.
- **The approval and plot-confirmation stages** (`human_approval_node`,
  `graph_tools_node`, `Approval`). Each turns a yes/no answer into a flag and
  a signal.
- **The workflow graph** (`build_graph`, `Graph`). It has four nodes, one
  conditional edge out of Reasoning keyed on `state.next`, and unconditional
  edges HumanApproval → GraphTools → END. `Graph.Invoke` runs the whole
  workflow. It follows the edges as they are wired, not the signals the nodes
  write.

The outside collaborators become inputs:
- The completion service is the sequence of replies it gives to calls 1…5.
- `list_tables` is a fixed table list. The other three tools are opaque
  functions of their argument, both in `ToolCalls.Tools`.
- Python's `str()` and `json.dumps` are opaque functions in
  `ToolCalls.Formatter`.
- The two answers typed at the prompts are strings.

Where the code and its description differ, the model follows the code:
- The refusal test is a substring test (`negative_prompt in content`), not
  equality (src/nodes.py:59).
- The `Reasoning` signal written for an unexpected reply (src/nodes.py:48) is
  not a key of the conditional edge's path map (src/graph.py:24-27). The run
  stops there with a routing fault instead of re-entering Reasoning.
- `human_approval_node` writes `Reasoning` when the answer is declined
  (src/nodes.py:153). The edge out of HumanApproval is unconditional
  (src/graph.py:29), so a declined answer still reaches the plot prompt.

## Model

| member | source | states |
|---|---|---|
| `Reasoning.Classify` | src/nodes.py:33-54 | Models the order in which a reply is tested: a MALFORMED_FUNCTION_CALL finish reason first, then a reply that is not an assistant message, then a non-empty text without tool calls. Everything else is a tool round carrying `tool_calls or []`, including an empty reply. |
| `Reasoning.Conclude` | src/nodes.py:41-63 | Models the state a deciding reply leaves. A malformed call sets the fixed error message and END. An unexpected reply keeps `result` and writes Reasoning. A text answer becomes the result, with END when the refusal sentence occurs in it and HumanApproval otherwise. |
| `Reasoning.RoundEntries` | src/nodes.py:65-142 | Models what a tool round appends: the reply itself, then one tool-result message per item, in item order. |
| `Reasoning.Reason` | src/nodes.py:19-147 | Models the whole stage from call 1. The history starts with the instruction message, which embeds the question and the table list. Its outcomes are stated by `StageDecidedAt`, `StageExhausted` and `StageCases`. |
| `ToolCalls.NormalizeArgs` | src/nodes.py:80-99 | Models the argument mapping: a mapping is used as it is, None gives the empty mapping, and any other value is wrapped as its text under `__raw_args__`. Stated by `ArgumentsFromMappingOnly`. |
| `ToolCalls.Normalize` | src/nodes.py:74-99 | Models the three accepted item shapes. A mapping and an attribute object give the (name, args, id) triple; only an object can carry an embedded error. Any other item is unrecognised. Stated by `ShapesAgree`. |
| `ToolCalls.ToolMessageFor` | src/nodes.py:100-142 | Models the one reply an item gets, with the checks in the source's order: unknown shape, then missing name or id, then embedded error, then dispatch. Stated by `ReplyOf` and `OneReplyPerItem`. |
| `ToolCalls.Text` | src/nodes.py:102-142 | Models the text of each report: the three skip reports and an exception each carry the "⚠️ Error: " prefix, and a tool output is its `json.dumps`. Stated by `FailureText` and `ReplyOf`. |
| `Messages.FinishReason` | src/nodes.py:33-35 | Models the finish reason: `response_metadata.get('finish_reason')` when the metadata is a mapping, and None otherwise. |
| `Approval.Affirmative` | src/nodes.py:151-152 | Models the yes reading `ans.strip().lower().startswith('y')`. Its meaning is stated by `AffirmativeIff`. |
| `State.InitialState` | src/schema.py:13-19 | Models the state the workflow starts from: the given `raw_query`, with every other field at its declared default. |
| `Graph.RunNode` | src/graph.py:12-15 | Models what each registered node does to the state. The END node is the identity. |
| `Graph.Invoke` | run.py:15 | Models `agent.invoke({"raw_query": q})`: a run from the entry node on the initial state. Stated by `FinishedRunsAreComplete`, `HandOffRun`, `ReasoningEnds` and `ReasoningFault`. |
| `PyStrings.Contains` | src/nodes.py:59 | Models Python's `in` on strings. Stated by `ContainsIff`. |
| `PyStrings.Strip` | src/nodes.py:151 | Models `str.strip()` as trimming the back of the front-trimmed text. Stated by `StripStartsAtFirstNonSpace`. |
| `PyStrings.Lower` | src/nodes.py:151 | Models `str.lower()` character by character. Stated by `LowerPerCharacter`. |
| `ToolCalls.ToolMessages` | src/nodes.py:67-142 | Models the replies of one round: one tool-result message per item, in item order. Stated by `OneReplyPerItem`. |
| `ToolCalls.RunWith` | src/nodes.py:120-134 | Models the lookup of a tool's required argument, where an absent key and None read the same. A missing argument raises the `ValueError` of `MissingArgument` and the tool does not run; otherwise the tool's own outcome is reported. Stated by `DispatchByName`. |
| `ToolCalls.MissingArgument` | src/nodes.py:120-134 | Models the message of the `ValueError` for a missing argument: "Missing '<arg>' argument for <tool> tool.". |
| `PyValues.StrList` | src/nodes.py:119 | Models the output of `list_tables_tool()` as a list value: one string per table name, in order. |
| `PyValues.Get` | src/nodes.py:76-78 | Models `dict.get`: an absent key reads as None, the same as a key holding None. |
| `PyValues.Truthy` | src/nodes.py:91 | Models Python truthiness, as used for the embedded `error` attribute: None, False, 0, empty text and empty containers are false. |
| `PyValues.Present` | src/nodes.py:105 | Models the truthiness test `not tool_name or not tool_id` on one name or id: it is present when it is neither None nor the empty string. |
| `PyStrings.IsSpace` | src/nodes.py:151 | Models `str.isspace` on one character, the whitespace set that `strip()` removes. Stated through `TrimStartRemovesLeadingSpace` and `TrimEndRemovesTrailingSpace`. |
| `PyStrings.StartsWith` | src/nodes.py:152 | Models `str.startswith`: the prefix of the pattern's length equals the pattern. |
| `Graph.Successors` | src/graph.py:20-30 | Models the registered edge set: Reasoning to HumanApproval and END, HumanApproval to GraphTools, GraphTools to END, and nothing out of END. Stated by `PathsAreSimple` and `CompleteRuns`. |
| `Reasoning.ReasoningNode` | src/nodes.py:19-147 | The loop makes between 1 and 5 calls. Its final state, history and call count are exactly those of the round-by-round specification `Reason`. |
| `Reasoning.AppendToolResults` | src/nodes.py:67-142 | The loop over a round's items appends exactly one tool result per item, in item order, after the existing history. |
| `Reasoning.Rounds` | src/nodes.py:25-147 | Every run of the stage makes more calls than were already made and at most 5. It always leaves `next` set to END, HumanApproval or Reasoning. |
| `Reasoning.RoundsKeeps` | src/nodes.py:25-147 | The stage only extends the history it was given, and it changes no field of the state but `result` and `next`. |
| `Reasoning.RoundsDecidedAt` | src/nodes.py:25-63 | From any point of the loop, the first reply that is not a tool round decides the outcome. The history gains exactly the tool rounds before that reply. |
| `Reasoning.RoundsExhausted` | src/nodes.py:144-147 | When every remaining reply is a tool round, all of them are recorded. The stage then ends after the fifth call with the exhaustion message and END. |
| `Reasoning.StageDecidedAt` | src/nodes.py:19-63 | From the start, with the instruction message first: if reply k is the first that ends the stage, there are k+1 calls. The state is what that reply concludes. The history is the instruction plus the k earlier tool rounds. |
| `Reasoning.StageExhausted` | src/nodes.py:144-147 | If all five replies request tools, there are 5 calls and the result is "Error: AI reached maximum thinking steps (5) without a conclusion.". The signal is END and all five rounds are in the history. |
| `Reasoning.StageCases` | src/nodes.py:25-147 | Exactly one of the two cases above holds: either all five replies are tool rounds, or some first reply decides the stage. |
| `Reasoning.MalformedCallAborts` | src/nodes.py:33-44 | A MALFORMED_FUNCTION_CALL finish reason ends the stage at that call with the fixed "invalid way" message and END. This holds even when the reply also carries tool calls or is not an assistant message. None of that reply's tool calls is recorded. |
| `Reasoning.UnexpectedShapeKeepsResult` | src/nodes.py:46-48 | A reply that is not an assistant message ends the stage with the signal Reasoning and the previous result unchanged. |
| `Reasoning.FinalTextRouting` | src/nodes.py:52-63 | A text answer becomes the result. The signal is END if and only if the refusal sentence occurs somewhere in the text, and HumanApproval if and only if it does not. |
| `Reasoning.TranscriptLength` | src/nodes.py:65-142 | Each tool round adds one assistant entry plus one entry per requested tool call, whether the call is skipped or dispatched. |
| `ToolCalls.Dispatch` | src/nodes.py:117-142 | Dispatch yields only a failure report or a serialised output. A missing argument, a tool exception or an unknown name never aborts the round. |
| `ToolCalls.DispatchByName` | src/nodes.py:117-136 | An unregistered name gives the serialised string "⚠️ Unknown tool: <name>". `list_tables` gives the table list. For the other three tools, a required argument that is absent or None gives "Missing '<arg>' argument for <tool> tool." and the tool does not run. Otherwise the tool's own outcome is reported. |
| `ToolCalls.OneReplyPerItem` | src/nodes.py:67-142 | Every item of a round gets exactly one tool-result message, in order, carrying the item's reply id. An item reaches a tool if and only if it is dispatchable: a recognised shape, a non-empty name and id, and no embedded error. |
| `ToolCalls.ReplyOf` | src/nodes.py:100-138 | Unknown shapes reply under "unknown_tool_id". Items missing a name or id reply under their id or "missing_id". A dispatchable item replies under its own id with the dispatch result for its normalised arguments. |
| `ToolCalls.SkippedItemRunsNoTool` | src/nodes.py:100-113 | A skipped item's reply does not depend on the tools at all, and its text starts with "⚠️ Error: ". |
| `ToolCalls.ShapesAgree` | src/nodes.py:74-99 | A mapping item and an attribute object with the same fields and no error normalise to the same (name, args, id) triple and get the same reply. |
| `ToolCalls.ArgumentsFromMappingOnly` | src/nodes.py:80-99 | Mapping arguments are used unchanged and None gives the empty mapping. Any other value gives only the `__raw_args__` entry, so a required argument can only come from a mapping. |
| `ToolCalls.FailureText` | src/nodes.py:102-142 | Every failure report is rendered with the "⚠️ Error: " prefix. An exception's report is that prefix followed by the exception's message. |
| `PyStrings.ContainsIff` | src/nodes.py:59 | The substring test used for the refusal check holds if and only if some window of the text equals the pattern. |
| `PyStrings.TrimStartRemovesLeadingSpace` | src/nodes.py:151 | Stripping the front keeps a suffix and removes only whitespace, exactly the leading run of it. |
| `PyStrings.TrimEndRemovesTrailingSpace` | src/nodes.py:151 | Stripping the back keeps a prefix and removes only whitespace, exactly the trailing run of it. |
| `PyStrings.LowerPerCharacter` | src/nodes.py:151 | Lower-casing keeps the length and lower-cases each character on its own. |
| `PyStrings.StripStartsAtFirstNonSpace` | src/nodes.py:151 | The stripped answer begins with the answer's first non-whitespace character. |
| `Approval.AffirmativeIff` | src/nodes.py:151-152 | `ans.strip().lower().startswith('y')` holds if and only if the first non-whitespace character of the answer is 'y' or 'Y'. |
| `Approval.HumanApprovalNode` | src/nodes.py:149-153 | The signal is GraphTools if and only if the answer approves, and Reasoning if and only if it does not. Nothing but `approved` and `next` changes. |
| `Approval.ApprovalReading` | src/nodes.py:151-152 | Approval is granted if and only if the first non-whitespace character of the answer is 'y' or 'Y'. |
| `Approval.GraphToolsNode` | src/nodes.py:155-160 | The plotting tool runs once, on the current result, exactly when the plot is confirmed. The signal is always END. Nothing but `plot_confirm` and `next` changes. |
| `Approval.PlotConfirmReading` | src/nodes.py:156-157 | The plot is confirmed if and only if the first non-whitespace character of the answer is 'y' or 'Y'. |
| `Graph.RouteFrom` | src/graph.py:21-30 | Every route follows a registered edge and strictly lowers the distance to END. Only the Reasoning edge can fault, and only the END node finishes. |
| `Graph.ReasoningRouting` | src/graph.py:21-28 | Out of Reasoning, the signal HumanApproval routes to HumanApproval and END routes to END. Every other value, None and 'Reasoning' included, is a routing fault. |
| `Graph.ApprovalEdgeIgnoresState` | src/graph.py:29 | HumanApproval routes to GraphTools whatever the state holds. |
| `Graph.PathRankDescends` | src/graph.py:21-30 | Along any path of registered edges, each step lowers the distance to END by at least one. |
| `Graph.PathsAreSimple` | src/graph.py:21-30 | The edge set is acyclic: no path repeats a node, and every path has at most 4 nodes. |
| `Graph.CompleteRuns` | src/graph.py:17-30 | A path from the entry node to the finish node is exactly Reasoning→END or Reasoning→HumanApproval→GraphTools→END. |
| `Graph.Execute` | src/graph.py:11-32 | A run from any node starts at that node. It ends at the finish node exactly when no routing fault stopped it. |
| `Graph.ExecuteFollowsEdges` | src/graph.py:21-30 | Every run, from any node and state, follows registered edges only. |
| `Graph.ReasoningEnds` | src/graph.py:15-27 | When Reasoning signals END, the run is Reasoning→END. The END node leaves the state unchanged and nothing is plotted. |
| `Graph.HandOffRun` | src/graph.py:25-30 | When Reasoning signals HumanApproval, the run goes through all four nodes, even when approval is declined. Approval and plot confirmation are the two answers' yes readings. The result is plotted exactly when the second answer is yes. |
| `Graph.RunFromReasoning` | src/graph.py:25-30 | A Reasoning stage that signals HumanApproval is followed by HumanApproval, GraphTools and END, and the run ends with the plot stage's state. |
| `Graph.ConfirmationStages` | src/nodes.py:149-160 | After both prompts the result is unchanged and the signal is END. Approval and plot confirmation are the answers' yes readings, and the result is plotted exactly when the second answer is yes. |
| `Graph.RunFromApproval` | src/graph.py:29-30 | From HumanApproval the run is always HumanApproval→GraphTools→END. |
| `Graph.RunFromGraphTools` | src/graph.py:30 | From GraphTools the run is always GraphTools→END. |
| `Graph.ReasoningFault` | src/graph.py:21-28 | A Reasoning stage whose signal is neither END nor HumanApproval, 'Reasoning' among them, stops the run after one node with that signal as the routing fault. |
| `Graph.UnexpectedReplyFaults` | src/graph.py:21-28 | An unexpected reply leads to a routing fault right after Reasoning, with no result set. |
| `Graph.FinishedRunsAreComplete` | src/graph.py:17-30 | A workflow run without a fault is exactly one of the two complete runs. |
| `Scenario.CountCustomersReasoning` | src/nodes.py:19-63 | Worked example: list_tables, then a count query, then the answer "59". This takes 3 calls and records both tool rounds under their call ids. It hands "59" to HumanApproval. |
| `Scenario.CountCustomersWorkflow` | src/graph.py:25-30 | Worked example, continued: whatever the approval answer, the run visits all four nodes and keeps "59" as the result. Answering "n" to the plot prompt plots nothing. |

## Left out

- The completion service (src/agent.py, src/config.py) is not modelled. Its replies are an input sequence indexed by call number. The model requires at least five replies; only the first five are ever read.
- The backing store and `DBWrapper` (src/config.py) are not modelled. `list_tables` is one fixed table list, and the other three tools in src/tools.py are opaque functions of their argument, each returning a value or an exception message.
- A store that changes during one question is not modelled. `db_query_tool` runs any SQL it is given (src/tools.py:17-20, src/config.py:79-88), so a CREATE, INSERT or DROP in one round can change what a later `list_tables` call (src/nodes.py:119) or query returns. A query that answers differently to the same text, such as `SELECT random()`, is not modelled either. The model gives every tool the same answer to the same argument throughout a question, and every `list_tables` call in a round the table list of the instruction message (src/nodes.py:21).
- The `find_similar_table` ranking is not modelled. It uses difflib's floating-point similarity with cutoff 0.6, and here it is just an opaque tool.
- The plotting tool (`plot_code_with_llm`, `PLOT_TOOL`) is not modelled. It generates code with the language model, executes it and sleeps. The model only records which results are handed to it.
- The prompt template text is not modelled. The instruction message records the question and the table list it embeds. Only the refusal sentence of src/prompts.py is used.
- `str()`, `str(item)` and `json.dumps` are opaque functions. A tool output that `json.dumps` rejects is not modelled. An example is the `bytes` of a BLOB column (`SELECT randomblob(4)`); src/nodes.py:140-142 would report it as a "⚠️ Error: …" failure, and the model instead always serialises the output.
- Floating-point values are not modelled. `PyValues.Value` has no float case, so the REAL columns a query may return are outside the model.
- Logging, `print`, `input()` and the command line of run.py are not modelled. The two answers are string parameters.
- Pydantic argument schemas and the `Tool` wrappers are not modelled; they are library plumbing.
- ToolCalls.Normalize: tool names and ids are modelled as optional strings. A non-string name or id, and the pydantic validation error a non-string id would raise when the ToolMessage is built, are not modelled.
- ToolCalls.Normalize: an attribute object is assumed to carry `args`. An object with `name` and `id` but no `args` attribute would raise outside the per-call `try` and end the stage; that crash is not modelled.
- Response content is modelled as text. A list-valued content, which the completion-service library allows, is not modelled.
- PyStrings.Lower: the model lower-cases ASCII letters only. No other character lower-cases to a string starting with 'y', so the yes/no reading is unaffected.
- Reasoning.ReasoningNode: exceptions outside the per-call `try` are not modelled. These come from the completion service itself, and they would propagate out of the stage.
- The state is a value passed from stage to stage. The Python object that each node mutates in place is not modelled, and neither is LangGraph's merging of the returned dictionary into it.
