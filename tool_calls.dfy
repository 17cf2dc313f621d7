/** Normalisation of tool-call items and dispatch to the four registered
    tools, as the reasoning loop performs them for every item of a
    tool-call round. */
module ToolCalls {
  import opened PyValues
  import opened PyStrings
  import opened Messages

  /** What a tool call gives back: a value, or an exception with its message. */
  datatype ToolOutcome = Returned(value: Value) | Raised(message: string)

  /** The registered tools as opaque collaborators over the backing store.
      `tables` is what `list_tables_tool()` answers. Each tool is taken as a
      fixed function of its argument for the length of one question. */
  datatype Tools = Tools(
    tables: seq<string>,
    describeTable: Value -> ToolOutcome,
    findSimilarTable: Value -> ToolOutcome,
    dbQuery: Value -> ToolOutcome)

  /** Python's text conversions, left opaque: `str(value)`, `str(item)` and
      `json.dumps(value)`. */
  datatype Formatter = Formatter(
    str: Value -> string,
    strItem: ToolCallItem -> string,
    dumps: Value -> string)

  const RawArgsKey := "__raw_args__"
  const UnknownToolId := "unknown_tool_id"
  const MissingId := "missing_id"
  const ErrorPrefix := "\U{26A0}\U{FE0F} Error: "
  const UnknownToolPrefix := "\U{26A0}\U{FE0F} Unknown tool: "

  /** The argument mapping a tool call is dispatched with: a mapping is used
      as it is, None gives the empty mapping, and anything else is wrapped
      as its text under `__raw_args__`. */
  function NormalizeArgs(raw: Value, str: Value -> string): map<string, Value> {
    match raw
    case VDict(entries) => entries
    case VNone => map[]
    case _ => map[RawArgsKey := VStr(str(raw))]
  }

  /** A tool-call item after normalisation: either unrecognised, or the
      canonical (name, args, id) triple with the item's embedded error
      (VNone for a mapping, which cannot carry one). */
  datatype Normalized =
    | Unrecognised
    | Call(name: Option<string>, args: map<string, Value>, id: Option<string>, error: Value)

  function Normalize(item: ToolCallItem, str: Value -> string): Normalized {
    match item
    case DictItem(name, args, id) => Call(name, NormalizeArgs(args, str), id, VNone)
    case ObjectItem(name, args, id, error) => Call(name, NormalizeArgs(args, str), id, error)
    case OtherItem(_) => Unrecognised
  }

  /** The registered tool names and the argument each one requires. */
  predicate Registered(name: string) {
    name in {"list_tables", "describe_table", "find_similar_table", "db_query_tool"}
  }

  function RequiredArgument(name: string): Option<string> {
    if name == "describe_table" then Some("table_name")
    else if name == "find_similar_table" then Some("column_hint")
    else if name == "db_query_tool" then Some("query")
    else None
  }

  /** The message of the `ValueError` raised for a missing required argument. */
  function MissingArgument(arg: string, tool: string): string {
    "Missing '" + arg + "' argument for " + tool + " tool."
  }

  function FromOutcome(o: ToolOutcome): ToolContent {
    match o
    case Returned(v) => Serialized(v)
    case Raised(e) => Failed(e)
  }

  /** Looks up `arg` (absent and None are the same) and runs `tool` on it. */
  function RunWith(args: map<string, Value>, arg: string, name: string, tool: Value -> ToolOutcome): ToolContent {
    var v := Get(args, arg);
    if v.VNone? then Failed(MissingArgument(arg, name)) else FromOutcome(tool(v))
  }

  /** Runs the tool called `name`. A missing argument and an exception both
      become a failure report; an unknown name becomes an ordinary serialised
      output. It never produces the reports reserved for malformed items. */
  function Dispatch(name: string, args: map<string, Value>, tools: Tools): (c: ToolContent)
    ensures c.Failed? || c.Serialized?
  {
    if name == "list_tables" then Serialized(StrList(tools.tables))
    else if name == "describe_table" then RunWith(args, "table_name", name, tools.describeTable)
    else if name == "find_similar_table" then RunWith(args, "column_hint", name, tools.findSimilarTable)
    else if name == "db_query_tool" then RunWith(args, "query", name, tools.dbQuery)
    else Serialized(VStr(UnknownToolPrefix + name))
  }

  /** The one tool-result message the loop appends for `item`. */
  function ToolMessageFor(item: ToolCallItem, tools: Tools, fmt: Formatter): Message {
    match Normalize(item, fmt.str)
    case Unrecognised => Tool(UnknownToolId, UnknownStructure(item))
    case Call(name, args, id, error) =>
      if !Present(name) || !Present(id) then
        Tool(if Present(id) then id.value else MissingId, MissingNameOrId(item))
      else if Truthy(error) then
        Tool(id.value, InvalidCall(error))
      else
        Tool(id.value, Dispatch(name.value, args, tools))
  }

  /** The tool-result messages of a round, one per item, in order. */
  function ToolMessages(items: seq<ToolCallItem>, tools: Tools, fmt: Formatter): seq<Message> {
    seq(|items|, i requires 0 <= i < |items| => ToolMessageFor(items[i], tools, fmt))
  }

  /** The text of a tool-result message. */
  function Text(c: ToolContent, fmt: Formatter): string {
    match c
    case UnknownStructure(item) => ErrorPrefix + "Unknown tool call structure: " + fmt.strItem(item)
    case MissingNameOrId(item) => ErrorPrefix + "Parsed tool call missing name or id: " + fmt.strItem(item)
    case InvalidCall(details) => ErrorPrefix + "Invalid tool call from LLM - " + fmt.str(details)
    case Failed(e) => ErrorPrefix + e
    case Serialized(v) => fmt.dumps(v)
  }

  /** An item that reaches a tool: it has a recognised shape, a non-empty name
      and id, and no embedded error. Stated on the item itself. */
  predicate Dispatchable(item: ToolCallItem) {
    !item.OtherItem? && Present(item.name) && Present(item.id) &&
    (item.ObjectItem? ==> !Truthy(item.error))
  }

  /** The call id the item's reply carries. */
  function ReplyId(item: ToolCallItem): string {
    if item.OtherItem? then UnknownToolId
    else if Present(item.id) then item.id.value
    else MissingId
  }

  /** Every item gets exactly one reply, in order, tied to the item's id; an
      item reaches a tool exactly when it is dispatchable, and then its
      reply carries the tool's output under the item's own id. */
  lemma OneReplyPerItem(items: seq<ToolCallItem>, tools: Tools, fmt: Formatter)
    ensures |ToolMessages(items, tools, fmt)| == |items|
    ensures forall i :: 0 <= i < |items| ==>
      var m := ToolMessages(items, tools, fmt)[i];
      m.Tool? && m.callId == ReplyId(items[i]) &&
      (Dispatchable(items[i]) <==> m.content.Failed? || m.content.Serialized?)
  {
    forall i | 0 <= i < |items|
      ensures var m := ToolMessages(items, tools, fmt)[i];
        m.Tool? && m.callId == ReplyId(items[i]) &&
        (Dispatchable(items[i]) <==> m.content.Failed? || m.content.Serialized?)
    {
      ReplyOf(items[i], tools, fmt);
    }
  }

  /** The reply each item gets: skipped items get the report for their
      defect (unknown shape, missing name or id, embedded error, tested in
      that order), and a dispatchable item gets the dispatch result. */
  lemma ReplyOf(item: ToolCallItem, tools: Tools, fmt: Formatter)
    ensures var m := ToolMessageFor(item, tools, fmt);
      m.Tool? && m.callId == ReplyId(item) &&
      (Dispatchable(item) <==> m.content.Failed? || m.content.Serialized?)
    ensures item.OtherItem? ==>
      ToolMessageFor(item, tools, fmt).content == UnknownStructure(item)
    ensures !item.OtherItem? && !(Present(item.name) && Present(item.id)) ==>
      ToolMessageFor(item, tools, fmt).content == MissingNameOrId(item)
    ensures item.ObjectItem? && Present(item.name) && Present(item.id) && Truthy(item.error) ==>
      Text(ToolMessageFor(item, tools, fmt).content, fmt) ==
        ErrorPrefix + "Invalid tool call from LLM - " + fmt.str(item.error)
    ensures Dispatchable(item) ==>
      ToolMessageFor(item, tools, fmt) ==
      Tool(item.id.value, Dispatch(item.name.value, NormalizeArgs(item.args, fmt.str), tools))
  {
    if Dispatchable(item) {
      var c := Dispatch(item.name.value, NormalizeArgs(item.args, fmt.str), tools);
      assert c.Failed? || c.Serialized?;
    }
  }

  /** An item that is skipped runs no tool: its reply is the same whatever
      the tools would have answered, and its text is an error report. */
  lemma SkippedItemRunsNoTool(item: ToolCallItem, tools1: Tools, tools2: Tools, fmt: Formatter)
    requires !Dispatchable(item)
    ensures ToolMessageFor(item, tools1, fmt) == ToolMessageFor(item, tools2, fmt)
    ensures StartsWith(Text(ToolMessageFor(item, tools1, fmt).content, fmt), ErrorPrefix)
  {
  }

  /** A mapping item and an attribute object without an error normalise to
      the same canonical triple, and reach the same tool with the same reply. */
  lemma ShapesAgree(name: Option<string>, args: Value, id: Option<string>, error: Value,
                    tools: Tools, fmt: Formatter)
    requires !Truthy(error)
    ensures Normalize(DictItem(name, args, id), fmt.str) == Normalize(ObjectItem(name, args, id, VNone), fmt.str)
    ensures Present(name) && Present(id) ==>
      ToolMessageFor(DictItem(name, args, id), tools, fmt) ==
      ToolMessageFor(ObjectItem(name, args, id, error), tools, fmt)
  {
  }

  /** Argument normalisation: a mapping is kept unchanged, None gives the
      empty mapping, anything else gives only the `__raw_args__` entry; so a
      required argument can only come from a mapping. */
  lemma ArgumentsFromMappingOnly(raw: Value, str: Value -> string, key: string)
    requires key != RawArgsKey
    ensures raw.VDict? ==> NormalizeArgs(raw, str) == raw.entries
    ensures raw.VNone? ==> NormalizeArgs(raw, str) == map[]
    ensures !raw.VDict? && !raw.VNone? ==> NormalizeArgs(raw, str).Keys == {RawArgsKey}
    ensures !Get(NormalizeArgs(raw, str), key).VNone? ==>
      raw.VDict? && Get(NormalizeArgs(raw, str), key) == Get(raw.entries, key)
  {
  }

  /** Dispatch by name: an unregistered name is reported as a serialised
      "Unknown tool" string; a registered tool whose required argument is
      missing or None fails with the argument's name, and never runs; with
      the argument present the tool's own outcome is reported. */
  lemma DispatchByName(name: string, args: map<string, Value>, tools: Tools)
    ensures !Registered(name) ==> Dispatch(name, args, tools) == Serialized(VStr(UnknownToolPrefix + name))
    ensures name == "list_tables" ==> Dispatch(name, args, tools) == Serialized(StrList(tools.tables))
    ensures Registered(name) && RequiredArgument(name).Some? ==>
      var arg := RequiredArgument(name).value;
      var v := Get(args, arg);
      Dispatch(name, args, tools) ==
        if v.VNone? then Failed(MissingArgument(arg, name))
        else if name == "describe_table" then FromOutcome(tools.describeTable(v))
        else if name == "find_similar_table" then FromOutcome(tools.findSimilarTable(v))
        else FromOutcome(tools.dbQuery(v))
  {
  }

  /** Failure reports are rendered with the source's warning prefix; a
      missing argument reads "⚠️ Error: Missing '<arg>' argument for <tool> tool.". */
  lemma FailureText(c: ToolContent, fmt: Formatter)
    requires !c.Serialized?
    ensures StartsWith(Text(c, fmt), ErrorPrefix)
    ensures c.Failed? ==> Text(c, fmt) == ErrorPrefix + c.exception
  {
  }
}
