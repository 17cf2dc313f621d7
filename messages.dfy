/** The chat messages the reasoning loop exchanges with the completion
    service, and the shapes in which that service reports tool calls. */
module Messages {
  import opened PyValues

  /** One entry of `response.tool_calls`, in any of the shapes the loop accepts.
      - `DictItem`: a plain mapping; `name`/`id` are `.get("name")`/`.get("id")`
        (None when the key is absent or holds None) and `args` is `.get("args")`.
      - `ObjectItem`: an object exposing `name`, `args` and `id` as attributes,
        with an optional `error` attribute (VNone when it is absent).
      - `OtherItem`: anything else (neither a mapping nor an object with
        `name` and `id`). */
  datatype ToolCallItem =
    | DictItem(name: Option<string>, args: Value, id: Option<string>)
    | ObjectItem(name: Option<string>, args: Value, id: Option<string>, error: Value)
    | OtherItem(payload: Value)

  /** A reply of the completion service.
      `isAIMessage` says whether it is an assistant message at all;
      `metadata` is `response_metadata` when that attribute exists and is a
      mapping, None otherwise; `toolCalls` is `response.tool_calls or []`. */
  datatype Response = Response(
    isAIMessage: bool,
    metadata: Option<map<string, Value>>,
    content: string,
    toolCalls: seq<ToolCallItem>)

  /** `response_metadata.get('finish_reason')`, or None when there is no metadata mapping. */
  function FinishReason(r: Response): Value {
    if r.metadata.Some? then Get(r.metadata.value, "finish_reason") else VNone
  }

  /** What a tool-result message reports, before it is rendered as text. */
  datatype ToolContent =
    | UnknownStructure(item: ToolCallItem)  // the item had no recognised shape
    | MissingNameOrId(item: ToolCallItem)   // the item lacked a name or an id
    | InvalidCall(details: Value)           // the item carried an embedded error
    | Failed(exception: string)             // the tool, or its argument check, raised
    | Serialized(output: Value)             // `json.dumps` of the tool's output

  /** An entry of the reasoning loop's message history. `Human` is the single
      instruction message built from the prompt template, which embeds the
      question and the table list; the template text itself is not modelled. */
  datatype Message =
    | Human(rawQuery: string, tables: seq<string>)
    | Assistant(response: Response)
    | Tool(callId: string, content: ToolContent)
}
