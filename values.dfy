/** Python values as the orchestration sees them: tool-call arguments,
    tool results and the optional attributes of a tool-call object. */
module PyValues {

  datatype Option<+T> = None | Some(value: T)

  /** The Python values a JSON tool result or argument mapping can hold
      (floating-point numbers are not modelled). */
  datatype Value =
    | VNone
    | VBool(b: bool)
    | VInt(i: int)
    | VStr(s: string)
    | VList(items: seq<Value>)
    | VDict(entries: map<string, Value>)

  /** Python truthiness: None, False, 0, "" and empty containers are false. */
  predicate Truthy(v: Value) {
    match v
    case VNone => false
    case VBool(b) => b
    case VInt(i) => i != 0
    case VStr(s) => s != ""
    case VList(items) => items != []
    case VDict(entries) => entries != map[]
  }

  /** `d.get(key)`: the value under `key`, or None when the key is absent.
      A key explicitly bound to None reads the same as a missing key. */
  function Get(d: map<string, Value>, key: string): Value {
    if key in d then d[key] else VNone
  }

  /** Truthiness of an `Optional[str]`: neither None nor the empty string. */
  predicate Present(s: Option<string>) {
    s.Some? && s.value != ""
  }

  /** A list of strings as a Python value (what `list_tables_tool` returns). */
  function StrList(names: seq<string>): Value {
    VList(seq(|names|, i requires 0 <= i < |names| => VStr(names[i])))
  }
}
