/** JSON values as `encoding/json` decodes them into a Go `any`. */
module Json {

  /** A decoded JSON value. `Null` is Go's nil: a JSON `null` and a missing
      field both read as nil through a `map[string]any` lookup. Numbers are
      whole numbers here (Go decodes them as float64). */
  datatype Value =
    | Null
    | Bool(b: bool)
    | Number(n: int)
    | Str(s: string)
    | Array(items: seq<Value>)
    | Object(fields: map<string, Value>)
}
