/** The JSON values an extractor may place in the `extracted` object of its
    reply, and how Python's truthiness reads them. */
module Json {

  /** A JSON scalar as `json.loads` returns it (floats, arrays and nested
      objects are not modelled). */
  datatype Value = Null | Bool(b: bool) | Num(n: int) | Str(s: string)

  /** A decoded JSON object, e.g. the `extracted` mapping or `form_data`. */
  type Object = map<string, Value>

  /** Python's `bool(v)`: `None`, `False`, `0` and `""` are falsy. */
  predicate Truthy(v: Value) {
    match v
    case Null => false
    case Bool(b) => b
    case Num(n) => n != 0
    case Str(s) => s != ""
  }
}
