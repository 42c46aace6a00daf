/** Shared value types: optional values, results with an error, and the
    documents a YAML loader produces. */
module Base {

  datatype Option<T> = None | Some(value: T)

  /** The outcome of a call that may raise: its value, or the error it raised. */
  datatype Result<T, E> = Success(value: T) | Failure(error: E)

  /** A parsed YAML node. Mappings are keyed by strings; floating-point
      scalars and non-string keys are not modelled. */
  datatype Value =
    | Null
    | Bool(b: bool)
    | Int(i: int)
    | Str(s: string)
    | List(items: seq<Value>)
    | Mapping(entries: map<string, Value>)
}
