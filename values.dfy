/** The semi-structured value tree that every configuration source produces,
    the library's error taxonomy, and a Result type for fallible steps. */
module Values {

  /** A JSON-like configuration value. Numbers are integers compared by
      equality only; objects map unique string keys to values. */
  datatype Value =
    | Null
    | Bool(b: bool)
    | Num(n: int)
    | Str(s: string)
    | Arr(items: seq<Value>)
    | Obj(fields: map<string, Value>)

  /** The empty object, the accumulator every load starts from. */
  const EmptyObject: Value := Obj(map[])

  /** The three kinds of failure the library reports, each with its message. */
  datatype ConfigError =
    | SourceError(message: string)
    | DeserializationError(message: string)
    | IoError(message: string)

  datatype Result<+R, +E> = Success(value: R) | Failure(error: E)
}
