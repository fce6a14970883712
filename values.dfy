/**
 * Field values as they arrive from the archive platform's API and from the
 * supplementary override file, with Python's truthiness made explicit, and
 * the error values that stand for the exceptions the exporter can raise.
 */
module Values {

  /** A JSON-like value: what a field of an API response or an override entry can hold. */
  datatype Value =
    | Null
    | Bool(b: bool)
    | Int(i: int)
    | Str(s: string)
    | List(items: seq<Value>)
    | Dict(entries: map<string, Value>)

  /** Python truthiness: `None`, `False`, `0`, `""`, `[]` and `{}` are falsy, everything else is truthy. */
  predicate Truthy(v: Value) {
    match v
    case Null => false
    case Bool(b) => b
    case Int(i) => i != 0
    case Str(s) => s != ""
    case List(items) => items != []
    case Dict(entries) => entries != map[]
  }

  /** The explicit empty value a reconciler writes for a field no source supplies. */
  const Empty: Value := Str("")

  /** A Python dictionary from field names to values. */
  type Record = map<string, Value>

  datatype Option<+T> = None | Some(value: T)

  /** The exceptions of the core: a dictionary lookup of a missing key, and `GCParserError`. */
  datatype Error =
    | KeyError(key: string)
    | ParserError(message: string, errorList: seq<string>)

  datatype Result<+T> = Success(value: T) | Failure(error: Error)
}
