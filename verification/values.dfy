/**
 * The generic key-value payloads exchanged on the wire (Python `dict[str, Any]`
 * after JSON decoding), and Python's truthiness of such values.
 */
module Values {
  import opened Wrappers

  /** One JSON-like value. */
  datatype Value =
    | Null
    | Bool(b: bool)
    | Int(i: int)
    | Real(r: real)
    | Str(s: string)
    | List(items: seq<Value>)
    | Dict(entries: map<string, Value>)

  /** A string-keyed payload, such as the dict given to a decoder or produced by an encoder. */
  type Payload = map<string, Value>

  /** Python's `bool(v)`: None, False, zero and empty containers are false. */
  predicate Truthy(v: Value) {
    match v
    case Null => false
    case Bool(b) => b
    case Int(i) => i != 0
    case Real(r) => r != 0.0
    case Str(s) => s != ""
    case List(items) => items != []
    case Dict(entries) => entries != map[]
  }

  /** Encodes `str | None` the way the serializer does: None becomes null. */
  function OptionalStr(o: Option<string>): (v: Value)
    ensures Truthy(v) <==> o.Some? && o.value != ""
  {
    match o
    case None => Null
    case Some(s) => Str(s)
  }
}
