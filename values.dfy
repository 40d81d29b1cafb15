/** Configuration values: the JSON-like payloads the store holds, as a tagged variant. */
module Values {

  /** A value at a configuration path: a scalar or a nested mapping of the same kind. */
  datatype Value =
    | Null
    | Bool(b: bool)
    | Int(i: int)
    | Str(s: string)
    | Map(m: map<string, Value>)

  datatype Option<+T> = None | Some(value: T)

  /** PHP truthiness of a value: null, false, 0, "", "0" and the empty mapping are falsy. */
  function Truthy(v: Value): (r: bool)
    ensures !r <==> v in {Null, Bool(false), Int(0), Str(""), Str("0"), Map(map[])}
  {
    match v
    case Null => false
    case Bool(b) => b
    case Int(i) => i != 0
    case Str(s) => s != "" && s != "0"
    case Map(m) => |m| != 0
  }
}
