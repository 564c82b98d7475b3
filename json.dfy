/**
 * The JSON-like values the SDK hands to its schemas and receives from the
 * API, with Python's truthiness, and the tri-state entry of a request body.
 */
module Json {

  /** A decoded JSON value (the Python objects `json` produces). Floats are
      modelled as exact reals. */
  datatype Value =
    | Null
    | Bool(b: bool)
    | Int(i: int)
    | Num(r: real)
    | Str(s: string)
    | Arr(items: seq<Value>)
    | Obj(fields: map<string, Value>)

  /** Python's `bool(v)`: None, False, zero, and empty containers are falsy. */
  predicate Truthy(v: Value) {
    match v
    case Null => false
    case Bool(b) => b
    case Int(i) => i != 0
    case Num(r) => r != 0.0
    case Str(s) => s != ""
    case Arr(xs) => xs != []
    case Obj(m) => m != map[]
  }

  /** An entry of a body dict: the `UNDEFINED` sentinel (leave unchanged) or
      a real value, `Null` included (clear the field). */
  datatype Field = Unset | Present(value: Value)
}
