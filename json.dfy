/** The values `response.json()` produces, and the two Python operations the client
    applies to them: truthiness and `dict.get` with a default. Python's `None` is `Null`. */
module Json {

  datatype Value =
    | Null
    | Bool(b: bool)
    | Int(n: int)
    | Str(s: string)
    | Array(items: seq<Value>)
    | Object(fields: map<string, Value>)

  /** `bool(v)`: false exactly for None, False, 0, "", [] and {}. */
  predicate Truthy(v: Value) {
    match v
    case Null => false
    case Bool(b) => b
    case Int(n) => n != 0
    case Str(s) => s != ""
    case Array(xs) => xs != []
    case Object(m) => m != map[]
  }

  /** `d.get(key, default)`. */
  function Get(d: map<string, Value>, key: string, default: Value): Value {
    if key in d then d[key] else default
  }
}
