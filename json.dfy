/** The part of a decoded JSON request body that the route handlers inspect. */
module Json {

  /** A JSON value as JavaScript sees it after `request.json()`; `Undefined`
      stands for a field that the body does not carry. Numbers are integers. */
  datatype Value =
    | Undefined
    | Null
    | Bool(b: bool)
    | Num(n: int)
    | Str(s: string)
    | Arr(items: seq<Value>)
    | Obj(members: seq<(string, Value)>)

  /** JavaScript truthiness: the test behind `if (x)` and `!x`. */
  predicate Truthy(v: Value) {
    match v
    case Undefined => false
    case Null => false
    case Bool(b) => b
    case Num(n) => n != 0
    case Str(s) => s != ""
    case Arr(_) => true
    case Obj(_) => true
  }
}
