/** JSON values as Flask hands them to the request handlers, with Python's
    truthiness and `float()` conversion. */
module Json {
  import opened Common

  datatype Value =
    | Null
    | Bool(b: bool)
    | Num(n: real)
    | Str(s: string)
    | Arr(items: seq<Value>)
    | Obj(fields: map<string, Value>)

  /** A decoded JSON object (a Python dict). */
  type Object = map<string, Value>

  /** Python's `bool(v)`. */
  predicate Truthy(v: Value)
  {
    match v
    case Null => false
    case Bool(b) => b
    case Num(n) => n != 0.0
    case Str(s) => s != []
    case Arr(items) => items != []
    case Obj(fields) => fields != map[]
  }

  /** Python's `float(v)`; `None` stands for the exception it raises.
      Strings convert when they are plain decimal digits. */
  function Float(v: Value): Option<real>
  {
    match v
    case Num(n) => Some(n)
    case Bool(b) => Some(if b then 1.0 else 0.0)
    case Str(s) => if IsDigits(s) then Some(ParseNat(s) as real) else None
    case _ => None
  }
}
