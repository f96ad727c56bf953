/** The untyped values a supplier API returns (`unknown` in the service),
    with the JavaScript operations the product mapping applies to them:
    truthiness, `typeof … === 'object'`, property access and `a || b`. */
module JsValue {

  datatype Value =
    | Undefined
    | Null
    | Bool(b: bool)
    | Num(n: real)
    | Str(s: string)
    | Arr(items: seq<Value>)
    | Obj(fields: map<string, Value>)

  /** JavaScript truthiness (NaN is not modelled: a number is falsy iff 0). */
  predicate IsTruthy(v: Value) {
    match v
    case Undefined => false
    case Null => false
    case Bool(b) => b
    case Num(n) => n != 0.0
    case Str(s) => s != ""
    case Arr(_) => true
    case Obj(_) => true
  }

  /** `!!v && typeof v === 'object'`: arrays and plain objects. */
  predicate IsObject(v: Value) {
    v.Arr? || v.Obj?
  }

  /** `v[key]` for a named property: the field of an object, `undefined`
      for a field it lacks and for every other value. */
  function Get(v: Value, key: string): Value {
    if v.Obj? && key in v.fields then v.fields[key] else Undefined
  }

  /** `a || b`. */
  function Or(a: Value, b: Value): Value {
    if IsTruthy(a) then a else b
  }
}
