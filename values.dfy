/**
 * The values a flag evaluation can carry.  The client stores whatever the
 * evaluation service returned, so a value is any JSON value plus the two
 * JavaScript-only values `undefined` and `NaN` that the lookup can meet.
 */
module Values {

  datatype Value =
    | Undefined
    | Null
    | Bool(b: bool)
    | Num(x: real)
    | NaN
    | Str(s: string)
    | Arr(items: seq<Value>)
    | Obj(fields: seq<(string, Value)>)

  /** JavaScript's ToBoolean: undefined, null, false, 0, NaN and "" are falsy, everything else truthy. */
  predicate Truthy(v: Value)
  {
    match v
    case Undefined => false
    case Null => false
    case Bool(b) => b
    case Num(x) => x != 0.0
    case NaN => false
    case Str(s) => s != ""
    case Arr(_) => true
    case Obj(_) => true
  }

  /** The `a || b` operator: `a` itself when it is truthy, otherwise `b`. */
  function Or(a: Value, b: Value): Value
  {
    if Truthy(a) then a else b
  }

  /** One evaluation as the service returns it: the flag's identifier and its value for the target. */
  datatype Evaluation = Evaluation(flag: string, value: Value)
}
