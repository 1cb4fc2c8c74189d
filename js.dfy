/**
 * JavaScript values as the backup tool meets them: responses of the budget
 * API and of the cloud SDKs, token records read back from JSON, callbacks.
 * Numbers are integers (milliseconds, counts); NaN and fractions are not
 * modelled.
 */
module Js {

  datatype Value =
    | Undefined
    | Null
    | Bool(b: bool)
    | Num(n: int)
    | Str(s: string)
    | Obj(fields: map<string, Value>)
    | Fn

  /** JavaScript truthiness: what `if (v)`, `!v` and `v || w` test. */
  predicate Truthy(v: Value) {
    match v
    case Undefined => false
    case Null => false
    case Bool(b) => b
    case Num(n) => n != 0
    case Str(s) => s != ""
    case Obj(_) => true
    case Fn => true
  }

  /** `null` or `undefined`: reading a property of either throws a TypeError. */
  predicate Nullish(v: Value) {
    v.Undefined? || v.Null?
  }

  /** `v?.key`: a missing property, and any property of a primitive, of null
      or of undefined, reads as undefined. */
  function Get(v: Value, key: string): Value {
    if v.Obj? && key in v.fields then v.fields[key] else Undefined
  }

  /** `v || w` */
  function Or(v: Value, w: Value): Value {
    if Truthy(v) then v else w
  }

  /** `o[key] = x` on an object. */
  function Put(o: Value, key: string, x: Value): (r: Value)
    requires o.Obj?
    ensures r.Obj? && Get(r, key) == x
    ensures forall k :: k != key ==> Get(r, k) == Get(o, k)
  {
    Obj(o.fields[key := x])
  }
}
