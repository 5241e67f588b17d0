/**
 * The part of JavaScript's value semantics that the FunnelEnvy adapter relies
 * on: the values it receives from the host and the vendor, truthiness (`!!v`),
 * strict comparison with a string literal, and property access `base.key`,
 * which throws a TypeError when `base` is `undefined` or `null`.
 */
module JsValues {
  import opened Wrappers

  /** A JavaScript value as the adapter observes it (functions and symbols are not modelled). */
  datatype Value =
    | Undefined
    | Null
    | Bool(b: bool)
    | Num(n: real)
    | Str(s: string)
    | Arr(items: seq<Value>)
    | Obj(fields: map<string, Value>)

  /** `v == null` in JavaScript's loose sense: the two values whose properties cannot be read. */
  predicate Nullish(v: Value) {
    v.Undefined? || v.Null?
  }

  /** `!!v`. `NaN` is not modelled, so the only falsy number is zero. */
  predicate Truthy(v: Value) {
    match v
    case Undefined => false
    case Null => false
    case Bool(b) => b
    case Num(n) => n != 0.0
    case Str(s) => s != ""
    case Arr(_) => true
    case Obj(_) => true
  }

  /**
   * `base.key`: `None` when the read throws a TypeError, otherwise the value
   * read, `undefined` for a property the object does not have. Properties
   * inherited from the built-in prototypes are not modelled; none of the keys
   * the adapter reads is one of them.
   */
  function Get(base: Value, key: string): (r: Option<Value>)
    ensures r.None? <==> Nullish(base)
  {
    match base
    case Undefined => None
    case Null => None
    case Obj(m) => if key in m then Some(m[key]) else Some(Undefined)
    case _ => Some(Undefined)
  }

  /**
   * `base.k1.k2...kn`, read left to right: `None` when some intermediate
   * value is nullish, so that the next read throws.
   */
  function At(base: Value, path: seq<string>): Option<Value>
    decreases |path|
  {
    if path == [] then Some(base)
    else
      match Get(base, path[0])
      case None => None
      case Some(v) => At(v, path[1..])
  }
}
