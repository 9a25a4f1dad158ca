/**
 * The few pieces of JavaScript value semantics the editor's code relies on:
 * property access that yields `undefined` for a missing property,
 * truthiness, and the `a || b` fallback.
 */
module JsValues {
  import opened Wrappers
  import opened Json

  /** `o[k]` on a plain object; None is `undefined`. */
  function Get(o: map<string, Value>, k: string): (r: Option<Value>)
    ensures r.Some? <==> k in o
    ensures k in o ==> r.value == o[k]
  {
    if k in o then Some(o[k]) else None
  }

  /** `v.k` on a decoded JSON value: only objects have the properties used here. */
  function Prop(v: Value, k: string): (r: Option<Value>)
    ensures r.Some? <==> v.Obj? && k in v.fields
    ensures r.Some? ==> r.value == v.fields[k]
  {
    if v.Obj? then Get(v.fields, k) else None
  }

  /** JavaScript truthiness of a JSON value (`undefined` is handled by `IsTruthy`). */
  predicate Truthy(v: Value)
  {
    match v
    case Null => false
    case Bool(b) => b
    case Str(s) => s != ""
    case Float(f) => f != 0.0
    case Int(i) => i != 0
    case Arr(_) => true
    case Obj(_) => true
  }

  predicate IsTruthy(p: Option<Value>)
  {
    p.Some? && Truthy(p.value)
  }

  /** `p || fallback`. */
  function Or(p: Option<Value>, fallback: Value): (r: Value)
    ensures IsTruthy(p) ==> r == p.value
    ensures !IsTruthy(p) ==> r == fallback
  {
    if IsTruthy(p) then p.value else fallback
  }

  /** `p && typeof p === 'object'`: a truthy object or array. */
  predicate IsObjectLike(p: Option<Value>)
  {
    p.Some? && (p.value.Obj? || p.value.Arr?)
  }

  /** `typeof p === 'number'`. */
  predicate IsNumberProp(p: Option<Value>)
  {
    p.Some? && IsNumber(p.value)
  }

  /** `p && typeof p === 'string'`: a non-empty string. */
  predicate IsNonEmptyString(p: Option<Value>)
  {
    p.Some? && p.value.Str? && p.value.s != ""
  }
}
