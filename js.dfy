/**
 * The fragment of JavaScript's value semantics that the chat client relies on:
 * JSON-like values as they arrive from the answer service or travel as React
 * props, truthiness, the `||` operator, property reads (which throw a
 * TypeError on `null`/`undefined`), array spread, strict equality, and the two
 * ways an awaited promise can settle.
 */
module Js {

  datatype Option<+T> = None | Some(value: T)

  /** A JavaScript value. Numbers are integers here (no fractions, no NaN). */
  datatype Value =
    | Undefined
    | Null
    | Bool(b: bool)
    | Num(n: int)
    | Str(s: string)
    | Arr(items: seq<Value>)
    | Obj(fields: map<string, Value>)

  /** How an awaited promise settles: with a value, or by throwing. */
  datatype Settled = Fulfilled(value: Value) | Rejected(reason: Value)

  predicate Nullish(v: Value) {
    v.Undefined? || v.Null?
  }

  /** JavaScript's ToBoolean. */
  predicate Truthy(v: Value) {
    match v
    case Undefined => false
    case Null => false
    case Bool(b) => b
    case Num(n) => n != 0
    case Str(s) => s != ""
    case Arr(_) => true
    case Obj(_) => true
  }

  /** `a || b`: the left operand when it is truthy, otherwise the right one. */
  function Or(a: Value, b: Value): (r: Value)
    ensures r == a || r == b
    ensures Truthy(r) <==> Truthy(a) || Truthy(b)
    ensures Truthy(a) ==> r == a
  {
    if Truthy(a) then a else b
  }

  /**
   * The property read `v.key`. `None` stands for the TypeError thrown when `v`
   * is null or undefined. Objects give their own field (undefined when it is
   * absent); arrays and strings give their `length`; other keys on primitives
   * and arrays read as undefined, which is right for every key the client
   * reads (none of them names a built-in member).
   */
  function Get(v: Value, key: string): (r: Option<Value>)
    ensures r.None? <==> Nullish(v)
    ensures v.Obj? ==> r == Some(if key in v.fields then v.fields[key] else Undefined)
    ensures v.Arr? && key == "length" ==> r == Some(Num(|v.items|))
  {
    match v
    case Undefined => None
    case Null => None
    case Obj(m) => Some(if key in m then m[key] else Undefined)
    case Arr(xs) => Some(if key == "length" then Num(|xs|) else Undefined)
    case Str(s) => Some(if key == "length" then Num(|s|) else Undefined)
    case _ => Some(Undefined)
  }

  /** `v.key` where the caller already knows `v` is not null or undefined. */
  function Prop(v: Value, key: string): Value
    requires !Nullish(v)
  {
    Get(v, key).value
  }

  /**
   * The elements that `[...v]` spreads: an array's items, a string's
   * characters; `None` for a value that is not iterable (a TypeError).
   */
  function Spread(v: Value): (r: Option<seq<Value>>)
    ensures v.Arr? ==> r == Some(v.items)
    ensures v.Str? ==> r.Some? && |r.value| == |v.s|
    ensures r.Some? <==> v.Arr? || v.Str?
  {
    match v
    case Arr(xs) => Some(xs)
    case Str(s) => Some(seq(|s|, i requires 0 <= i < |s| => Str([s[i]])))
    case _ => None
  }

  predicate Primitive(v: Value) {
    !v.Arr? && !v.Obj?
  }

  /**
   * `a === b`. Primitives compare by value; arrays and objects compare by
   * reference, which a value model cannot see, so two of them are never
   * taken to be identical.
   */
  predicate StrictEquals(a: Value, b: Value) {
    Primitive(a) && Primitive(b) && a == b
  }
}
