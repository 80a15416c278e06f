/** JavaScript values and numbers, as far as the modelled code observes them. */
module Js {

  datatype Option<+T> = None | Some(value: T)

  /** A JavaScript number: a finite value or NaN. Infinities and IEEE rounding
      are not modelled; arithmetic on finite numbers is exact. */
  datatype Num = Fin(r: real) | NaN

  /** `a + b`: NaN is absorbing. */
  function Add(a: Num, b: Num): (c: Num)
    ensures c.Fin? <==> a.Fin? && b.Fin?
    ensures c.Fin? ==> c.r == a.r + b.r
  {
    if a.Fin? && b.Fin? then Fin(a.r + b.r) else NaN
  }

  /** `a - b`: NaN is absorbing. */
  function Sub(a: Num, b: Num): (c: Num)
    ensures c.Fin? <==> a.Fin? && b.Fin?
    ensures c.Fin? ==> c.r == a.r - b.r
  {
    if a.Fin? && b.Fin? then Fin(a.r - b.r) else NaN
  }

  /** `a * b`: NaN is absorbing. */
  function Mul(a: Num, b: Num): (c: Num)
    ensures c.Fin? <==> a.Fin? && b.Fin?
    ensures c.Fin? ==> c.r == a.r * b.r
  {
    if a.Fin? && b.Fin? then Fin(a.r * b.r) else NaN
  }

  /** Reading `s[i]` from an array of numbers and using it in arithmetic:
      an index outside the array yields `undefined`, which arithmetic turns
      into NaN. */
  function At(s: seq<Num>, i: int): (x: Num)
    ensures 0 <= i < |s| ==> x == s[i]
    ensures !(0 <= i < |s|) ==> x == NaN
  {
    if 0 <= i < |s| then s[i] else NaN
  }

  /** The same read on an array whose elements are known to be finite. */
  function AtReal(s: seq<real>, i: int): (x: Num)
    ensures x.Fin? <==> 0 <= i < |s|
    ensures x.Fin? ==> x.r == s[i]
  {
    if 0 <= i < |s| then Fin(s[i]) else NaN
  }

  /** A JavaScript value, distinguished as `typeof` and `instanceof Array` see it. */
  datatype Value =
    | Number(num: Num)
    | Str(s: string)
    | Bool(b: bool)
    | Null
    | Undefined
    | Array(elems: seq<Value>)
    | Object

  /** The JavaScript array holding exactly the numbers `s`. */
  function NumberArray(s: seq<Num>): (v: Value)
    ensures v.Array? && |v.elems| == |s|
    ensures forall k :: 0 <= k < |s| ==> v.elems[k] == Number(s[k])
  {
    Array(seq(|s|, k requires 0 <= k < |s| => Number(s[k])))
  }
}
