/** The usual optional-value wrapper. */
module Wrappers {
  datatype Option<+T> = None | Some(value: T)
}

/**
 * JavaScript numbers as the slicer uses them. A number is a real, or NaN,
 * written None. Every comparison involving NaN is false, and every arithmetic
 * operation or Math.min/Math.max call with a NaN argument yields NaN.
 * Infinities and floating-point rounding are not represented.
 */
module JsNumber {
  import opened Wrappers

  type Num = Option<real>

  /** `a >= b`: false as soon as either side is NaN. */
  predicate Ge(a: Num, b: Num) {
    a.Some? && b.Some? && a.value >= b.value
  }

  /** `a <= b`: false as soon as either side is NaN. */
  predicate Le(a: Num, b: Num) {
    a.Some? && b.Some? && a.value <= b.value
  }

  function Add(a: Num, b: Num): (r: Num)
    ensures r.Some? <==> a.Some? && b.Some?
  {
    if a.Some? && b.Some? then Some(a.value + b.value) else None
  }

  function Sub(a: Num, b: Num): (r: Num)
    ensures r.Some? <==> a.Some? && b.Some?
  {
    if a.Some? && b.Some? then Some(a.value - b.value) else None
  }

  function Mul(a: Num, b: Num): (r: Num)
    ensures r.Some? <==> a.Some? && b.Some?
  {
    if a.Some? && b.Some? then Some(a.value * b.value) else None
  }

  /** Math.abs. */
  function Abs(a: Num): (r: Num)
    ensures r.Some? <==> a.Some?
    ensures r.Some? ==> r.value >= 0.0 && (r.value == a.value || r.value == -a.value)
  {
    if a.None? then None else if a.value < 0.0 then Some(-a.value) else a
  }

  /** Math.min(a, b). */
  function Min(a: Num, b: Num): (r: Num)
    ensures r.Some? <==> a.Some? && b.Some?
    ensures r.Some? ==> r.value <= a.value && r.value <= b.value
    ensures r.Some? ==> r == a || r == b
  {
    if a.None? || b.None? then None else if a.value <= b.value then a else b
  }

  /** Math.max(a, b). */
  function Max(a: Num, b: Num): (r: Num)
    ensures r.Some? <==> a.Some? && b.Some?
    ensures r.Some? ==> r.value >= a.value && r.value >= b.value
    ensures r.Some? ==> r == a || r == b
  {
    if a.None? || b.None? then None else if a.value >= b.value then a else b
  }

  /** Every entry of vs is a number (none is NaN). */
  predicate NoNaN(vs: seq<Num>) {
    forall i :: 0 <= i < |vs| ==> vs[i].Some?
  }

  /**
   * Math.min(...vs) for a non-empty list: NaN when some entry is NaN,
   * otherwise the least entry.
   */
  function MinOf(vs: seq<Num>): (r: Num)
    requires |vs| > 0
    ensures r.Some? <==> NoNaN(vs)
    ensures r.Some? ==> r in vs
    ensures r.Some? ==> forall i :: 0 <= i < |vs| ==> r.value <= vs[i].value
  {
    if |vs| == 1 then vs[0] else Min(vs[0], MinOf(vs[1..]))
  }

  /**
   * Math.max(...vs) for a non-empty list: NaN when some entry is NaN,
   * otherwise the greatest entry.
   */
  function MaxOf(vs: seq<Num>): (r: Num)
    requires |vs| > 0
    ensures r.Some? <==> NoNaN(vs)
    ensures r.Some? ==> r in vs
    ensures r.Some? ==> forall i :: 0 <= i < |vs| ==> r.value >= vs[i].value
  {
    if |vs| == 1 then vs[0] else Max(vs[0], MaxOf(vs[1..]))
  }

  /** Over the same non-empty, NaN-free list the minimum never exceeds the maximum. */
  lemma MinOfLeMaxOf(vs: seq<Num>)
    requires |vs| > 0
    ensures NoNaN(vs) ==> MinOf(vs).value <= MaxOf(vs).value
  {
    if NoNaN(vs) {
      assert vs[0].Some?;
    }
  }
}
