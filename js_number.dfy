/**
 * JavaScript numbers restricted to what prices and amounts can become here:
 * integers, and NaN, which is what `0 / 0` yields and what every arithmetic
 * operation with a NaN operand yields.
 */
module JsNumber {

  datatype Number = Finite(v: int) | NaN

  /** JavaScript `a + b` on numbers. */
  function Plus(a: Number, b: Number): Number
  {
    if a.Finite? && b.Finite? then Finite(a.v + b.v) else NaN
  }

  /** JavaScript `a * b` on numbers. */
  function Times(a: Number, b: Number): Number
  {
    if a.Finite? && b.Finite? then Finite(a.v * b.v) else NaN
  }

  /**
   * JavaScript `a / b`, for the operands that occur here: an exact quotient,
   * or `0 / 0`, which is NaN. (A nonzero number over zero, an infinity, and a
   * fractional quotient never arise in the model.)
   */
  function Quotient(a: Number, b: Number): Number
    requires a.Finite? && b.Finite? && b.v == 0 ==> a.v == 0
    requires a.Finite? && b.Finite? && b.v != 0 ==> a.v % b.v == 0
  {
    if a.Finite? && b.Finite? && b.v != 0 then Finite(a.v / b.v) else NaN
  }

  /** Multiplying by a nonzero integer and dividing by it again is exact. */
  lemma MulDivCancel(u: int, a: int)
    requires a != 0
    ensures (u * a) % a == 0 && (u * a) / a == u
  {
    var q, r := (u * a) / a, (u * a) % a;
    assert a * q + r == u * a;
    var d := u - q;
    assert a * d == r by { assert a * d == a * u - a * q; }
    QuotientUnique(a, d, r);
  }

  /** The only multiple of `a` in `[0, |a|)` is zero. */
  lemma QuotientUnique(a: int, d: int, r: int)
    requires a != 0 && a * d == r && 0 <= r < (if a < 0 then -a else a)
    ensures d == 0 && r == 0
  {
    var m, e := if a < 0 then -a else a, if a < 0 then -d else d;
    assert m * e == r;
    ProductMagnitude(m, e);
  }

  /** A positive number times a nonzero integer is at least that number in magnitude. */
  lemma ProductMagnitude(m: int, e: int)
    requires m > 0
    ensures e >= 1 ==> m * e >= m
    ensures e <= -1 ==> m * e <= -m
  {
    if e >= 1 {
      assert m * e == m * (e - 1) + m;
    } else if e <= -1 {
      assert m * e == m * (e + 1) - m;
    }
  }
}
