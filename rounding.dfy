/** Python's `round(x, 1)` on exact reals: round half to even at the first
    decimal place. */
module Rounding {

  /** Python's `round(y)`: nearest integer, ties to the even neighbour. */
  function RoundHalfEven(y: real): (k: int)
    ensures -0.5 <= k as real - y <= 0.5
  {
    var f := y.Floor;
    var frac := y - f as real;
    if frac < 0.5 then f
    else if frac > 0.5 then f + 1
    else if f % 2 == 0 then f
    else f + 1
  }

  /** Python's `round(x, 1)`. */
  function Round1(x: real): real
  {
    RoundHalfEven(x * 10.0) as real / 10.0
  }

  /** `x` has at most one decimal place, so `round(x, 1)` leaves it alone. */
  predicate OneDecimal(x: real)
  {
    (x * 10.0).Floor as real == x * 10.0
  }

  lemma Round1Error(x: real)
    ensures -0.05 <= Round1(x) - x <= 0.05
  {
    var k := RoundHalfEven(x * 10.0);
    assert Round1(x) - x == (k as real - x * 10.0) / 10.0;
  }

  lemma Round1Exact(x: real)
    requires OneDecimal(x)
    ensures Round1(x) == x
  {
    assert RoundHalfEven(x * 10.0) == (x * 10.0).Floor;
  }

  lemma RoundHalfEvenMonotone(a: real, b: real)
    requires a <= b
    ensures RoundHalfEven(a) <= RoundHalfEven(b)
  {
  }

  lemma Round1Monotone(a: real, b: real)
    requires a <= b
    ensures Round1(a) <= Round1(b)
  {
    RoundHalfEvenMonotone(a * 10.0, b * 10.0);
  }

  /** Rounding a value inside a band whose ends have one decimal keeps it in the band. */
  lemma Round1StaysInBand(lo: real, x: real, hi: real)
    requires OneDecimal(lo) && OneDecimal(hi)
    requires lo <= x <= hi
    ensures lo <= Round1(x) <= hi
  {
    Round1Monotone(lo, x);
    Round1Monotone(x, hi);
    Round1Exact(lo);
    Round1Exact(hi);
  }

  /** `round(x, 1)` has at most one decimal place. */
  lemma Round1OneDecimal(x: real)
    ensures OneDecimal(Round1(x))
  {
    var k := RoundHalfEven(x * 10.0);
    assert Round1(x) * 10.0 == k as real;
  }

  /** `round` of a non-negative value is non-negative. */
  lemma Round1NonNegative(x: real)
    requires 0.0 <= x
    ensures 0.0 <= Round1(x)
  {
    Round1Monotone(0.0, x);
    Round1Exact(0.0);
  }

  /** `[round(x, 1) for x in s]` */
  function Round1All(s: seq<real>): (r: seq<real>)
    ensures |r| == |s|
    ensures forall i :: 0 <= i < |s| ==> r[i] == Round1(s[i]) && -0.05 <= r[i] - s[i] <= 0.05
  {
    seq(|s|, i requires 0 <= i < |s| => Round1Errors(s[i]))
  }

  /** `round(x, 1)`, with its error bound attached. */
  function Round1Errors(x: real): (y: real)
    ensures y == Round1(x) && -0.05 <= y - x <= 0.05
  {
    Round1Error(x);
    Round1(x)
  }
}
