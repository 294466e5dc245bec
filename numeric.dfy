/**
 * Python's numeric conversions used by the layout arithmetic.
 * Percentages are exact reals here: Python float rounding is not modelled,
 * only the truncation or rounding the source applies on purpose.
 */
module Numeric {

  /** `int(r)` on a Python float: truncation toward zero. */
  function Trunc(r: real): (n: int)
    ensures 0.0 <= r ==> n as real <= r < n as real + 1.0
    ensures r <= 0.0 ==> n as real - 1.0 < r <= n as real
  {
    if r >= 0.0 then r.Floor else -((-r).Floor)
  }

  /** `round(r)`: nearest integer, ties to the even neighbour. */
  function RoundHalfEven(r: real): (n: int)
    ensures n as real - r <= 0.5 && r - n as real <= 0.5
    ensures n as real - r == 0.5 || r - n as real == 0.5 ==> n % 2 == 0
  {
    var f := r.Floor;
    var frac := r - f as real;
    if frac < 0.5 then f
    else if frac > 0.5 then f + 1
    else if f % 2 == 0 then f else f + 1
  }

  lemma TruncOfInt(n: int)
    ensures Trunc(n as real) == n
  {
  }

  lemma RoundOfInt(n: int)
    ensures RoundHalfEven(n as real) == n
  {
  }

  /** Rounding never reverses an order, so a box with lower >= upper has a non-negative height. */
  lemma RoundMonotone(a: real, b: real)
    requires a <= b
    ensures RoundHalfEven(a) <= RoundHalfEven(b)
  {
  }
}
