/**
 * The two float-to-integer conversions the receivers rely on, over exact reals:
 * Python's `round` (round half to even) and `int(x)` on a float (truncation
 * toward zero).
 */
module Rounding {

  /** Python's `round(x)`: the nearest integer, ties going to the even neighbour. */
  function RoundHalfEven(x: real): (r: int)
    ensures x - 0.5 <= r as real <= x + 0.5
    ensures (r as real == x + 0.5 || r as real == x - 0.5) ==> r % 2 == 0
  {
    var f := x.Floor;
    var frac := x - f as real;
    if frac < 0.5 then f
    else if frac > 0.5 then f + 1
    else if f % 2 == 0 then f
    else f + 1
  }

  /** Python's `int(x)` on a float: drops the fractional part, toward zero. */
  function Trunc(x: real): (r: int)
    ensures 0.0 <= x ==> 0 <= r && r as real <= x < r as real + 1.0
    ensures x < 0.0 ==> r <= 0 && r as real - 1.0 < x <= r as real
  {
    if x >= 0.0 then x.Floor else -((-x).Floor)
  }

  /** Rounding an integral value gives that value back. */
  lemma RoundOfInteger(n: int)
    ensures RoundHalfEven(n as real) == n
  {
    var r := RoundHalfEven(n as real);
    assert n - 1 < r < n + 1;
  }

  /** Rounding is monotone. */
  lemma RoundMonotone(x: real, y: real)
    requires x <= y
    ensures RoundHalfEven(x) <= RoundHalfEven(y)
  {
    if x < y {
      assert RoundHalfEven(x) as real - RoundHalfEven(y) as real < 1.0;
    }
  }

  /**
   * Two values at most an EVEN integer K apart round to integers at most K apart:
   * the extra unit that the +-1/2 error bounds would allow needs both values to be
   * ties broken in opposite directions, which the even rule forbids.
   */
  lemma RoundSpread(a: real, b: real, k: nat)
    requires a <= b <= a + k as real
    requires k % 2 == 0
    ensures 0 <= RoundHalfEven(b) - RoundHalfEven(a) <= k
  {
    RoundMonotone(a, b);
  }
}
