/**
 * Python's `round` on a float: to the nearest integer, ties to the even one.
 * Values are exact reals here.
 */
module Rounding {

  /** `n` is a nearest integer to `x`, and the even one when `x` lies halfway. */
  predicate IsRoundHalfEven(x: real, n: int) {
    && -0.5 <= x - n as real <= 0.5
    && (x - n as real == 0.5 || x - n as real == -0.5 ==> n % 2 == 0)
  }

  function RoundHalfEven(x: real): (n: int)
    ensures IsRoundHalfEven(x, n)
  {
    var f := x.Floor;
    var d := x - f as real;
    if d < 0.5 then f
    else if d > 0.5 then f + 1
    else if f % 2 == 0 then f
    else f + 1
  }

  /** At most one integer rounds `x` this way, so RoundHalfEven is the rule itself. */
  lemma {:induction false} RoundHalfEvenUnique(x: real, n: int)
    requires IsRoundHalfEven(x, n)
    ensures n == RoundHalfEven(x)
  {
  }

  /** An integral value is left unchanged. */
  lemma RoundIntegral(k: int)
    ensures RoundHalfEven(k as real) == k
  {
  }

  /** Halfway values go to the even neighbour, in both directions; others to the nearest. */
  lemma RoundingExamples()
    ensures RoundHalfEven(82.6) == 83
    ensures RoundHalfEven(2.5) == 2 && RoundHalfEven(3.5) == 4
    ensures RoundHalfEven(-2.5) == -2 && RoundHalfEven(-0.5) == 0
  {
  }
}
