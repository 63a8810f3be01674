/** Python's built-in `round(x)` on a single argument: the nearest integer,
    with an exact half going to the even neighbour ("banker's rounding").
    Readings are modelled as exact reals rather than binary floats. */
module Rounding {

  /** `n` is the integer nearest to `r`; when `r` lies exactly halfway
      between two integers, `n` is the even one. This is the reference
      definition that `RoundHalfEven` is proved against. */
  predicate IsRoundHalfEven(r: real, n: int)
  {
    var d := n as real - r;
    -0.5 <= d <= 0.5 && ((d == 0.5 || d == -0.5) ==> n % 2 == 0)
  }

  /** Rounds with `r.Floor`, sending a tie to the even neighbour. */
  function RoundHalfEven(r: real): (n: int)
    ensures IsRoundHalfEven(r, n)
  {
    var f := r.Floor;
    var frac := r - f as real;
    if frac < 0.5 then f
    else if frac > 0.5 then f + 1
    else if f % 2 == 0 then f
    else f + 1
  }

  /** The reference definition admits exactly one integer, so any integer
      meeting it is the one `RoundHalfEven` computes. */
  lemma RoundHalfEvenUnique(r: real, n: int)
    requires IsRoundHalfEven(r, n)
    ensures n == RoundHalfEven(r)
  {
  }

  /** An integer value is left as it is. */
  lemma RoundHalfEvenOfInteger(k: int)
    ensures RoundHalfEven(k as real) == k
  {
  }
}
