/** The arithmetic mean behind the filter's output: `sum(buffer) / len(buffer)`,
    with Python's `sum` folding from the left, over exact reals. */
module MovingAverage {
  import opened Rounding

  /** Left-to-right sum, the order in which Python's `sum` adds. */
  function Sum(s: seq<real>): real
  {
    if s == [] then 0.0 else Sum(s[..|s| - 1]) + s[|s| - 1]
  }

  function Mean(s: seq<real>): real
    requires |s| > 0
  {
    Sum(s) / (|s| as real)
  }

  /** Every element lies in [lo, hi]. */
  predicate AllWithin(s: seq<real>, lo: real, hi: real)
  {
    forall i :: 0 <= i < |s| ==> lo <= s[i] <= hi
  }

  /** Adding a reading at the back adds its value to the sum. */
  lemma SumSnoc(s: seq<real>, x: real)
    ensures Sum(s + [x]) == Sum(s) + x
  {
  }

  /** A sum of n elements from [lo, hi] lies in [n * lo, n * hi]. */
  lemma {:induction false} SumWithin(s: seq<real>, lo: real, hi: real)
    requires AllWithin(s, lo, hi)
    ensures lo * (|s| as real) <= Sum(s) <= hi * (|s| as real)
  {
    if s != [] {
      SumWithin(s[..|s| - 1], lo, hi);
    }
  }

  /** The mean of readings from [lo, hi] lies in [lo, hi]: averaging never
      produces a value outside the range of the window. */
  lemma MeanWithin(s: seq<real>, lo: real, hi: real)
    requires |s| > 0 && AllWithin(s, lo, hi)
    ensures lo <= Mean(s) <= hi
  {
    SumWithin(s, lo, hi);
    var n := |s| as real;
    assert Mean(s) * n == Sum(s);
  }

  /** The rounded mean of readings from [lo, hi] lies within half a unit of
      that range. */
  lemma RoundedMeanWithin(s: seq<real>, lo: real, hi: real)
    requires |s| > 0 && AllWithin(s, lo, hi)
    ensures lo - 0.5 <= RoundHalfEven(Mean(s)) as real <= hi + 0.5
  {
    MeanWithin(s, lo, hi);
  }

  /** A window holding one integer value throughout is reported as exactly
      that value: a steady signal passes through the filter unchanged. */
  lemma RoundedMeanOfConstant(s: seq<real>, k: int)
    requires |s| > 0
    requires forall i :: 0 <= i < |s| ==> s[i] == k as real
    ensures RoundHalfEven(Mean(s)) == k
  {
    MeanWithin(s, k as real, k as real);
    RoundHalfEvenOfInteger(k);
  }
}
