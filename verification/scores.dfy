/** Score arithmetic shared by every evaluation chain: the 0..10 scale,
    clamping, score coercion and averages. */
module Scores {
  import opened Wrappers
  import opened Values

  const MinScore: real := 0.0
  const MaxScore: real := 10.0

  predicate InRange(x: real) { MinScore <= x <= MaxScore }

  /** `max(lo, min(hi, x))` */
  function Clamp(x: real, lo: real, hi: real): (r: real)
    requires lo <= hi
    ensures lo <= r <= hi
    ensures lo <= x <= hi ==> r == x
    ensures x < lo ==> r == lo
    ensures x > hi ==> r == hi
  {
    if x < lo then lo else if x > hi then hi else x
  }

  /** `float(v)` clamped to the score scale; a value `float` rejects gives
      `fallback` instead (0.0 in the base chain, 5.0 in the scorers). */
  function ToScore(v: Value, fallback: real): (r: real)
    requires InRange(fallback)
    ensures InRange(r)
    ensures ToFloat(v).None? ==> r == fallback
    ensures ToFloat(v).Some? && InRange(ToFloat(v).value) ==> r == ToFloat(v).value
    ensures ToFloat(v).Some? && ToFloat(v).value > MaxScore ==> r == MaxScore
    ensures ToFloat(v).Some? && ToFloat(v).value < MinScore ==> r == MinScore
  {
    match ToFloat(v)
    case Some(x) => Clamp(x, MinScore, MaxScore)
    case None => fallback
  }

  /** The neutral score every scorer falls back to. */
  const NeutralScore: real := 5.0

  function Sum(xs: seq<real>): real {
    if |xs| == 0 then 0.0 else Sum(xs[..|xs| - 1]) + xs[|xs| - 1]
  }

  function Mean(xs: seq<real>): real
    requires |xs| > 0
  {
    Sum(xs) / (|xs| as real)
  }

  lemma {:induction false} SumBetween(xs: seq<real>, lo: real, hi: real)
    requires forall i :: 0 <= i < |xs| ==> lo <= xs[i] <= hi
    ensures lo * |xs| as real <= Sum(xs) <= hi * |xs| as real
  {
    if |xs| > 0 {
      SumBetween(xs[..|xs| - 1], lo, hi);
    }
  }

  /** The mean of values inside an interval stays inside it. */
  lemma MeanBetween(xs: seq<real>, lo: real, hi: real)
    requires |xs| > 0
    requires forall i :: 0 <= i < |xs| ==> lo <= xs[i] <= hi
    ensures lo <= Mean(xs) <= hi
  {
    SumBetween(xs, lo, hi);
    var n := |xs| as real;
    assert lo * n / n == lo;
    assert hi * n / n == hi;
  }

  /** Averaging copies of one value gives that value back. */
  lemma MeanOfCopies(xs: seq<real>, x: real)
    requires |xs| > 0
    requires forall i :: 0 <= i < |xs| ==> xs[i] == x
    ensures Mean(xs) == x
  {
    SumBetween(xs, x, x);
  }

  lemma {:induction false} SumAppend(xs: seq<real>, ys: seq<real>)
    ensures Sum(xs + ys) == Sum(xs) + Sum(ys)
    decreases |ys|
  {
    if |ys| > 0 {
      assert (xs + ys)[..|xs + ys| - 1] == xs + ys[..|ys| - 1];
      SumAppend(xs, ys[..|ys| - 1]);
    } else {
      assert xs + ys == xs;
    }
  }
}
