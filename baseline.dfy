/** The baseline of `WhaleAgent._detect_whale_activity`:
    `history['btc_oi'].pct_change().mean() * 100`, with 0 for an empty
    history and for an undefined (NaN) mean. */
module BaselineEstimator {
  import opened Wrappers
  import opened History

  function Sum(xs: seq<real>): real
  {
    if xs == [] then 0.0 else Sum(xs[..|xs| - 1]) + xs[|xs| - 1]
  }

  /** No value but possibly the last is zero: every step has a defined ratio. */
  predicate NonZeroPriors(s: seq<real>)
  {
    forall i :: 0 <= i < |s| - 1 ==> s[i] != 0.0
  }

  /** `Series.pct_change()`: the ratio `s[i+1] / s[i] - 1` for every
      consecutive pair. The leading NaN of pandas is left out, since `mean()`
      skips it; a zero prior (an infinite or NaN step in float arithmetic)
      makes the whole series undefined. */
  function FractionalChanges(s: seq<real>): (r: Option<seq<real>>)
    ensures r.Some? <==> NonZeroPriors(s)
    ensures r.Some? ==> |r.value| == (if |s| < 2 then 0 else |s| - 1)
  {
    if !NonZeroPriors(s) then None
    else if |s| < 2 then Some([])
    else Some(seq(|s| - 1, i requires 0 <= i < |s| - 1 => s[i + 1] / s[i] - 1.0))
  }

  /** Each ratio of pct_change is the relative growth from row i to row i+1:
      applied to row i it gives back row i+1. */
  lemma FractionalChangesInverse(s: seq<real>, i: nat)
    requires NonZeroPriors(s) && i < |s| - 1
    ensures FractionalChanges(s).Some? && i < |FractionalChanges(s).value|
    ensures s[i] + s[i] * FractionalChanges(s).value[i] == s[i + 1]
  {
  }

  /** `Series.mean()`: undefined (NaN) when there is nothing to average. */
  function Mean(xs: seq<real>): (m: Option<real>)
    ensures m.None? <==> xs == []
    ensures m.Some? ==> m.value * (|xs| as real) == Sum(xs)
  {
    if xs == [] then None else Some(Sum(xs) / (|xs| as real))
  }

  /** `avg_change` after the NaN fallback. `None` only where the history holds
      a zero btc_oi before its last row. */
  function Baseline(h: seq<Sample>): (b: Option<real>)
    ensures |h| < 2 ==> b == Some(0.0)
    ensures b.None? <==> !NonZeroPriors(BtcSeries(h))
  {
    if h == [] then Some(0.0)
    else
      match FractionalChanges(BtcSeries(h))
      case None => None
      case Some(fs) =>
        match Mean(fs)
        case None => Some(0.0)
        case Some(m) => Some(m * 100.0)
  }

  /** The percentage steps `(s[i] - s[i-1]) / s[i-1] * 100` for i = 1 .. n-1:
      the reference definition of the terms the baseline averages. */
  ghost function PercentSteps(s: seq<real>): seq<real>
    requires NonZeroPriors(s)
  {
    if |s| < 2 then []
    else seq(|s| - 1, i requires 0 <= i < |s| - 1 => (s[i + 1] - s[i]) / s[i] * 100.0)
  }

  /** With two or more rows and no zero prior, the baseline is the arithmetic
      mean of the consecutive percentage changes of btc_oi. */
  lemma BaselineIsMeanOfPercentSteps(h: seq<Sample>)
    requires |h| >= 2
    requires NonZeroPriors(BtcSeries(h))
    ensures Baseline(h) == Some(Sum(PercentSteps(BtcSeries(h))) / ((|h| - 1) as real))
  {
    var s := BtcSeries(h);
    var fs := FractionalChanges(s).value;
    SumPercentSteps(s);
    var k := (|h| - 1) as real;
    assert Baseline(h) == Some(Sum(fs) / k * 100.0);
    ScaledQuotient(Sum(fs), k, 100.0);
  }

  /** The percentage steps add up to 100 times the pct_change ratios. */
  lemma SumPercentSteps(s: seq<real>)
    requires NonZeroPriors(s)
    ensures FractionalChanges(s).Some?
    ensures Sum(PercentSteps(s)) == 100.0 * Sum(FractionalChanges(s).value)
  {
    var fs, ps := FractionalChanges(s).value, PercentSteps(s);
    forall i | 0 <= i < |fs|
      ensures ps[i] == 100.0 * fs[i]
    {
      StepIsScaledRatio(s, i);
    }
    SumScale(fs, ps, 100.0);
  }

  /** Step i of the reference series is 100 times ratio i of pct_change. */
  lemma StepIsScaledRatio(s: seq<real>, i: nat)
    requires NonZeroPriors(s) && i < |s| - 1
    ensures FractionalChanges(s).Some?
    ensures |PercentSteps(s)| == |FractionalChanges(s).value| == |s| - 1
    ensures PercentSteps(s)[i] == 100.0 * FractionalChanges(s).value[i]
  {
    PercentOfRatio(s[i], s[i + 1], PercentSteps(s)[i], FractionalChanges(s).value[i]);
  }

  /** Summing a sequence scaled pointwise by c scales the sum by c. */
  lemma {:induction false} SumScale(xs: seq<real>, ys: seq<real>, c: real)
    requires |xs| == |ys|
    requires forall i :: 0 <= i < |xs| ==> ys[i] == c * xs[i]
    ensures Sum(ys) == c * Sum(xs)
  {
    if xs != [] {
      SumScale(xs[..|xs| - 1], ys[..|ys| - 1], c);
    }
  }

  /** A percentage step is 100 times the matching pct_change ratio. */
  lemma PercentOfRatio(prev: real, cur: real, pct: real, ratio: real)
    requires prev != 0.0
    requires pct == (cur - prev) / prev * 100.0
    requires ratio == cur / prev - 1.0
    ensures pct == 100.0 * ratio
  {
  }

  /** Scaling a quotient scales its numerator. */
  lemma ScaledQuotient(x: real, k: real, c: real)
    requires k != 0.0
    ensures x / k * c == (c * x) / k
  {
  }

  /** A history whose btc_oi never moves has baseline 0. */
  lemma BaselineOfConstantHistory(h: seq<Sample>, c: real)
    requires c != 0.0
    requires forall i :: 0 <= i < |h| ==> h[i].btcOi == c
    ensures Baseline(h) == Some(0.0)
  {
    if |h| >= 2 {
      var s := BtcSeries(h);
      var fs := FractionalChanges(s).value;
      forall i | 0 <= i < |fs|
        ensures fs[i] == 0.0
      {
        assert s[i] == c && s[i + 1] == c;
        RatioOfEqual(c, fs[i]);
      }
      SumOfZeros(fs);
      assert Mean(fs) == Some(0.0 / ((|fs|) as real));
    }
  }

  /** A sequence of zeros sums to zero. */
  lemma {:induction false} SumOfZeros(xs: seq<real>)
    requires forall i :: 0 <= i < |xs| ==> xs[i] == 0.0
    ensures Sum(xs) == 0.0
  {
    if xs != [] {
      SumOfZeros(xs[..|xs| - 1]);
    }
  }

  lemma RatioOfEqual(c: real, ratio: real)
    requires c != 0.0 && ratio == c / c - 1.0
    ensures ratio == 0.0
  {
  }
}
