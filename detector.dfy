/** `WhaleAgent._detect_whale_activity`: the threshold rule that gates the
    advisory call. */
module WhaleDetector {
  import opened Wrappers
  import opened History
  import opened ChangeCalculator
  import opened BaselineEstimator

  /** `whale_threshold_multiplier`, fixed when the agent is created. */
  const ThresholdMultiplier: real := 1.1

  function Abs(x: real): real
  {
    if x < 0.0 then -x else x
  }

  /** `threshold = avg_change * multiplier; abs(btc_change) > threshold`. */
  predicate Exceeds(change: real, baseline: real): (fired: bool)
    ensures fired <==>
      change > baseline * ThresholdMultiplier || change < -(baseline * ThresholdMultiplier)
  {
    Abs(change) > baseline * ThresholdMultiplier
  }

  /** The outcome of one detection. `Undefined` stands for a decision the
      source takes on an infinite or NaN operand (a zero prior btc_oi). */
  datatype Verdict = Quiet | Whale | Undefined

  /** `_detect_whale_activity(changes)` over the stored history `h`. Only the
      btc change is consulted; the baseline is that of `h` itself. */
  function DetectWhaleActivity(h: seq<Sample>, changes: Changes): (v: Verdict)
    ensures v == Undefined <==> changes.btcChange.None? || !NonZeroPriors(BtcSeries(h))
    ensures v == Whale <==>
      changes.btcChange.Some? && Baseline(h).Some? &&
      Abs(changes.btcChange.value) > Baseline(h).value * ThresholdMultiplier
  {
    match (changes.btcChange, Baseline(h))
    case (Some(c), Some(b)) => if Exceeds(c, b) then Whale else Quiet
    case _ => Undefined
  }

  /** With baseline 0 a change triggers exactly when it is non-zero. */
  lemma ExceedsZeroBaseline(change: real)
    ensures Exceeds(change, 0.0) <==> change != 0.0
  {
  }

  /** With a negative baseline every change triggers, a zero one included. */
  lemma ExceedsNegativeBaseline(change: real, baseline: real)
    requires baseline < 0.0
    ensures Exceeds(change, baseline)
  {
  }

  /** A change at or within 110% of a positive baseline, in either direction,
      never triggers; one strictly beyond it always does. */
  lemma ExceedsPositiveBaseline(change: real, baseline: real)
    requires baseline > 0.0
    ensures Exceeds(change, baseline) <==> change > 1.1 * baseline || change < -1.1 * baseline
  {
  }

  /** The decision depends on the size of the change, not its direction, and a
      larger change triggers whenever a smaller one does. */
  lemma ExceedsMonotone(change: real, larger: real, baseline: real)
    requires Abs(change) <= Abs(larger)
    ensures Exceeds(-change, baseline) == Exceeds(change, baseline)
    ensures Exceeds(change, baseline) ==> Exceeds(larger, baseline)
  {
  }

  /** The total-OI change plays no part in the decision. */
  lemma DetectIgnoresTotalChange(h: seq<Sample>, btc: Option<real>, t1: Option<real>, t2: Option<real>)
    ensures DetectWhaleActivity(h, Changes(btc, t1)) == DetectWhaleActivity(h, Changes(btc, t2))
  {
  }

  /** On the first steady cycle the history holds one row, the baseline is 0,
      and any defined non-zero btc change is whale activity. */
  lemma DetectAfterOneSample(h: seq<Sample>, changes: Changes)
    requires |h| == 1 && changes.btcChange.Some?
    ensures DetectWhaleActivity(h, changes) == Whale <==> changes.btcChange.value != 0.0
    ensures DetectWhaleActivity(h, changes) == Quiet <==> changes.btcChange.value == 0.0
  {
  }

  /** Over a history whose btc_oi never moved, the same holds however long it is. */
  lemma DetectOverConstantHistory(h: seq<Sample>, c: real, changes: Changes)
    requires c != 0.0
    requires forall i :: 0 <= i < |h| ==> h[i].btcOi == c
    requires changes.btcChange.Some?
    ensures DetectWhaleActivity(h, changes) == Whale <==> changes.btcChange.value != 0.0
  {
    BaselineOfConstantHistory(h, c);
    ExceedsZeroBaseline(changes.btcChange.value);
  }
}
