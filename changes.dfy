/** `WhaleAgent._calculate_changes`: the signed percentage change of the
    fresh reading against the last stored row. */
module ChangeCalculator {
  import opened Wrappers
  import opened History

  /** The percentage change from `prev` to `cur`, `(cur - prev) / prev * 100`.
      The source divides without a guard; where `prev` is zero the float
      result is infinite or NaN, which the model makes the explicit `None`. */
  function PctChange(prev: real, cur: real): (pct: Option<real>)
    ensures pct.None? <==> prev == 0.0
    ensures pct.Some? ==> prev + prev * pct.value / 100.0 == cur
  {
    if prev == 0.0 then None else Some((cur - prev) / prev * 100.0)
  }

  /** A percentage that turns `prev` into `cur` is the one PctChange gives. */
  lemma PctChangeUnique(prev: real, cur: real, p: real)
    requires prev != 0.0
    requires prev + prev * p / 100.0 == cur
    ensures PctChange(prev, cur) == Some(p)
  {
    assert prev * (p / 100.0) == cur - prev;
    assert p / 100.0 == (cur - prev) / prev;
  }

  /** With a positive prior the change has the sign of the movement. */
  lemma PctChangeSign(prev: real, cur: real)
    requires prev > 0.0
    ensures PctChange(prev, cur).Some?
    ensures PctChange(prev, cur).value > 0.0 <==> cur > prev
    ensures PctChange(prev, cur).value < 0.0 <==> cur < prev
    ensures PctChange(prev, cur).value == 0.0 <==> cur == prev
  {
  }

  /** The dictionary `{'btc_change': ..., 'total_change': ...}`; each field is
      undefined on its own when its prior value is zero. */
  datatype Changes = Changes(btcChange: Option<real>, totalChange: Option<real>)

  /** `_calculate_changes(current_oi)` against the stored history `h`:
      nothing for an empty history, otherwise both changes, each measured
      against the last stored row (applying it to that row gives back the
      current reading). */
  function CalculateChanges(h: seq<Sample>, current: Reading): (r: Option<Changes>)
    ensures r.None? <==> h == []
    ensures r.Some? ==>
      var last := h[|h| - 1];
      (r.value.btcChange.None? <==> last.btcOi == 0.0) &&
      (r.value.totalChange.None? <==> last.totalOi == 0.0) &&
      (r.value.btcChange.Some? ==>
         last.btcOi + last.btcOi * r.value.btcChange.value / 100.0 == current.btcOi) &&
      (r.value.totalChange.Some? ==>
         last.totalOi + last.totalOi * r.value.totalChange.value / 100.0 == current.totalOi)
  {
    if h == [] then None
    else
      var last := h[|h| - 1];
      Some(Changes(PctChange(last.btcOi, current.btcOi), PctChange(last.totalOi, current.totalOi)))
  }

  /** Only the last stored row matters: earlier rows never affect the changes. */
  lemma ChangesUseLastSampleOnly(h: seq<Sample>, last: Sample, current: Reading)
    ensures CalculateChanges(h + [last], current) == CalculateChanges([last], current)
  {
  }

  /** With positive prior values both changes are defined and follow the
      direction of the movement of their own column. */
  lemma ChangesSignConsistent(h: seq<Sample>, current: Reading)
    requires h != []
    requires h[|h| - 1].btcOi > 0.0 && h[|h| - 1].totalOi > 0.0
    ensures CalculateChanges(h, current).Some?
    ensures
      var c := CalculateChanges(h, current).value;
      var last := h[|h| - 1];
      c.btcChange.Some? && c.totalChange.Some? &&
      (c.btcChange.value > 0.0 <==> current.btcOi > last.btcOi) &&
      (c.btcChange.value < 0.0 <==> current.btcOi < last.btcOi) &&
      (c.btcChange.value == 0.0 <==> current.btcOi == last.btcOi) &&
      (c.totalChange.value > 0.0 <==> current.totalOi > last.totalOi) &&
      (c.totalChange.value < 0.0 <==> current.totalOi < last.totalOi) &&
      (c.totalChange.value == 0.0 <==> current.totalOi == last.totalOi)
  {
  }
}
