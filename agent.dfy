/** `WhaleAgent.run_cycle`: one sampling round over the agent's history,
    and the persistence of that history in `oi_history.csv`. */
module MonitorCycle {
  import opened Wrappers
  import opened History
  import opened ChangeCalculator
  import opened BaselineEstimator
  import opened WhaleDetector

  /** What one cycle reports. `Observed` carries the values the source logs
      (changes, baseline, decision) and whether the advisory service was
      consulted. */
  datatype Outcome =
    | Skipped
    | Bootstrapped
    | Observed(changes: Changes, baseline: Option<real>, verdict: Verdict, advised: bool)

  /** The history after a cycle that fetched `fetched` at time `now`. */
  function NextHistory(h: seq<Sample>, fetched: Option<Reading>, now: int): (h': seq<Sample>)
    ensures fetched.None? ==> h' == h
    ensures fetched.Some? ==>
      |h'| == |h| + 1 && h'[..|h|] == h &&
      h'[|h|].btcOi == fetched.value.btcOi && h'[|h|].totalOi == fetched.value.totalOi &&
      h'[|h|].timestamp == now
  {
    match fetched
    case None => h
    case Some(r) => h + [ToSample(r, now)]
  }

  /** What a cycle over the stored history `h` reports: a skip when the fetch
      failed, a bootstrap (no detection) on an empty history, and otherwise
      the changes and the decision, both taken against `h` as it was before
      the new row, with the advisory service consulted exactly on a whale. */
  function CycleOutcome(h: seq<Sample>, fetched: Option<Reading>): (o: Outcome)
    ensures o == Skipped <==> fetched.None?
    ensures o == Bootstrapped <==> fetched.Some? && h == []
    ensures o.Observed? ==>
      fetched.Some? && h != [] &&
      CalculateChanges(h, fetched.value) == Some(o.changes) &&
      o.baseline == Baseline(h) &&
      o.verdict == DetectWhaleActivity(h, o.changes) &&
      (o.advised <==> o.verdict == Whale)
  {
    match fetched
    case None => Skipped
    case Some(r) =>
      match CalculateChanges(h, r)
      case None => Bootstrapped
      case Some(c) =>
        var v := DetectWhaleActivity(h, c);
        Observed(c, Baseline(h), v, v == Whale)
  }

  /** The baseline that decides a cycle is not the one of the history with the
      fresh row: from one stored row at 1000, a reading of 1200 is a 20% jump
      against baseline 0, and triggers; counted into the baseline it would
      raise it to 20 and the same jump would not trigger. */
  lemma BaselineExcludesFreshSample()
    ensures
      var h := [Sample(0, 1000.0, 1000.0)];
      var r := Reading(1200.0, 1200.0);
      CycleOutcome(h, Some(r)) == Observed(Changes(Some(20.0), Some(20.0)), Some(0.0), Whale, true) &&
      Baseline(NextHistory(h, Some(r), 1)) == Some(20.0) &&
      !Exceeds(20.0, 20.0)
  {
  }

  /** Rows once stored are never changed or removed by later cycles, and the
      history grows by exactly one row per successful fetch. */
  lemma {:induction false} HistoryOnlyGrows(h: seq<Sample>, fetches: seq<Option<Reading>>, times: seq<int>)
    requires |fetches| == |times|
    ensures |Replay(h, fetches, times)| == |h| + Successes(fetches)
    ensures Replay(h, fetches, times)[..|h|] == h
    decreases |fetches|
  {
    if fetches != [] {
      var n := |fetches|;
      HistoryOnlyGrows(h, fetches[..n - 1], times[..n - 1]);
      var before := Replay(h, fetches[..n - 1], times[..n - 1]);
      assert Replay(h, fetches, times) == NextHistory(before, fetches[n - 1], times[n - 1]);
      assert NextHistory(before, fetches[n - 1], times[n - 1])[..|before|] == before;
    }
  }

  /** The number of fetches that succeeded. */
  function Successes(fetches: seq<Option<Reading>>): nat
  {
    if fetches == [] then 0
    else Successes(fetches[..|fetches| - 1]) + (if fetches[|fetches| - 1].Some? then 1 else 0)
  }

  /** The history after a run of cycles, one per fetch result and timestamp. */
  function Replay(h: seq<Sample>, fetches: seq<Option<Reading>>, times: seq<int>): seq<Sample>
    requires |fetches| == |times|
    decreases |fetches|
  {
    if fetches == [] then h
    else
      var n := |fetches|;
      NextHistory(Replay(h, fetches[..n - 1], times[..n - 1]), fetches[n - 1], times[n - 1])
  }

  /** The agent: its in-memory history and the content of its history file. */
  class WhaleAgent {
    var history: seq<Sample>
    /** The rows of `oi_history.csv`; `None` while the file does not exist. */
    var stored: Option<seq<Sample>>

    /** `__init__` with `_load_history`: the history is the file's rows, or
        empty when there is no file. Loading is modelled as exact. */
    constructor (file: Option<seq<Sample>>)
      ensures stored == file
      ensures history == (if file.Some? then file.value else [])
    {
      stored := file;
      history := if file.Some? then file.value else [];
    }

    /** `_save_history`: the file now holds exactly the in-memory history. */
    method SaveHistory()
      modifies this
      ensures stored == Some(history)
      ensures history == old(history)
    {
      stored := Some(history);
    }

    /** `run_cycle`, with the fetch result and the clock reading as inputs.
        A failed fetch changes nothing and writes nothing; otherwise exactly
        one row, the fetched one, is appended and the file rewritten. */
    method RunCycle(fetched: Option<Reading>, now: int) returns (outcome: Outcome)
      modifies this
      ensures history == NextHistory(old(history), fetched, now)
      ensures stored == (if fetched.None? then old(stored) else Some(history))
      ensures outcome == CycleOutcome(old(history), fetched)
    {
      if fetched.None? {
        return Skipped;
      }
      var current := fetched.value;
      var changes := CalculateChanges(history, current);
      if changes.None? {
        history := history + [ToSample(current, now)];
        SaveHistory();
        return Bootstrapped;
      }
      var verdict := DetectWhaleActivity(history, changes.value);
      var advised := false;
      if verdict == Whale {
        advised := true;
      }
      outcome := Observed(changes.value, Baseline(history), verdict, advised);
      history := history + [ToSample(current, now)];
      SaveHistory();
    }
  }

  /** A cold start followed by a failed fetch, a bootstrap and a 20% jump. */
  method ColdStartScenario()
  {
    var agent := new WhaleAgent(None);
    var o := agent.RunCycle(None, 0);
    assert o == Skipped && agent.history == [] && agent.stored == None;
    o := agent.RunCycle(Some(Reading(1000.0, 1000.0)), 1);
    assert o == Bootstrapped && agent.history == [Sample(1, 1000.0, 1000.0)];
    o := agent.RunCycle(Some(Reading(1200.0, 1200.0)), 2);
    assert o.Observed? && o.verdict == Whale && o.advised;
    assert |agent.history| == 2 && agent.stored == Some(agent.history);
  }
}
