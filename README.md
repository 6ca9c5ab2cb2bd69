# WhaleAgent anomaly-detection core, modelled in Dafny

`WhaleAgent` (whale-ai-agent.py) samples the open interest (OI) of the
BTCUSDT perpetual every few minutes, keeps every sample in a history table
(`oi_history.csv`), and flags "whale activity" when the newest move of the
btc-denominated OI is larger than 110% of the mean percentage move over the
stored history. A flagged move is sent to an advisory service.

This project models the engine that makes that decision and keeps the
history:

- `History` (history.dfy): a row `Sample(timestamp, btcOi, totalOi)` and a
  fetched `Reading(btcOi, totalOi)`. Timestamps are integers (clock ticks).
- `ChangeCalculator` (changes.dfy): `_calculate_changes`, the signed
  percentage change of both OI columns against the last stored row.
- `BaselineEstimator` (baseline.dfy): the baseline
  `history['btc_oi'].pct_change().mean() * 100` with its fallbacks to 0, a
  recursive sum over the series, and a direct reference definition (the
  mean of `(h[i] - h[i-1]) / h[i-1] * 100`) proved equal to it.
- `WhaleDetector` (detector.dfy): the rule `abs(btc_change) > baseline * 1.1`.
- `MonitorCycle` (agent.dfy): `run_cycle` as a method of a class
  `WhaleAgent` whose fields are the in-memory history and the content of the
  history file, specified by the pure functions `NextHistory` and
  `CycleOutcome`, about which the cycle's properties are proved.

OI values are Dafny `real`s. The source divides without a guard
(whale-ai-agent.py:68-69 and inside `pct_change` at :75); where it would
divide by zero the model returns an explicit `None` (a percentage change or
a baseline that is undefined) instead of an IEEE infinity or NaN. The
pandas rule that an undefined mean becomes 0 (:76) is an explicit case:
with fewer than two stored rows the baseline is 0.

The fetch (`_get_current_oi`) is an input of type `Option<Reading>`, the
clock (`datetime.now()`) an input `now: int`, and the advisory call
(`_analyze_opportunity`) is the flag `advised` of the cycle's outcome.
Loading and saving the CSV file are exact: the constructor takes the file's
rows (or `None` when there is no file) and `SaveHistory` makes the file hold
exactly the in-memory history.

The multiplier is the fixed 1.1 of whale-ai-agent.py:23. Saving
overwrites the file. Nothing rejects a sample whose prior OI is zero; such
a prior only makes the affected change or baseline undefined.

## Model

| member | source | states |
|---|---|---|
| `ChangeCalculator.PctChange` | whale-ai-agent.py:68-69 | undefined exactly when the prior value is zero; otherwise applying the percentage to the prior gives back the current value |
| `ChangeCalculator.PctChangeUnique` | whale-ai-agent.py:68-69 | any percentage that turns the prior into the current value is the one computed, so the change is determined by the two values |
| `ChangeCalculator.PctChangeSign` | whale-ai-agent.py:68-69 | with a positive prior the change is defined and positive, negative or zero exactly as the value rose, fell or stayed |
| `ChangeCalculator.CalculateChanges` | whale-ai-agent.py:62-71 | none exactly when the history is empty; otherwise both changes, each undefined exactly when its own prior is zero and each measured against the last stored row |
| `ChangeCalculator.ChangesUseLastSampleOnly` | whale-ai-agent.py:67-69 | rows before the last one never affect the changes |
| `ChangeCalculator.ChangesSignConsistent` | whale-ai-agent.py:67-69 | with positive prior OI both changes are defined and sign-consistent with the movement of their own column |
| `BaselineEstimator.FractionalChanges` | whale-ai-agent.py:75 | `pct_change` with its leading NaN dropped: defined exactly when no btc_oi before the last is zero, and then one ratio per consecutive pair of rows |
| `BaselineEstimator.FractionalChangesInverse` | whale-ai-agent.py:75 | each `pct_change` ratio is the relative growth of its pair: applied to row i it gives back row i+1 |
| `BaselineEstimator.StepIsScaledRatio` | whale-ai-agent.py:75 | each `pct_change` ratio, times 100, is the percentage change `(s[i+1]-s[i])/s[i]*100` of the same pair of rows, and there is one per consecutive pair |
| `BaselineEstimator.Mean` | whale-ai-agent.py:75-76 | undefined (NaN) exactly for nothing to average; otherwise mean times count is the sum |
| `BaselineEstimator.Baseline` | whale-ai-agent.py:75-76 | 0 for an empty and for a one-row history; undefined exactly when a btc_oi before the last row is zero |
| `BaselineEstimator.BaselineIsMeanOfPercentSteps` | whale-ai-agent.py:75 | for two or more rows with no zero prior, the baseline is the arithmetic mean of `(h[i]-h[i-1])/h[i-1]*100` over i = 1..n-1 |
| `BaselineEstimator.BaselineOfConstantHistory` | whale-ai-agent.py:75-76 | a history whose btc_oi never changes (and is not zero) has baseline 0 |
| `WhaleDetector.Exceeds` | whale-ai-agent.py:77-79 | the change triggers exactly when it lies strictly above baseline times 1.1 or strictly below its negation |
| `WhaleDetector.DetectWhaleActivity` | whale-ai-agent.py:73-79 | undefined exactly when the btc change or the baseline is; whale exactly when the absolute btc change is strictly above baseline times 1.1 |
| `WhaleDetector.ExceedsZeroBaseline` | whale-ai-agent.py:77-79 | with baseline 0 a change triggers exactly when it is non-zero |
| `WhaleDetector.ExceedsNegativeBaseline` | whale-ai-agent.py:77-79 | with a negative baseline every change triggers, a zero change included |
| `WhaleDetector.ExceedsPositiveBaseline` | whale-ai-agent.py:77-79 | with a positive baseline a change triggers exactly when it lies strictly outside plus or minus 1.1 times the baseline |
| `WhaleDetector.ExceedsMonotone` | whale-ai-agent.py:79 | the decision ignores the direction of the change, and a larger change triggers whenever a smaller one does |
| `WhaleDetector.DetectIgnoresTotalChange` | whale-ai-agent.py:73-79 | the total-OI change has no influence on the decision |
| `WhaleDetector.DetectAfterOneSample` | whale-ai-agent.py:75-79 | over a one-row history a defined btc change is whale activity exactly when it is non-zero, and quiet exactly when it is zero |
| `WhaleDetector.DetectOverConstantHistory` | whale-ai-agent.py:75-79 | over a history of constant non-zero btc_oi, any non-zero change is whale activity |
| `MonitorCycle.NextHistory` | whale-ai-agent.py:107-146 | a failed fetch leaves the history as it was; a successful one appends exactly one row, carrying the fetched values and the cycle's time, after the unchanged earlier rows |
| `MonitorCycle.CycleOutcome` | whale-ai-agent.py:107-146 | skip exactly on a failed fetch; bootstrap (no detection) exactly on an empty history; otherwise changes, baseline and decision all taken from the history before the new row, with the advisor consulted exactly when the decision is whale |
| `MonitorCycle.BaselineExcludesFreshSample` | whale-ai-agent.py:132-146 | from one row at 1000 a reading of 1200 is a 20% change against baseline 0 and triggers; with the new row counted the baseline would be 20 and the same change would not trigger |
| `MonitorCycle.HistoryOnlyGrows` | whale-ai-agent.py:140-153 | over any run of cycles earlier rows are never changed or removed, and the history grows by exactly one row per successful fetch |
| `MonitorCycle.WhaleAgent.constructor` | whale-ai-agent.py:12-32 | the history is the file's rows, or empty when the file does not exist |
| `MonitorCycle.WhaleAgent.SaveHistory` | whale-ai-agent.py:34-36 | the file afterwards holds exactly the in-memory history, which is unchanged |
| `MonitorCycle.WhaleAgent.RunCycle` | whale-ai-agent.py:107-146 | the new history is `NextHistory` of the old one; the file is untouched after a failed fetch and holds the new history otherwise; the outcome is `CycleOutcome` of the history before the cycle |

## Left out

- `_get_current_oi` (HTTP request to the exchange and JSON parsing, including the fallback of total OI to btc OI when the USD figure is missing): an input `Option<Reading>`.
- `_analyze_opportunity` (a call to an external language-model service, with its fixed fallback text on error): reduced to the `advised` flag of the outcome; its text is not modelled.
- `datetime.now()`: the timestamp is a parameter; nothing orders timestamps, as nothing in the code does.
- CSV parsing and writing through pandas (`read_csv`, `to_datetime`, `to_csv`): loading and saving are exact on the history value; a corrupt file and a failed write are not modelled.
- The reset of an empty history to an empty frame with the three columns (whale-ai-agent.py:117-118): it does not change the history's value, so the model has no step for it.
- The `__main__` loop with its sleep, the environment and API-key setup, and all logging output.
- mocktest.py: a standalone script of two HTTP calls and printing.
- IEEE float semantics: OI values are exact reals, and the 1.1 multiplier is exact.
- `BaselineEstimator.Baseline`: any zero btc_oi before the last row makes the baseline undefined, whereas in float arithmetic pandas skips a 0/0 step (NaN) in the mean and lets a x/0 step make it infinite.
- `WhaleDetector.DetectWhaleActivity`: an undefined btc change or baseline gives the verdict `Undefined`, where the source compares floats: an infinite change fires, a NaN change stays quiet, and an infinite baseline (an x/0 step before the last row) makes the threshold infinite so nothing fires, which matches the model's "not advised".
- `MonitorCycle.CycleOutcome`: when the btc change or the baseline is undefined the verdict is `Undefined` and the advisor is not consulted, whereas the source's float comparison would fire on an infinite change and stay quiet on a NaN one.
