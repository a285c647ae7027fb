# Biogas allocation engine

This is a Dafny model of the allocation engine of `BiogasAnalyzer`. The engine estimates how much of a measured biogas total each fermentation tank produced. Each tank has a normalized yield curve, one value per day since the tank started. On a given day a tank reads its value off the curve for its day index. The measured total is then split among the tanks in proportion to those values.

In cumulative mode the measurement is a running total. The engine subtracts the baseline from it. The baseline is the value logged at the latest date strictly before the day analyzed. The cumulative log records one reading per date with an upsert, and a reset empties it.

The repository holds two near-identical copies of the engine:
- `biogas_2.py` keeps its logs in local files.
- `curves/biogas_2.py` keeps them in a remote JSON store and falls back to local files.

Both copies are modelled as one engine. The log storage is a `LogStore` object, and the outcome of reading the log is an input to the operations.

Modules, one per file:

- `Wrappers` (`wrappers.dfy`): `Option` and `Result`.
- `StringOrder` (`string_order.dfy`): Python's ordering of strings (`Less`), proved a strict total order. The baseline's `d < today_str` and `max` use it.
- `Calendar` (`calendar.dfy`): dates as `datetime.date` holds them. `Ordinal` is `date.toordinal()` and `Iso` is `str(date)`. `IsoOrder` proves that zero-padded `YYYY-MM-DD` strings sort in calendar order.
- `CumulativeLog` (`cumulative_log.dfy`):
  - the baseline, as a specification (`Baseline`) and as the loop the source runs (`FindLatestBefore`, `ResolveBaseline`);
  - the log upsert;
  - the day's increment (`TodayTotal`);
  - the `LogStore` class.
- `YieldCurve` (`yield_curve.dfy`): the day index, the curve lookup with its three cases, and the stage band table (`_get_stage`). Stages form a datatype.
- `Split` (`split.dfy`):
  - proportional shares on exact reals;
  - `round(x, 2)` as round-half-to-even to hundredths;
  - conservation of the total, the rounding bound and the zero-signal rule.
- `Analyzer` (`analyzer.dfy`):
  - the `BiogasAnalyzer` class, with its `curves` field filled by the constructor;
  - `Analyze`, the two-pass loop of the source, proved equal to the specification function `Allocation`;
  - `UpdateCumulativeLog` and `ResetCumulativeLog`, which act on a `LogStore`.

How the model represents the source's data:
- The `start_dates` dictionary is a sequence of `(tank, date)` pairs in insertion order. The result is a sequence of `(tank, record)` pairs in the same order, as the Python dictionary `result` is.
- Volumes and curve values are `real`.
- A log read that produced nothing is `None`. This covers a file that does not exist, a remote read that raised, and no log path. A remote reply with a status other than 200, or (in the root `github_utils.py` reader) a malformed or non-object document, arrives as the empty log `{}`, which gives baseline 0.0 as well. In `UpdateCumulativeLog` all of these are `readOk = false`: the upsert starts from `{}` and the write replaces the stored log.

## Model

| member | source | states |
|---|---|---|
| `StringOrder.Less` | biogas_2.py:22 | Python's `a < b` on strings: the first differing character decides by code point, and a proper prefix sorts first. `Irreflexive`, `Transitive` and `Total` make it a strict total order. |
| `Calendar.Ordinal` | biogas_2.py:33 | `date.toordinal()`: days before the year by the Gregorian closed form, plus days before the month, plus the day; 0001-01-01 is day 1. `OrdinalOrder` ties it to calendar order. |
| `Calendar.Iso` | biogas_2.py:50 | `str(date)`: the year to 4 digits, month and day to 2, joined by `-`; always 10 characters long. `IsoOrder` ties its string order to calendar order. |
| `YieldCurve.DayIndex` | biogas_2.py:33 | `(today - start).days + 1` as a difference of ordinals. `StartedIffNotLater` and `EarlyCount` state its meaning. |
| `YieldCurve.GetStage` | biogas_2.py:62-72 | `_get_stage`: the band of the day in the table 3 / 6 / 9 / 14, else finished with the days past day 14. `StageBands` and `StageMonotone` state its bands. |
| `YieldCurve.Lookup` | biogas_2.py:37-45 | The normalized value and stage of a day on a curve, in the source's three cases. `LookupCases` states each case. |
| `CumulativeLog.Baseline` | biogas_2.py:18-25 | `last_cumulative`: the log's value at the greatest key strictly before today when cumulative mode is on and a log was read, else 0.0. `ResolveBaseline` computes it; `BaselineWithoutLog`, `BaselineWithoutPrior` and `BaselineOfDatedLog` state its cases. |
| `Split.Volume` | biogas_2.py:57 | One tank's volume: `round(norm / norm_sum * total, 2)` when `norm_sum > 0`, else 0. `RoundedShare`, `ZeroSignal` and `SharesNonNegative` state its cases. |
| `Split.Volumes` | biogas_2.py:55-58 | Every tank's volume, in tank order, one per normalized value. `VolumesNearTotal` bounds its sum. |
| `Analyzer.Allocation` | biogas_2.py:29-60 | The result dictionary as a sequence: one record per tank in `start_dates` order, with the record of the lookup and the tank's volume. `AllocationRecord`, `AllocationConserves`, `AllocationZeroSignal` and `AllocationNonNegative` state what it holds. |
| `YieldCurve.StageBands` | biogas_2.py:62-72 | Days up to 3 are the initial phase, 4-6 rising, 7-9 plateau and 10-14 decline. Past day 14 the stage is finished, counting the days past day 14. The band table never yields "not started". |
| `YieldCurve.StageMonotone` | curves/biogas_2.py:83-93 | The bands are checked in ascending order, so a later day never gets an earlier stage. |
| `YieldCurve.LookupCases` | biogas_2.py:37-45 | Before day 1: value 0, stage "not started" with `abs(day)` days early. Past the curve's end: value 0, stage "finished" with `day - len(curve)` days over. Otherwise: `curve[day-1]` and the band table's stage. A non-zero value implies day 1 to `len(curve)`. |
| `YieldCurve.LookupNonNegative` | curves/biogas_2.py:58-66 | A non-negative curve gives a non-negative normalized value on every day. |
| `YieldCurve.StartedIffNotLater` | biogas_2.py:32-33 | The day index `(today - start) + 1` is at least 1 exactly when the start date's ISO string does not sort after today's. It is 1 exactly on the start date. |
| `YieldCurve.EarlyCount` | curves/biogas_2.py:54-60 | A tank starting `k` days after today has value 0 and is reported as `k - 1` days early. |
| `YieldCurve.OvershootRestarts` | biogas_2.py:40-45 | With a curve longer than 15 entries, the curve's last day reports `len - 14` days over and the next day reports 1 day over. The band table counts from day 14; the range check counts from the curve's end. |
| `YieldCurve.LookupExample` | biogas_2.py:31-45 | Curve [0.1, 0.2, 0.4, 0.2, 0.1], started 2025-01-01, analyzed 2025-01-03: day 3, value 0.4, initial phase. |
| `YieldCurve.NotStartedExample` | curves/biogas_2.py:52-60 | A start date two days after the day analyzed gives day -1, value 0, one day early. |
| `Calendar.IsoOrder` | biogas_2.py:22-24 | For valid dates, comparing `YYYY-MM-DD` strings as Python does is comparing ordinals. Equal strings mean the same day. |
| `Calendar.OrdinalOrder` | biogas_2.py:32-33 | `toordinal` orders dates by year, month, then day, and tells different dates apart. |
| `Calendar.NextYear` | biogas_2.py:33 | The closed-form count of days before a year grows by 366 across a leap year and by 365 across any other year. |
| `StringOrder.Total` | biogas_2.py:22-24 | Python string order is total, so `max` of the earlier keys is well defined. |
| `CumulativeLog.LatestExists` | biogas_2.py:23-24 | When some key sorts before today, a greatest such key exists. |
| `CumulativeLog.LatestUnique` | curves/biogas_2.py:33-35 | There is only one greatest earlier key. |
| `CumulativeLog.FindLatestBefore` | biogas_2.py:22-24 | Returns the greatest key strictly before today, or None when no key is earlier. |
| `CumulativeLog.ResolveBaseline` | biogas_2.py:18-25 | The baseline is the value at the greatest key strictly before today. It is 0.0 when no key is earlier, when cumulative mode is off, or when no log was read. |
| `CumulativeLog.BaselineWithoutLog` | curves/biogas_2.py:27-47 | With cumulative mode off, no log path, a missing local file, or a remote read that raised, the baseline is 0.0. |
| `CumulativeLog.BaselineWithoutPrior` | curves/biogas_2.py:43-46 | A log with no key before today, including the empty log, gives baseline 0.0. |
| `CumulativeLog.BaselineOfDatedLog` | curves/biogas_2.py:40-46 | In a log keyed by ISO dates, the baseline is the value of the calendar-latest logged date strictly before today. |
| `CumulativeLog.BaselineOfTwo` | biogas_2.py:22-25 | Of two keys before today, the later one's value is the baseline. |
| `CumulativeLog.BaselineExample` | biogas_2.py:18-25 | Log {2025-01-01: 1000, 2025-01-02: 1500} analyzed on 2025-01-03 gives baseline 1500. |
| `CumulativeLog.TodayTotal` | biogas_2.py:27 | The day's gas `max(total - baseline, 0)` is never negative. It is the whole difference whenever that is positive, and 0 otherwise. |
| `CumulativeLog.IncrementExample` | curves/biogas_2.py:48 | With that log, a reading of 1800 on 2025-01-03 is 300 of new gas. |
| `CumulativeLog.IncrementAfterRecording` | biogas_2.py:181-193 | Take a recorded reading with no key between its day and a later day. A reading on that later day is turned into its increment over the recorded one (0 if not larger). |
| `CumulativeLog.Upsert` | biogas_2.py:188 | After the upsert, `today` maps to the new value, the keys are the old keys plus `today`, and every other key keeps its value. |
| `CumulativeLog.UpsertLastWriteWins` | curves/biogas_2.py:210 | Recording the same day twice keeps only the second reading. |
| `CumulativeLog.UpsertThenBaseline` | curves/biogas_2.py:204-222 | A reading just recorded is the baseline of a later date when no logged key falls between the two. |
| `Split.Round2` | biogas_2.py:57 | `round(x, 2)` is within 0.005 of `x` and keeps non-negative values non-negative. |
| `Split.SharesConserve` | biogas_2.py:55-58 | When the normalized values sum to a positive number, the unrounded shares `norm / norm_sum * total` sum exactly to the total. |
| `Split.SharesNonNegative` | curves/biogas_2.py:76-79 | With non-negative values and total, every share and every reported volume is non-negative. |
| `Split.ZeroSignal` | biogas_2.py:57 | When the normalized sum is not positive, every volume is 0, whatever the total. |
| `Split.VolumesNearTotal` | curves/biogas_2.py:76-79 | When the normalized values sum to a positive number, the rounded volumes sum to the total within 0.005 per tank. |
| `Split.SplitExample` | biogas_2.py:55-58 | Values 0.4 and 0.1 sharing 500 give 400.00 and 100.00. |
| `Analyzer.AllocationRecord` | biogas_2.py:31-58 | Each result record has: its tank's id; `day = toordinal(today) - toordinal(start) + 1`; the start date as `YYYY-MM-DD`; the value and stage of the three-way lookup; and the volume `round(norm / norm_sum * total, 2)` when `norm_sum > 0`, else 0. |
| `Analyzer.AllocationConserves` | biogas_2.py:29-60 | With a positive normalized sum, the unrounded shares sum exactly to the day's gas, and the record volumes miss it by at most 0.005 per tank. |
| `Analyzer.AllocationZeroSignal` | curves/biogas_2.py:76-79 | Without a positive normalized sum, every record's volume is 0. |
| `Analyzer.AllocationNonNegative` | curves/biogas_2.py:50-81 | With non-negative curves and a non-negative day's gas, no record's volume is negative. |
| `Analyzer.BiogasAnalyzer.Analyze` | biogas_2.py:15-60 | Fails with `MissingCurve(t)` exactly when some tank has no loaded curve, naming the first such tank in order. Otherwise returns exactly `Allocation` of the curves, the start dates, today, and `TodayTotal(total, Baseline(log, str(today), is_cumulative))`. That is one record per tank, in order. |
| `Analyzer.BiogasAnalyzer.constructor` | biogas_2.py:9-13 | The `curves` field holds exactly the curve document loaded for each tank. |
| `Analyzer.BiogasAnalyzer.UpdateCumulativeLog` | curves/biogas_2.py:204-222 | Returns the stored log with only `today` set to the reading, or exactly `{today: reading}` when the read failed. The store holds the result unless the remote write was rejected. |
| `Analyzer.BiogasAnalyzer.ResetCumulativeLog` | curves/biogas_2.py:224-231 | Returns `{}`. The store holds `{}` unless the remote write was rejected. |

The two copies differ in how `analyze` reads the baseline:
- `biogas_2.py:18-25` reads only a local file.
- `curves/biogas_2.py:27-47` first reads the remote store inside a `try`, treating an exception as baseline 0.0, and reads the local file only when no remote reader is available.

Both readings end in the same `Option<Log>` input to `Baseline`. From the `max(total_gas - last_cumulative, 0)` line on (biogas_2.py:27 and curves/biogas_2.py:48), the two copies of `analyze` have the same code. So do these other parts:
- `_get_stage`: biogas_2.py:62-72 and curves/biogas_2.py:83-93.
- the local branch of `update_cumulative_log`: biogas_2.py:181-193 and curves/biogas_2.py:213-221.
- the local branch of `reset_cumulative_log`: biogas_2.py:195-198 and curves/biogas_2.py:228-231.

Each row cites one copy.

## Left out

- Plotting and the pipeline wrappers (`plot_*`, `run_*_pipeline`): matplotlib/pandas rendering and the image push, with no allocation logic.
- JSON parsing, file and HTTP I/O, and the remote store's transport. Curve documents arrive as `CurveDoc` values. A log read arrives as `Option<Log>` (`Analyze`) or as `readOk` (`UpdateCumulativeLog`). A rejected remote write is `writeOk`.
- `datetime.strptime`: dates arrive as valid `Date` values, and today's string is `str(today)`. `strptime("%Y-%m-%d")` also accepts unpadded text such as `2025-1-5`. For such a `today_str`, the source's string comparison against log keys no longer follows the calendar. The model does not cover that input.
- Analyzer.BiogasAnalyzer.Analyze: volumes are exact reals. IEEE-754 division, float summation order and `round` on the binary value of a float are not modelled. The model rounds the exact real share half-to-even to hundredths.
- Stage labels are the datatype `Stage`, not the Chinese label strings with the number formatted into them.
- Analyzer.BiogasAnalyzer.Analyze: a `KeyError` is the declared `MissingCurve` failure, and the records already built are dropped, as the exception drops them. Other exceptions are not modelled: a non-numeric curve entry, or a local log document that is not a JSON object (its `.keys()` raises).
- Concurrency: last-writer-wins races on the remote store are outside the engine.
- The callers in `streamlit_curve.py` and `linewebhook.py` are not part of this model. This includes the UI's hard-coded `is_cumulative=True` and the chat handler's two-argument `update_cumulative_log` call.
