# Market stress scoring, modelled in Dafny

This project models the scoring core of the market stress tracker. The tracker
turns the closing prices of eight instruments into one composite stress index
between 0 and 100.

- **Per-instrument score** (`Volatility`, `Indicator`). The scorer takes the
  simple returns of each instrument's closes. It takes their 10-observation
  rolling sample standard deviation, in percent. It then scores the latest
  rolling value against every defined rolling value. The score is the normal
  percentile of the latest value's z-score, 100·Φ(z), clamped to [0, 100].
  Too little data or a flat history gives the neutral score 50.
- **Composite** (`Composite`). One indicator runs per instrument, in the fixed
  table order. An indicator that raises contributes 50. The scores are averaged
  with the configured weights. If the weights do not sum to a positive total,
  the plain mean is used. The result is clamped to [0, 100].
- **Comparison window** (`Calendar`, `Session`). A run also scores the window
  of the previous session. That window ends on `pd.bdate_range(end=E,
  periods=2)[-2]` and spans the same 1095 days.

Modelling choices:

- Exact `real` arithmetic replaces doubles.
- `math.erf` and `math.sqrt` are passed in as a `MathLib` record of function
  values. The model assumes only what `Numerics.Valid` states about them:
  - erf is non-decreasing, lies in [-1, 1] and is 0 at 0;
  - sqrt returns the non-negative root of every non-negative real.
- A pandas column is a `seq<Cell>`, where `NaN` marks a missing value.
- A date is a day number as `date.toordinal()` gives it. Monday is weekday 0.
- The price provider is a map from symbol to closing prices. A failed fetch
  is an absent symbol and reads as an empty series.
- An indicator is a function from symbol to `Outcome`, which is `Scored(v)`
  or `Raised`.

Which estimator the code uses where:

- The history's spread at src/market_stress_engine.py:102 is `np.std`, the
  population standard deviation (divisor n).
- The rolling volatility at src/market_stress_engine.py:120 is pandas' `std()`,
  the sample standard deviation (divisor n − 1).
- From 11 closes on, the current reading at src/market_stress_engine.py:122
  is the last value of the volatility history built at
  src/market_stress_engine.py:121, so the reading is part of the history it
  is scored against. With exactly 10 closes the reading is NaN and the
  history is empty.

## Model

| member | source | states |
|---|---|---|
| `Numerics.Phi` | src/market_stress_engine.py:106 | 0.5·(1 + erf(z/√2)) is a probability: it lies in [0, 1] |
| `Numerics.PhiMonotone` | src/market_stress_engine.py:106 | the normal percentile never decreases as the z-score grows |
| `Numerics.PhiAtZero` | src/market_stress_engine.py:106 | a z-score of 0 maps to the percentile 0.5 |
| `Numerics.Clamp` | src/market_stress_engine.py:107 | `max(0, min(100, x))` lies in [0, 100], leaves values in range unchanged, and sends values below 0 to 0 and above 100 to 100 |
| `Stats.PopulationStd` | src/market_stress_engine.py:102 | `np.std` is non-negative and its square is the population variance (divisor n) |
| `Stats.SampleStd` | src/market_stress_engine.py:120 | pandas' `std` is non-negative and its square is the sample variance (divisor n − 1) |
| `Stats.Mean` | src/market_stress_engine.py:148 | `np.mean` times the number of values is their sum |
| `Stats.WeightedMean` | src/market_stress_engine.py:146 | `np.average` with weights times the total weight is the weighted sum of the values |
| `Stats.StdBelowIffVarianceBelow` | src/market_stress_engine.py:102-103 | a standard deviation is below a positive threshold exactly when the variance is below the threshold squared |
| `Stats.MeanBounds` | src/market_stress_engine.py:148 | `np.mean` lies between any lower and upper bound of its elements |
| `Stats.WeightedMeanBounds` | src/market_stress_engine.py:146 | with non-negative weights of positive total, `np.average` lies between any bounds of the values |
| `Stats.UniformWeightedMean` | src/market_stress_engine.py:145-148 | with equal positive weights the weighted average equals the plain mean, so the two branches of the composite agree |
| `Stats.WeightedSumOneDeviation` | src/market_stress_engine.py:146 | if all values equal c except one that is c + d, the weighted sum is c·Σw + d·w_k |
| `Indicator.ScaleWithHistory` | src/market_stress_engine.py:97-107 | the score is always in [0, 100]; it is exactly 50 with fewer than 10 history values, and also when the history's population std is below 1e-8, whatever the reading |
| `Indicator.ZScore` | src/market_stress_engine.py:105 | the z-score places the reading that many standard deviations from the mean: mean + z·std = reading; it is positive exactly when the reading is above the mean and 0 exactly at the mean |
| `Indicator.ScoreIsPercentile` | src/market_stress_engine.py:105-107 | on a history of at least 10 values with std ≥ 1e-8, the score is exactly 100·Φ((current − mean)/std), so the clamp never changes it |
| `Indicator.FlatHistoryByVariance` | src/market_stress_engine.py:101-106 | the 1e-8 spread test is the same as testing the population variance against 1e-16: below gives 50, otherwise 100·Φ(z) |
| `Indicator.ConstantHistoryIsNeutral` | src/market_stress_engine.py:101-104 | a history of one repeated value scores 50 for every reading |
| `Indicator.MeanReadingIsNeutral` | src/market_stress_engine.py:105-106 | a reading equal to the history's mean scores exactly 50 |
| `Indicator.ScaleMonotone` | src/market_stress_engine.py:105-107 | with the history fixed, a higher reading never gives a lower score |
| `Volatility.PctChange` | src/market_stress_engine.py:119 | the first return is missing; every other return r_i is defined and carries the previous close to the current one: p_{i−1}·(1 + r_i) = p_i |
| `Volatility.WindowStd` | src/market_stress_engine.py:120 | a rolling value is defined exactly when its 10-wide window lies inside the column and has no missing value; it is then non-negative and its square is the window's sample variance |
| `Volatility.RollingStd` | src/market_stress_engine.py:120 | the rolling column has one cell per input cell, and each cell is defined exactly when its window is complete |
| `Volatility.Times` | src/market_stress_engine.py:120 | the ×100 scaling keeps missing values missing and multiplies every defined value |
| `Volatility.VolatilitySeries` | src/market_stress_engine.py:119-120 | the volatility column is aligned with the closes; a value is defined exactly when the 10 returns up to it are all defined, and it is then 100 times the sample standard deviation of those 10 returns, so never negative |
| `Volatility.DropNaN` | src/market_stress_engine.py:121 | `dropna` keeps exactly the defined values: every kept value came from a defined cell, every defined cell's value is kept, and a column without missing values is returned whole |
| `Volatility.DropNaNConcat` | src/market_stress_engine.py:121 | `dropna` keeps column order: the values of a column split in two are those of the first part followed by those of the second |
| `Volatility.VolatilityScore` | src/market_stress_engine.py:115-123 | the indicator's score is in [0, 100] and is 50 for an empty series or fewer than 10 closes (the indicator's own guard, which equals the window only by coincidence) |
| `Volatility.VolatilityDefinedFrom` | src/market_stress_engine.py:119-120 | the volatility column is missing at positions 0 to 9 and defined from position 10 on |
| `Volatility.DropLeadingNaN` | src/market_stress_engine.py:121 | dropping the missing values of a column that is missing exactly before position k leaves the values from k on, in order, and n − k of them |
| `Volatility.HistoryShape` | src/market_stress_engine.py:119-122 | with n ≥ 11 closes the history has exactly n − 10 values, and the current reading is its last one |
| `Volatility.NaNReadingHasNoHistory` | src/market_stress_engine.py:121-123 | the current reading is missing exactly when there are 10 closes; the history is then empty and scores 50 for any reading |
| `Volatility.ShortSeriesIsNeutral` | src/market_stress_engine.py:117-123 | every series of fewer than window + minimum history = 20 closes scores 50: it has fewer than 10 volatility values to score against |
| `Volatility.ReadingIsScoredAgainstItself` | src/market_stress_engine.py:121-123 | from 11 closes on, the score is the last history value scored against the whole history, which includes that value |
| `Composite.WeightOf` | src/market_stress_engine.py:142 | `WEIGHTS.get(ticker, 0.0)`: the configured weight, or 0 for a symbol without one |
| `Composite.Recorded` | src/market_stress_engine.py:136-140 | an indicator that raised records 50; one that returned records its score |
| `Composite.Scores` | src/market_stress_engine.py:134-140 | one score per instrument, in table order: the indicator's own score, or 50 where it raised |
| `Composite.WeightVector` | src/market_stress_engine.py:142 | the weight vector is aligned with the instrument table |
| `Composite.Aggregate` | src/market_stress_engine.py:145-148 | with a positive total weight the composite times the total weight is the weighted sum of the scores; otherwise the composite times the number of scores is their sum |
| `Composite.AggregateBracketed` | src/market_stress_engine.py:145-148 | with non-negative weights the unclamped composite lies between the smallest and the largest score, in the weighted and the plain-mean branch alike |
| `Composite.Compute` | src/market_stress_engine.py:133-151 | the composite is the clamped weighted average of the scores when the weights sum to a positive total, and the clamped plain mean otherwise; it lies in [0, 100] and, with non-negative weights, between the clamped minimum and the clamped maximum score |
| `Composite.ClampedBracket` | src/market_stress_engine.py:145-150 | with non-negative weights the clamped composite lies between the clamped smallest and largest score |
| `Composite.CompositeBetweenScores` | src/market_stress_engine.py:145-150 | when the scores lie in [0, 100] and the weights are non-negative, the composite lies between the smallest and the largest score |
| `Composite.UnweightedIsPlainMean` | src/market_stress_engine.py:142-148 | if no instrument has a configured weight, every weight is 0 and the composite is the clamped plain mean |
| `Composite.EqualWeightsArePlainMean` | src/market_stress_engine.py:145-148 | equal positive weights give the same composite as the plain-mean fallback |
| `Composite.RaisingIsIsolated` | src/market_stress_engine.py:134-140 | making one symbol's indicator raise sets 50 at that symbol's positions and leaves every other score unchanged |
| `Composite.UnanimousScores` | src/market_stress_engine.py:145-150 | when every instrument scores c, the composite is c (clamped), whatever the weights |
| `Composite.AggregateOneDeviation` | src/market_stress_engine.py:145-146 | scores all equal to c except c + d at one position k give a weighted composite of c + d·(w_k / Σw) |
| `Composite.SingleShock` | src/market_stress_engine.py:145-150 | the same one-instrument shock, stated for the composite of a configuration |
| `Composite.ConfiguredWeights` | src/market_stress_engine.py:54-63 | every configured symbol has a weight, the weights are non-negative and they sum to exactly 1 |
| `Composite.Fetched` | src/market_stress_engine.py:78-83 | a symbol whose fetch failed reads as an empty price series |
| `Composite.VolatilityIndicator` | src/market_stress_engine.py:131-137 | the indicator built for a symbol with non-zero closes returns `Scored(VolatilityScore(lib, Fetched(history, s)))`, the volatility score of that symbol's own fetched series; a series with a zero close is reported as `Raised` |
| `Composite.MarketStress` | src/market_stress_engine.py:131-151 | a full pass gives instrument i the volatility score of its own fetched series, 50 where the fetch failed; each score is in [0, 100]; the composite is the clamped weighted average (or plain mean when no weight is positive), in [0, 100] and, with non-negative weights, between the smallest and the largest score |
| `Composite.AllFetchesFailed` | src/market_stress_engine.py:133-151 | with the configured tables, if every fetch fails then all eight scores and the composite are exactly 50 |
| `Composite.VixShock` | src/market_stress_engine.py:145-146 | with the configured weights, seven scores of 50 and a VIX score of 90 give a composite of exactly 59.2 |
| `Calendar.RollBack` | src/market_stress_engine.py:280 | the business-day roll-back returns a business day at or before the date with no business day between them; it keeps the date exactly when the date is a business day |
| `Calendar.BusinessDayRange` | src/market_stress_engine.py:280 | `bdate_range(end, periods)` gives `periods` business days in increasing order, with no business day skipped between neighbours, ending at the rolled-back end |
| `Calendar.ComparisonEnd` | src/market_stress_engine.py:280 | the `[-2]` pick is a business day before the rolled-back end, with no business day between the two |
| `Calendar.ComparisonEndIsPreviousSession` | src/market_stress_engine.py:280 | the comparison end is a business day strictly before E; exactly one business day, the roll-back of E, lies after it up to E |
| `Calendar.ComparisonEndByWeekday` | src/market_stress_engine.py:280 | Monday gives the Friday before, Tuesday to Friday give the day before, Saturday and Sunday give the Thursday before |
| `Calendar.DefaultRange` | src/market_stress_engine.py:267-269 | the default window ends the day before today and spans 1095 days |
| `Calendar.ComparisonRange` | src/market_stress_engine.py:280-282 | the comparison window ends on the previous session: a business day before E after which the only business day up to E is the roll-back of E; it spans the same 1095 days as the default window |
| `Calendar.ComparisonRangeByWeekday` | src/market_stress_engine.py:280-282 | a Monday end compares with the 1095 days ending the Friday before, Tuesday to Friday with those ending the day before, Saturday and Sunday with those ending the Thursday before |
| `Calendar.ComparisonRangeOnMonday` | src/market_stress_engine.py:280-282 | a Monday end gives the 1095 days ending the Friday before |
| `Calendar.ComparisonRangeMidweek` | src/market_stress_engine.py:280-282 | a Tuesday to Friday end gives the 1095 days ending the day before |
| `Session.CompareToPreviousSession` | src/market_stress_engine.py:275-286 | `current` is the composite of the requested window and `previous` that of the comparison window; both lie in [0, 100], and identical data for the two windows gives identical composites |
| `Session.PairReadsTwoWindows` | src/market_stress_engine.py:280-286 | the pair depends on the provider only through the requested window and the previous session's window |
| `Session.PreviousReadsWindow` | src/market_stress_engine.py:280-286 | `previous` is the composite of the provider's data for the comparison window, whichever window that is |
| `Session.MondayComparesWithFriday` | src/market_stress_engine.py:280-286 | a run ending on a Monday takes `previous` from the 1095 days ending the Friday before |
| `Session.MidweekComparesWithDayBefore` | src/market_stress_engine.py:280-286 | a run ending Tuesday to Friday takes `previous` from the 1095 days ending the day before |

## Left out

- `DataManager.get_history` (src/market_stress_engine.py:77-83): the network fetch and its `lru_cache` are not modelled. The provider is a map from symbol to closes, and a failed fetch is an absent symbol. The cache is not modelled because a fixed provider makes memoisation invisible.
- `gauge_plot`, `radar_plot` and the printing, CSV export, argument parsing and logging (including the `logging.error` calls at src/market_stress_engine.py:82 and :139): presentation and plumbing. `date.today()` becomes the `today` parameter of `Calendar.DefaultRange`. The module-level `main()` call is left out too.
- `Calendar.DefaultRange`: command-line `--start_date`/`--end_date` overrides are not modelled. The comparison window depends only on the end date, as in the code.
- `src/dashboard_app.py`: it is Streamlit UI, and its date logic repeats the engine's. `src/stress_index_plot.py`: it holds fixed chart data. Neither is part of this model.
- IEEE-754 rounding, NaN and infinity propagation: exact reals stand in for doubles.
- `Volatility.VolatilityScore`, `Volatility.PctChange`, `Composite.MarketStress`: these require non-zero closes. `Composite.MarketStress` requires them only for the configured instruments' series; the indicator reports any other symbol with a zero close as raising, a branch no configured symbol reaches. A zero close makes the next return infinite. The rolling std and `np.std` then yield NaN or infinity, and the clamp `max(0, min(100, x))` turns a NaN or infinite score into 100. That path is not modelled.
- `Numerics.Valid`: erf is assumed only non-decreasing, bounded by [-1, 1] and 0 at 0, which is weaker than the real function. sqrt is assumed exact. No property here needs more.
- `Composite.Compute`: this requires at least one instrument. With an empty table the code takes `np.mean` of nothing, which is NaN. The configured table has eight entries.
- Python exceptions: only "this indicator raised" is modelled, as `Outcome.Raised`. `Volatility.VolatilityScore` is total; `Composite.VolatilityIndicator` reports `Raised` only for a series with a zero close, which `Usable` keeps every configured symbol from reaching.
- Holiday calendars and `strftime` formatting of dates.
