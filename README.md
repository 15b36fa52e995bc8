# Crypto dashboard core in Dafny

This project models the computational core of a cryptocurrency dashboard:

- the technical-indicator engine (`src/utils/indicators.ts`): the simple and
  exponential moving averages, Bollinger Bands, the relative strength index,
  MACD, and the support/resistance envelope;
- the state-update rules of the application context
  (`src/context/AppContext.tsx`): enabling and disabling chart indicators,
  setting and clearing per-symbol price alerts, deciding which alerts fire
  after a price refresh, and sizing the fetched price history;
- the price-alert panel (`src/components/AlertSettings.tsx`): the list of
  active alerts and the guard on the typed threshold.

Modules:

- `SeriesMath` (`series_math.dfy`) holds the shared primitives:
  - an `Option` whose `None` stands for a NaN entry;
  - NaN-propagating subtraction, and `Array(n).fill(NaN)`;
  - sums, means and squared deviations over windows;
  - the minimum and maximum of a window.
- `Indicators` (`indicators.dfy`) mirrors the loops of `indicators.ts` in
  one method per indicator. As in the source, most methods push the
  defined values onto a list and put a NaN padding in front. The
  support/resistance loop instead pushes a NaN for each early index itself,
  and the MACD line is a NaN-propagating difference of two padded EMAs.
  Each method's contract equates its result with a declarative `…Series`
  function. Lemmas then state what that series means:
  - it is aligned with the input;
  - which prefix is undefined;
  - the window or recurrence each value comes from;
  - its bounds and orderings;
  - what it is on constant series.
- `AppContext` (`app_context.dfy`) models the updater functions that the
  context passes to React's state setters. It also has a method for the
  alert check of the price refresh, and the history-size arithmetic. The
  alert map is a JavaScript `Map`, which remembers insertion order. It is
  modelled as an insertion order plus a table, kept consistent by `Valid`.
- `AlertSettings` (`alert_settings.dfy`) derives the active-alert list from
  the map and models `handleSetAlert`.

Modelling choices:

- Prices are exact `real`s, and NaN is `None`.
- `Math.sqrt` is a parameter `sqrt`. The proofs assume only `SqrtLaw`: the
  root of 0 is 0, and the root of a non-negative number is non-negative.
- `parseFloat` is a parameter `parse`, with `None` for NaN.
- The random price moves, the clock and the toast pop-ups are outside the
  model. The toasts of the alert check are returned as a list of notices.

What the code checks, and what the model does with it:

- The code validates no parameter. It accepts any period, deviation and
  pair of MACD periods, and it has no error path.
  - With period 0, `calculateSMA`, `calculateEMA`, `calculateBollingerBands`
    and `calculateMACD` throw a `RangeError` from `Array(-1)`
    (src/utils/indicators.ts:18 and :38). Instead, `calculateRSI` divides
    0 by 0 and returns NaN values, and `calculateSupportResistance` takes
    the minimum and maximum of an empty window, which are +Infinity and
    -Infinity. The model therefore requires `period >= 1` (see "Left out").
  - Every other input is modelled as the code handles it. Examples: a series
    shorter than the period, and a negative deviation.
- The padding comments at src/utils/indicators.ts:17 and :37 say the NaN
  prefix is there so that the result has the same length as the input. The
  code keeps that promise only when the data fills the period. With fewer
  than `period - 1` prices the SMA still has `period - 1` entries, and with
  fewer than `period` prices the EMA still pushes its seed after its
  `period - 1` NaN entries. Either way the result is longer than the input.
  The series functions have that length, `Max(|data|, …)`, and the shape
  lemmas state the alignment under exactly the condition that makes it hold.
- The comment at src/utils/indicators.ts:124 says the signal line is padded
  with NaN "for the first values", like the other padded series. The padding
  on line 125 counts the EMA's own `signal - 1` NaN entries a second time, so
  the signal line is not aligned with the input (see "Findings").

## Model

| member | source | states |
|---|---|---|
| `SeriesMath.OptSub` | src/utils/indicators.ts:117 | The difference is defined exactly when both operands are, and then it is their difference (NaN propagation). |
| `SeriesMath.Pad` | src/utils/indicators.ts:18 | `Array(n).fill(NaN)` has exactly `n` entries, all undefined. |
| `SeriesMath.Take` | src/utils/indicators.ts:28 | `slice(0, n)` returns a prefix of length `min(n, len)`. |
| `SeriesMath.Sum` | src/utils/indicators.ts:28 | The sum of non-negative entries is non-negative. |
| `SeriesMath.SumSqDev` | src/utils/indicators.ts:53-56 | The summed squared deviations are never negative. |
| `SeriesMath.SeqMin` | src/utils/indicators.ts:157 | `Math.min` of a window is an element of it and is at most every element. |
| `SeriesMath.SeqMax` | src/utils/indicators.ts:158 | `Math.max` of a window is an element of it and is at least every element. |
| `SeriesMath.SumConstant` | src/utils/indicators.ts:28 | A constant window of length n sums to n times the constant. |
| `SeriesMath.SumBounds` | src/utils/indicators.ts:28 | Entries between `lo` and `hi` sum to between `n * lo` and `n * hi`. |
| `SeriesMath.MeanBounds` | src/utils/indicators.ts:28 | The mean of entries between `lo` and `hi` lies between them. |
| `SeriesMath.PrefixMeanInRange` | src/utils/indicators.ts:28 | The mean of the first `n` prices lies between the minimum and maximum of the whole series. |
| `SeriesMath.Mean` | src/utils/indicators.ts:14 | The mean of non-negative prices is non-negative. `MeanBounds` states that it lies between any bounds of its entries. |
| `SeriesMath.MeanConstant` | src/utils/indicators.ts:14 | The mean of a constant window is the constant. |
| `SeriesMath.SumSqDevConstant` | src/utils/indicators.ts:53-56 | A constant window has zero deviation from its constant. |
| `Indicators.SmaSeries` | src/utils/indicators.ts:6-20 | The SMA has `max(len, period - 1)` entries. |
| `Indicators.WindowSum` | src/utils/indicators.ts:10-13 | The inner loop returns the sum of the `period` prices ending at `i`. |
| `Indicators.WindowMeans` | src/utils/indicators.ts:6-14 | The outer loop yields one entry per index from `period - 1` on, the mean of the `period` prices ending there. |
| `Indicators.CalculateSma` | src/utils/indicators.ts:6-20 | The two nested loops and the padding produce exactly the SMA series: `period - 1` undefined entries, then the window mean at each index. |
| `Indicators.SmaShape` | src/utils/indicators.ts:9-19 | When `1 <= period <= len`, the SMA is aligned with the input: its first `period - 1` entries are undefined, and entry `i` is the mean of `data[i-period+1..i]`. |
| `Indicators.SmaConstant` | src/utils/indicators.ts:6-20 | On a constant series every defined SMA value is the constant. |
| `Indicators.Multiplier` | src/utils/indicators.ts:25 | The smoothing factor `2/(period+1)` lies in (0, 1] for every positive period. |
| `Indicators.EmaSeed` | src/utils/indicators.ts:28 | When the data fills the period, the seed is the simple mean of the first `period` prices. It is never negative when no price is. |
| `Indicators.EmaAt` | src/utils/indicators.ts:28-34 | The EMA of non-negative prices is non-negative, at the seed and after every step. `EmaInRange` bounds it by the minimum and maximum price. |
| `Indicators.StepNonNegative` | src/utils/indicators.ts:33 | `(x - prev) * m + prev` with `0 < m <= 1` is non-negative when `prev` and `x` are. |
| `Indicators.EmaSeries` | src/utils/indicators.ts:23-40 | The EMA has `max(len, period)` entries: the seed is pushed even when there are fewer prices than the period. |
| `Indicators.CalculateEma` | src/utils/indicators.ts:23-40 | The seeded loop and the padding produce exactly the EMA series. |
| `Indicators.EmaShape` | src/utils/indicators.ts:28-39 | When `1 <= period <= len`: the EMA is aligned with the input; the first `period - 1` entries are undefined; entry `period - 1` is the mean of the first `period` prices; each later entry follows `e[i] = (data[i] - e[i-1]) * m + e[i-1]`, with `m = Multiplier(period) = 2/(period+1)`. |
| `Indicators.EmaStep` | src/utils/indicators.ts:32-34 | At each index after the seed, the series holds the recurrence's value, computed from its value at the previous index. |
| `Indicators.EmaDefined` | src/utils/indicators.ts:29-39 | An EMA entry is defined exactly when its index is at least `period - 1`. |
| `Indicators.EmaInRange` | src/utils/indicators.ts:28-35 | Inside the data, every EMA value lies between the minimum and maximum price: the seed is a mean of prices, and each step moves part of the way towards the next price. |
| `Indicators.EmaStepBetween` | src/utils/indicators.ts:32-34 | One step of the recurrence keeps the EMA within any bounds that hold for the previous value and the new price. |
| `Indicators.StepBetween` | src/utils/indicators.ts:33 | `(x - prev) * m + prev` with `0 < m <= 1` lies between any bounds of `prev` and `x`. |
| `Indicators.EmaAtConstant` | src/utils/indicators.ts:28-35 | On a constant series the seed and every step of the recurrence equal the constant. |
| `Indicators.EmaConstant` | src/utils/indicators.ts:23-40 | On a constant series every defined EMA value inside the data equals the constant. |
| `Indicators.EmaAtZero` | src/utils/indicators.ts:28-35 | The EMA of an all-zero series is zero, even when the seed comes from a partial window. |
| `Indicators.VarianceAt` | src/utils/indicators.ts:53-57 | The variance `sum / period` of a window is never negative. |
| `Indicators.StdDevAt` | src/utils/indicators.ts:57 | The standard deviation is never negative, for any square root that maps non-negative numbers to non-negative numbers. |
| `Indicators.BollingerSeries` | src/utils/indicators.ts:43-69 | All three bands have `max(len, period - 1)` entries. |
| `Indicators.SquaredDeviationSum` | src/utils/indicators.ts:53-56 | The inner loop returns the sum of squared deviations of the window ending at `i`. |
| `Indicators.BandPoint` | src/utils/indicators.ts:53-59 | At a defined index the loop body yields the upper and lower band values: the SMA plus and minus `deviation` standard deviations. |
| `Indicators.BandValues` | src/utils/indicators.ts:52-60 | The band loop yields one upper and one lower value per index from `period - 1` on. |
| `Indicators.CalculateBollingerBands` | src/utils/indicators.ts:43-69 | The loop over the SMA produces exactly the band series: the SMA as the middle band, and the SMA plus and minus `deviation` times `sqrt(variance)`. |
| `Indicators.BollingerShape` | src/utils/indicators.ts:48-68 | The middle band is the SMA, and all bands share the undefined prefix. At every defined index the upper and lower bands lie `deviation * sd` above and below the middle, with `sd >= 0`, so for `deviation >= 0` they satisfy lower <= middle <= upper. |
| `Indicators.BollingerConstant` | src/utils/indicators.ts:43-69 | On a constant series the three bands coincide. |
| `Indicators.BandsConstantAt` | src/utils/indicators.ts:52-58 | At a defined index of a constant series the standard deviation is 0, so both bands equal the SMA there. |
| `Indicators.Changes` | src/utils/indicators.ts:77-79 | There is one change per consecutive pair of prices (none for an empty series). |
| `Indicators.Gains` | src/utils/indicators.ts:82 | The gains have one entry per change, and they are non-negative. |
| `Indicators.Losses` | src/utils/indicators.ts:83 | The losses have one entry per change, and they are non-negative. |
| `Indicators.WilderStep` | src/utils/indicators.ts:94-95 | One smoothing step keeps non-negative inputs non-negative and zero inputs zero, and it is positive when the new entry is. |
| `Indicators.WilderStepLaw` | src/utils/indicators.ts:94-95 | A smoothing step satisfies `r * period == avg * (period - 1) + x`: the new average is `period - 1` shares of the old one and one share of the new entry. |
| `Indicators.WilderAvg` | src/utils/indicators.ts:86-95 | The smoothed average of non-negative entries is non-negative. |
| `Indicators.RsiValue` | src/utils/indicators.ts:90 | The RSI formula, with a zero loss replaced by 0.001, always yields a value in [0, 100). |
| `Indicators.RsiSeries` | src/utils/indicators.ts:72-102 | The RSI has `max(len, period + 1)` entries. |
| `Indicators.PriceChanges` | src/utils/indicators.ts:77-79 | The first loop yields exactly the consecutive differences. |
| `Indicators.SmoothedRsiValues` | src/utils/indicators.ts:86-97 | The seeded averages, smoothed one change at a time, give one RSI value per step, each made from Wilder's averages after that change. |
| `Indicators.CalculateRsi` | src/utils/indicators.ts:72-102 | The loops produce exactly the RSI series: `period` undefined entries, then one value per price from index `period` on. |
| `Indicators.RsiShape` | src/utils/indicators.ts:90-101 | When `1 <= period < len`, the RSI is aligned with the input, exactly its first `period` entries are undefined, and every value lies in [0, 100). |
| `Indicators.RsiGainsLosses` | src/utils/indicators.ts:82-83 | Each change splits into a non-negative gain and a non-negative loss whose difference is the change. |
| `Indicators.RsiSeeds` | src/utils/indicators.ts:86-87 | The first average gain and loss are the means of the first `period` gains and losses. |
| `Indicators.RsiZeroLoss` | src/utils/indicators.ts:90 | A zero average loss gives the same RSI as a loss of 0.001, namely `100 - 100 / (1 + gain/0.001)`. |
| `Indicators.WilderAvgZero` | src/utils/indicators.ts:86-95 | Wilder's average of all-zero entries stays zero. |
| `Indicators.RsiNeverRising` | src/utils/indicators.ts:72-102 | A series that never rises has RSI 0 at every defined index; a flat series also reads 0, not 50. |
| `Indicators.RsiNeverFalling` | src/utils/indicators.ts:72-102 | A series that never falls has no losses. So every defined RSI value uses the 0.001 substitute: it is `100 - 100 / (1 + avgGain / 0.001)`, below 100. |
| `Indicators.WilderAvgPositive` | src/utils/indicators.ts:86-95 | Wilder's average of positive entries is positive once the seed window is full. |
| `Indicators.RsiRising` | src/utils/indicators.ts:72-102 | For a strictly rising series with more prices than the period, every average gain from the seed on is positive, and every defined RSI value is `100 - 100 / (1 + 1000 * avgGain)`, strictly between 0 and 100. |
| `Indicators.RsiRisingAt` | src/utils/indicators.ts:82-101 | At one index `i >= period` of a strictly rising series, the average gain after change `i - 1` is positive, the average loss is zero, and the RSI is `100 - 100 / (1 + 1000 * avgGain)`, strictly between 0 and 100. |
| `Indicators.RisingValue` | src/utils/indicators.ts:90 | With no loss, a positive average gain `g` gives `g / 0.001 == 1000 g` and a positive RSI. |
| `Indicators.Compact` | src/utils/indicators.ts:121 | The NaN filter never lengthens the line. |
| `Indicators.CompactDefinedSuffix` | src/utils/indicators.ts:121 | When the defined entries are exactly a suffix, the filter returns exactly that suffix's values, in order. |
| `Indicators.MacdLine` | src/utils/indicators.ts:115-118 | The MACD line has one entry per price. |
| `Indicators.Histogram` | src/utils/indicators.ts:129-132 | The histogram has one entry per MACD-line entry. |
| `Indicators.Differences` | src/utils/indicators.ts:116-118 | The difference loop yields the index-wise NaN-propagating difference of two series. The MACD line and the histogram both use it (lines 116-118 and 130-132). |
| `Indicators.SignalLine` | src/utils/indicators.ts:121-126 | The corrected signal line is never shorter than the MACD line, and it has exactly its length once the filtered line holds `signal` values. Every defined entry sits at index `len - valid + signal - 1` or later. |
| `Indicators.MacdSeries` | src/utils/indicators.ts:105-139 | The MACD line and the histogram have one entry per price. The histogram is defined exactly where both the MACD line and the (corrected) signal line are. |
| `Indicators.CalculateMacd` | src/utils/indicators.ts:105-139 | The loops produce exactly the MACD series, with the signal line's padding corrected to `len - valid`. |
| `Indicators.MacdLineDefined` | src/utils/indicators.ts:111-118 | The MACD line is defined exactly from index `max(fast, slow) - 1` on, where it is the fast EMA minus the slow EMA. |
| `Indicators.MacdShape` | src/utils/indicators.ts:111-121 | When the data can fill the slower EMA window: the MACD line is aligned with the input and defined exactly from index `max(fast, slow) - 1` on; the filtered line has one value per defined entry, and its `j`-th value is the MACD line at `j + max(fast, slow) - 1`. |
| `Indicators.MacdSignalValues` | src/utils/indicators.ts:121-126 | With enough data for one signal value, the signal line, with the padding corrected, is aligned with the input: undefined before index `max(fast, slow) - 1`, and from there the EMA of the filtered line at the matching position. |
| `Indicators.MacdSignalShape` | src/utils/indicators.ts:121-132 | With enough data for one signal value, the corrected signal line and the histogram are aligned with the input and undefined exactly for the first `max(fast, slow) - 1 + signal - 1` indices. |
| `Indicators.MacdConstant` | src/utils/indicators.ts:105-139 | On a constant series every defined MACD, signal and histogram value is 0. |
| `Indicators.CompactZero` | src/utils/indicators.ts:121 | Filtering a line whose defined values are zero leaves only zeros. |
| `Indicators.MacdAsWrittenLags` | src/utils/indicators.ts:125-131 | As written, the signal line equals the aligned one delayed by `signal - 1` entries. It is `signal - 1` entries longer than the prices, and the histogram is undefined at the first index where the aligned one has a value. |
| `Indicators.SignalDelayed` | src/utils/indicators.ts:125-126 | The padding as written is the aligned padding plus `signal - 1` more undefined entries. |
| `Indicators.SignalLineAsWritten` | src/utils/indicators.ts:121-126 | As written, the signal line is `signal - 1` entries longer than the corrected one, so it is at least `len + signal - 1` long. |
| `Indicators.MacdSeriesAsWritten` | src/utils/indicators.ts:105-139 | As written, the MACD line is the aligned one, the signal line is at least `signal - 1` entries longer than the prices, and the histogram has one entry per price. |
| `Indicators.MacdConstantAsWritten` | src/utils/indicators.ts:121-132 | The delay changes positions, not values: on a constant series every defined signal and histogram entry as written is still 0. |
| `Indicators.MacdAsWrittenExample` | src/utils/indicators.ts:125 | With prices [1, 2, 3, 4] and periods 1, 2, 2, the signal line as written has five entries. |
| `Indicators.SupportResistanceSeries` | src/utils/indicators.ts:142-165 | Support and resistance have one entry per price. |
| `Indicators.EnvelopePoint` | src/utils/indicators.ts:150-161 | The loop body yields the envelope at index `i`: NaN for the first `period` indices, otherwise the window's minimum and maximum. |
| `Indicators.CalculateSupportResistance` | src/utils/indicators.ts:142-165 | The loop, with its early `continue` for the first `period` indices, produces exactly the envelope series. |
| `Indicators.SupportResistanceWindow` | src/utils/indicators.ts:149-161 | The envelope is undefined exactly for `i < period`. From there, support and resistance are elements of the `period` prices before `i` (the current price excluded) and bound every one of them, so support <= resistance. |
| `Indicators.SupportResistanceInRange` | src/utils/indicators.ts:156-158 | Support and resistance stay within the minimum and maximum of the whole series. |
| `AppContext.Without` | src/context/AppContext.tsx:171 | Filtering never lengthens the list. |
| `AppContext.ToggleIndicator` | src/context/AppContext.tsx:168-174 | A toggle flips whether the indicator is enabled and leaves every other indicator's membership as it was. |
| `AppContext.InitialToggles` | src/context/AppContext.tsx:137 | From the initial `["bollinger", "rsi"]`, enabling EMA appends it, disabling RSI leaves `["bollinger"]`, and toggling MACD twice restores the list. |
| `AppContext.WithoutSubsequence` | src/context/AppContext.tsx:171 | The filter keeps the order of what it keeps: its result is a subsequence of the list. |
| `AppContext.WithoutCounts` | src/context/AppContext.tsx:171 | The filter removes every occurrence of the indicator and keeps each other indicator as often as before. |
| `AppContext.SubsequenceOfTail` | src/context/AppContext.tsx:171 | A subsequence of the tail of a list is a subsequence of the list. |
| `AppContext.SubsequenceDropHead` | src/context/AppContext.tsx:171 | Dropping the head of a subsequence leaves a subsequence. |
| `AppContext.ToggleRemoves` | src/context/AppContext.tsx:168-174 | Toggling an enabled indicator removes every occurrence of it and keeps the other entries, with the same multiplicities, in their order. |
| `AppContext.ToggleAppends` | src/context/AppContext.tsx:168-174 | Toggling a disabled indicator appends it at the end and leaves the earlier entries as they were. |
| `AppContext.WithoutAbsent` | src/context/AppContext.tsx:171 | Filtering out an absent indicator changes nothing. |
| `AppContext.WithoutAppend` | src/context/AppContext.tsx:171-172 | Filtering distributes over appending at the end. |
| `AppContext.ToggleTwiceRestores` | src/context/AppContext.tsx:168-174 | Toggling a disabled indicator twice restores the list. |
| `AppContext.WithField` | src/context/AppContext.tsx:181 | `{...current, [type]: value}` sets the chosen field and keeps the other. |
| `AppContext.Current` | src/context/AppContext.tsx:180 | `get(symbol) \|\| {above: null, below: null}`: the stored thresholds of a present symbol, and no thresholds for a missing one. |
| `AppContext.InitialAlertsValid` | src/context/AppContext.tsx:142-150 | The initial map is consistent and holds all five symbols without thresholds. |
| `AppContext.MapSet` | src/context/AppContext.tsx:181 | `Map.set` keeps the map consistent: each key appears once in the insertion order, and the order lists exactly the keys. |
| `AppContext.SetAlert` | src/context/AppContext.tsx:177-183 | Setting an alert keeps the map consistent. |
| `AppContext.RemoveAlert` | src/context/AppContext.tsx:194-201 | Removing an alert keeps the map consistent. |
| `AppContext.SetAlertChangesOneField` | src/context/AppContext.tsx:177-183 | Only the chosen field of the chosen symbol changes. A missing symbol starts with no thresholds. Every other symbol keeps its thresholds. The key order changes only when a new key is appended. |
| `AppContext.RemoveAlertIsSetNull` | src/context/AppContext.tsx:194-201 | Removing an alert acts on the map exactly as setting it to `null`. |
| `AppContext.ThresholdPriceFiresNeither` | src/context/AppContext.tsx:225-232 | A price equal to a threshold fires neither alert; the comparisons are strict. |
| `AppContext.AboveFires` | src/context/AppContext.tsx:225 | The "above" alert fires when its threshold is set and the price is strictly above it. Its properties are stated by `FiresMonotone`, `ThresholdPriceFiresNeither` and `BothFire`. |
| `AppContext.BelowFires` | src/context/AppContext.tsx:232 | The "below" alert fires when its threshold is set and the price is strictly below it. Its properties are stated by `FiresMonotone`, `ThresholdPriceFiresNeither` and `BothFire`. |
| `AppContext.BothFire` | src/context/AppContext.tsx:225-232 | Both alerts fire on one price only when both thresholds are set and the "above" threshold is below the "below" threshold. |
| `AppContext.FiresMonotone` | src/context/AppContext.tsx:225-232 | A price that fires the "above" alert is still above its threshold at any higher price; a price that fires the "below" alert is still below it at any lower price. |
| `AppContext.QuoteNotices` | src/context/AppContext.tsx:223-238 | One refreshed price raises at most two toasts, all for its own symbol, and "above" before "below" when it raises two. |
| `AppContext.AlertNoticesSnoc` | src/context/AppContext.tsx:222 | The toasts of a refresh ending with one more price are the earlier toasts followed by that price's toasts: `forEach` handles the prices in order. |
| `AppContext.AlertNotices` | src/context/AppContext.tsx:222-240 | One refresh raises at most two toasts per refreshed price. |
| `AppContext.CheckAlerts` | src/context/AppContext.tsx:222-240 | The forward pass over the refreshed prices raises exactly the toasts of `AlertNotices`, in list order, "above" before "below". |
| `AppContext.QuoteNoticesExact` | src/context/AppContext.tsx:223-238 | One refreshed price raises an "above" toast with threshold v exactly when its symbol has the "above" threshold v and the price is strictly above it. Likewise for "below". |
| `AppContext.AboveNoticesExact` | src/context/AppContext.tsx:222-231 | A refresh raises an "above" toast with threshold v for a symbol exactly when some refreshed price of that symbol is strictly above its set threshold v. |
| `AppContext.BelowNoticesExact` | src/context/AppContext.tsx:222-240 | A refresh raises a "below" toast with threshold v for a symbol exactly when some refreshed price of that symbol is strictly below its set threshold v. |
| `AppContext.DaysMonotone` | src/context/AppContext.tsx:261 | Longer ranges never fetch fewer days or points. Every range fetches 1 to 365 days at 24 points a day, and "max" fetches no more than "1y". |
| `AppContext.Days` | src/context/AppContext.tsx:261 | Every range fetches between 1 and 365 days, and exactly "1y" and "max" fetch the 365 of the fallthrough. |
| `AppContext.TotalPoints` | src/context/AppContext.tsx:269-271 | The point count is a whole number of days of 24 points, between 24 and 24 * 365. |
| `AppContext.PointsSpanRange` | src/context/AppContext.tsx:269-272 | The spacing is one hour, and `totalPoints` steps of it span exactly the range's days. |
| `AlertSettings.EntryAlerts` | src/components/AlertSettings.tsx:47-50 | One map entry contributes at most two rows. |
| `AlertSettings.ActiveAlertsOf` | src/components/AlertSettings.tsx:46-51 | The flattened list has at most two rows per entry. |
| `AlertSettings.ActiveAlerts` | src/components/AlertSettings.tsx:46-51 | The active-alert list has at most two rows per symbol. |
| `AlertSettings.ActiveAlertsOfExact` | src/components/AlertSettings.tsx:46-51 | A row is listed exactly when its symbol is among the entries and its threshold of that kind is set to the row's value. |
| `AlertSettings.ActiveAlertsExact` | src/components/AlertSettings.tsx:46-51 | The list shows every set threshold, and nothing else. |
| `AlertSettings.Position` | src/components/AlertSettings.tsx:46 | The position of a key is an index holding that key. |
| `AlertSettings.HeadSlots` | src/components/AlertSettings.tsx:47-50 | The rows of the first entry take the first two slots, "above" first. |
| `AlertSettings.TailSlots` | src/components/AlertSettings.tsx:46-47 | The rows of later entries sit two slots further on. |
| `AlertSettings.ConcatSlots` | src/components/AlertSettings.tsx:47 | Rows in slots 0 and 1, followed by rows in increasing slots from 2 on, are in increasing slots. |
| `AlertSettings.ActiveAlertsOfOrdered` | src/components/AlertSettings.tsx:46-51 | The rows follow the order of the entries, with "above" before "below" for each symbol. |
| `AlertSettings.ActiveAlertsOrdered` | src/components/AlertSettings.tsx:46-51 | The list is ordered by the map's insertion order, "above" before "below" within a symbol. |
| `AlertSettings.DistinctCardinality` | src/components/AlertSettings.tsx:46-51 | A list without repeats has as many elements as its set. |
| `AlertSettings.RowKeys` | src/components/AlertSettings.tsx:47-50 | Each row's symbol and side, one per row, in list order. |
| `AlertSettings.RowKeysDistinct` | src/components/AlertSettings.tsx:46-51 | No two rows share a symbol and a side. |
| `AlertSettings.RowKeysAreSetThresholds` | src/components/AlertSettings.tsx:46-51 | The symbol-and-side pairs of the rows are exactly the pairs whose threshold is set. |
| `AlertSettings.ActiveAlertsCount` | src/components/AlertSettings.tsx:46-51 | The list has exactly one row per set threshold, and so at most two per symbol. |
| `AlertSettings.InitialAlertsInactive` | src/components/AlertSettings.tsx:46-51 | The initial alert map lists no active alerts. |
| `AlertSettings.HandleSetAlert` | src/components/AlertSettings.tsx:28-32 | The form never leaves the alert map inconsistent. |
| `AlertSettings.HandleSetAlertRejects` | src/components/AlertSettings.tsx:30 | An empty or unparsable input changes neither the form nor the map. |
| `AlertSettings.InitialFormRejected` | src/components/AlertSettings.tsx:12-14 | The form starts with an empty input, so pressing the button before typing changes neither the form nor the map. |
| `AlertSettings.ActiveAfterSet` | src/context/AppContext.tsx:177-183 | After setting a threshold, a row is listed for the chosen symbol and side exactly when the new value is set and equals the row's value; every other row is listed exactly when it was listed before. |
| `AlertSettings.HandleSetAlertAccepts` | src/components/AlertSettings.tsx:28-32 | An accepted input clears the text field and makes the parsed threshold the only row for its symbol and side. Every other row stays as it was. |
| `AlertSettings.RemoveAlertDeactivates` | src/context/AppContext.tsx:194-201 | After a removal no row for that symbol and side is listed, and every other row stays as it was. |

## Left out

- Floating point is not modelled. Prices are exact reals, so the model has no rounding, no overflow to infinity, and no NaN produced by arithmetic; NaN appears only as the padding marker `None`.
- `Math.sqrt` is a parameter, constrained only by `SqrtLaw`.
- `parseFloat` is a parameter: the model does not fix which strings parse, or to what.
- AlertSettings.HandleSetAlert: infinite thresholds cannot be represented, because `parse` returns a real or `None`. In the source, `parseFloat("Infinity")` or `parseFloat("1e999")` passes the guard, since `isNaN(Infinity)` is false. The stored "above" of Infinity then never fires, and a "below" of Infinity fires on every refresh. The model does not capture this.
- Indicators.CalculateSma, Indicators.CalculateEma, Indicators.CalculateBollingerBands and Indicators.CalculateMacd require every period to be at least 1. With period 0 the source throws a `RangeError` from `Array(-1)`.
- Indicators.CalculateRsi requires `period >= 1`. With period 0 the source divides 0 by 0 and returns NaN values.
- Indicators.CalculateSupportResistance requires `period >= 1`. With period 0 the source takes `Math.min`/`Math.max` of an empty window and returns +Infinity/-Infinity, which reals cannot express.
- Fractional and negative periods are outside the model: periods are natural numbers.
- Default parameter values (20 and 2 for the bands, 14 for the RSI and the envelope, 12/26/9 for MACD) are not modelled; the caller always passes the periods.
- The random price moves of the refresh and of the generated history, the clock (`Date.now`), and the generated history prices themselves are left out.
- The toast pop-ups are left out. Their texts and languages are out of scope, but the alert check returns which toasts it raises.
- The confirmation toast of `setAlert` (AppContext.tsx:185-190) is left out: it is a pop-up only.
- React's state sequencing is not modelled: the updaters are modelled as pure functions. Neither are stale closures: the alert check reads the `alerts` map it is given, as the callback reads the one in its closure.
- The alert check depends on the refreshed list. Which symbols the refresh lists, and at what prices, is a parameter.
- Rendering, the other panels, the chart drawing, the API client and the AI recommendation are not part of this model.

## Findings

| source | as written | input that shows it | evidently intended | confidence | as-written member | corrected member |
|---|---|---|---|---|---|---|
| src/utils/indicators.ts:125 | The signal line is padded with `len - valid + signal - 1` NaNs. `calculateEMA` already puts `signal - 1` NaNs in front, so the padded signal line has `len + signal - 1` entries and each value sits `signal - 1` places after the MACD value it belongs to. The histogram therefore subtracts a stale signal, and it loses its first `signal - 1` values. | prices [1, 2, 3, 4], fast 1, slow 2, signal 2: the signal line has 5 entries for 4 prices | padding of `len - valid` NaNs, so that signal, histogram and prices are aligned | not executed | `Indicators.MacdAsWrittenLags` | `Indicators.MacdSignalShape` |
