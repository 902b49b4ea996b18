# BTC-Tracker dashboard: indicator engine and rule layers in Dafny

The BTC-Tracker dashboard fetches weekly (or daily, or monthly) candles for
BTCUSDT or PAXGUSDT. It enriches them with moving averages, an RSI and a
trend classification, then runs a set of rule layers over the enriched
history:

- a BUY/SELL/NEUTRAL system signal;
- an alert backtester with a four-candle lookahead;
- a five-check trend confluence score;
- macro valuation flags;
- a plain-language recommendation;
- a position simulator measured from the last touch of the 200-period floor;
- the chart's brush window;
- the fear/greed gauge;
- the halving-cycle progress card;
- an inflation-adjusted comparison;
- the normalisation of the AI commentary's scores.

This project models that core in Dafny and proves what each layer promises.

## How the model is organised

There is one module per source file:

| module | source file |
|---|---|
| `Indicators` | `services/cryptoApi.ts` |
| `App` | `App.tsx` |
| `AlertPerformance` | `components/AlertPerformance.tsx` |
| `TrendConfluence` | `components/TrendConfluence.tsx` |
| `MacroValuation` | `components/MacroValuation.tsx` |
| `SimplifiedDashboard` | `components/SimplifiedDashboard.tsx` |
| `PositionSimulator` | `components/PositionSimulator.tsx` |
| `ChartSection` | `components/ChartSection.tsx` |
| `AlertManager` | `components/AlertManager.tsx` |
| `FearGreedGauge` | `components/FearGreedGauge.tsx` |
| `CycleProgress` | `components/CycleProgress.tsx` |
| `InflationTracker` | `components/InflationAdjustedTracker.tsx` |
| `GeminiService` | `services/geminiService.ts` |

The reserves colour rule appears twice in the source, as `getReservesColor` in `components/CycleProgress.tsx:56-63` and in `components/SimplifiedDashboard.tsx:74-81`; the two copies are identical and are modelled once, as `CycleProgress.ReservesColorOf`.

Two more modules support them:

- `Types` transcribes `types.ts`.
- `Text` models `toLowerCase` and `includes`.

Representation:

- Prices are `real`.
- An optional field of a candle is an `Option`. `None` stands for `undefined` or `null`.
- JavaScript truthiness is explicit:
  - `Truthy(x)` means present and non-zero.
  - `OrElse(x, d)` is `x || d`.
  - `NonEmpty(s)` means a present, non-empty string.

The source's loops are methods checked against specification functions:

- `calculateSMA`, `calculateWMA` and `calculateRSI` fill a local array.
- `enrichWithAverages` makes three passes over a copied array of candles.
- The backtest loop keeps three counters.
- The backward floor search uses `break`.

State the source keeps in React components is held in classes:

- `App.Dashboard`: the system signal, the alert list, the AI commentary and its cache.
- `PositionSimulator.Simulator`: the stake and the side.
- `ChartSection.ChartView`: the brush indices.
- `AlertManager.AlertForm`: the form fields.

Everything else is a function.

Inputs the source gets from the environment become parameters:

- `Date.now()` becomes `now`.
- The fresh alert id is supplied by the caller.
- The browser cache becomes a `map`.
- The AI reply is supplied, with `None` standing for a thrown error.
- `parseFloat` is supplied as a function.

## Model

| member | source | states |
|---|---|---|
| Indicators.CalculateSMA | services/cryptoApi.ts:44-59 | the output has the input's length; entry `k` is 0 before the window fills and otherwise the window mean `WindowSum(data, k+1-period, k+1)/period`; the loop's sliding update `sum - data[i-period] + data[i]` is proved equal to the direct window sum |
| Indicators.WindowSumDropFront | services/cryptoApi.ts:55 | sliding the window forward by one subtracts exactly the dropped element |
| Indicators.SmaWithinWindow | services/cryptoApi.ts:52-56 | a full-window SMA lies between the smallest and the largest value of its window |
| Indicators.CalculateWMA | services/cryptoApi.ts:61-75 | the output has the input's length; entry `k` is 0 before the window fills and otherwise the sum of `data[k-j]*(period-j)` over `j < period`, divided by `period(period+1)/2` |
| Indicators.WeightsFull | services/cryptoApi.ts:65 | the weights `period, period-1, ..., 1` sum to the divisor `period(period+1)/2` |
| Indicators.WmaWithinWindow | services/cryptoApi.ts:67-73 | a full-window WMA lies between the smallest and the largest value of its window |
| Indicators.CalculateRSI | services/cryptoApi.ts:77-106 | the output has the input's length; entries `0..period` are 50; later entries follow the seeded Wilder recurrence (`Smooth`) and `100 - 100/(1+rs)` with `rs = 100` when the average loss is 0 |
| Indicators.SeedTotals | services/cryptoApi.ts:84-88 | the seed loop yields the total gain and the total loss of the first `period` changes, a zero change counting as a gain |
| Indicators.SmoothNext | services/cryptoApi.ts:94-102 | one step of the loop (gain, loss, both Wilder updates, the RSI) agrees with the recurrence `Smooth` and keeps both averages non-negative |
| Indicators.RsiOf | services/cryptoApi.ts:101-102 | the RSI of smoothed averages lies in [0, 100); it is `100 - 100/101` (not 100) when the average loss is 0, and 0 exactly when there is no gain but some loss |
| Indicators.RsiRangeAll | services/cryptoApi.ts:78-103 | every RSI entry lies in [0, 100) |
| Indicators.NonFallingSeriesRsi | services/cryptoApi.ts:98-102 | on a series that never falls, every RSI past index `period` equals `100 - 100/101` |
| Indicators.FallingSeriesRsiZero | services/cryptoApi.ts:98-102 | on a strictly falling series, every RSI past index `period` is 0 |
| Indicators.ChangeBetween | services/cryptoApi.ts:138-141 | the change marker is TO_BULL exactly for BEAR then BULL, TO_BEAR exactly for BULL then BEAR, and absent when the previous trend is absent or equal |
| Indicators.EnrichWithAverages | services/cryptoApi.ts:108-146 | the result is `Enrich(data)`: [] for no data; otherwise candle by candle, the copy after the averages pass, the RSI pass and the trend pass |
| Indicators.AttachAverages | services/cryptoApi.ts:121-127 | after the first pass every candle carries the averages where they are positive (else none), with `wma200` set to `sma200` |
| Indicators.AttachRsi | services/cryptoApi.ts:129-132 | after the second pass every candle carries `rsi || 50` |
| Indicators.AttachTrend | services/cryptoApi.ts:134-143 | the third pass leaves each candle classified against the trend it already wrote on the previous candle (`ClassifiedAt` of the array it started from) |
| Indicators.Classified | services/cryptoApi.ts:134-141 | the third pass touches only the trend and change fields, and the trend it leaves is BULL or BEAR from the close against a truthy wma50, else the copied one |
| Indicators.WmaPositive | services/cryptoApi.ts:66-73 | over positive closes a WMA entry is positive exactly once its window is full |
| Indicators.SmaPositive | services/cryptoApi.ts:48-56 | over positive closes an SMA entry is positive exactly once its window is full |
| Indicators.AveragesDefinedAfterWarmup | services/cryptoApi.ts:121-126 | with positive closes, wma50, wma100 and sma200 are present exactly from index 49, 99 and 199; `wma200` always equals `sma200` |
| Indicators.EnrichedCandleShape | services/cryptoApi.ts:111-132 | every enriched candle keeps its time and OHLCV fields and carries an RSI strictly between 0 and 100 |
| Indicators.TrendFollowsWma50 | services/cryptoApi.ts:134-137 | on fetched candles the trend is present exactly where wma50 is, and BULL exactly when close >= wma50 |
| Indicators.TrendChangeMarksFlips | services/cryptoApi.ts:138-141 | on fetched candles the first candle has no change marker; later ones are TO_BULL exactly after a BEAR-to-BULL flip and TO_BEAR exactly after a BULL-to-BEAR flip |
| Indicators.EnrichIdempotent | services/cryptoApi.ts:108-146 | enriching an enriched series changes nothing |
| Indicators.FallingSeriesEnrichedRsi | services/cryptoApi.ts:131 | on a strictly falling series every enriched RSI is 50, because the computed 0 is replaced by the `|| 50` fallback |
| App.SystemSignalRule | App.tsx:43-84 | no data or no firing rule sets nothing; the rules apply in order: BUY/historic opportunity when the close is under a truthy sma200, else BUY/support confirmed when the previous close was under it and the latest is at or above it, else SELL/bear phase under a truthy wma50, else BUY/uptrend at or above it; a recovery needs two candles |
| App.BelowSma200Preempts | App.tsx:50-58 | a close under a truthy sma200 gives BUY whatever wma50 holds |
| App.WarmupKeepsNeutral | App.tsx:32 | with fewer than 50 positive enriched candles no rule fires, so the initial NEUTRAL signal stays |
| App.Dashboard.ProcessSystemSignal | App.tsx:43-84 | the signal becomes the rule's result, or stays as it was when no rule fires |
| App.ActivePrice | App.tsx:39-41 | the last close, or 0 without data |
| App.ActivePriceAfterEnrich | App.tsx:39-41 | enrichment does not change the displayed price |
| App.CurrentAsset | App.tsx:37 | a supported asset with the requested symbol, otherwise the first supported asset |
| App.FindAsset | App.tsx:37 | the asset found carries the requested symbol and is the first in the list that does; none is found only when no asset has that symbol |
| App.CacheHit | App.tsx:87-96 | a cached commentary is used exactly when the entry for this symbol and language exists and is younger than 15 minutes |
| App.RequestFor | App.tsx:98-110 | a request goes out exactly when the latest candle has a truthy sma200; it carries `wma50 || price`, `rsi || 50` and the commodity flag of the asset |
| App.RequestNeedsFullHistory | App.tsx:98-99 | on positive enriched candles a request needs at least 200 candles, and its RSI lies in (0, 100) |
| App.Dashboard.TriggerAIAnalysis | App.tsx:86-121 | a fresh cache hit is shown with no request; otherwise the guarded request is made, and only a non-null reply is shown and stored with its timestamp |
| App.RemoveId | App.tsx:206 | the alerts kept are exactly those whose id differs |
| App.WithId | App.tsx:206 | the stored alert is the draft with the given id, every other field kept |
| App.RemoveIdConcat | App.tsx:206 | deleting works alert by alert, so the survivors keep their order |
| App.RemoveAbsentId | App.tsx:206 | deleting an id no alert carries leaves the list unchanged |
| App.AddThenDelete | App.tsx:206 | adding an alert under a fresh id, then deleting that id, restores the list |
| App.RemoveIdIdempotent | App.tsx:206 | deleting the same id twice is deleting it once |
| App.Dashboard.AddAlert | App.tsx:206 | the draft is appended with the caller's id |
| App.Dashboard.DeleteAlert | App.tsx:206 | the list becomes `RemoveId` of the old list |
| App.Dashboard.constructor | App.tsx:30-33 | the dashboard starts on BTCUSDT with the stored language, the NEUTRAL awaiting-data signal, no alerts and no commentary |
| AlertPerformance.TallyTo | components/AlertPerformance.tsx:23-55 | after scanning indices `1..n-1`, wins <= triggers <= n-1 |
| AlertPerformance.MetricsOf | components/AlertPerformance.tsx:57-62 | the win rate lies in [0, 100], times the trigger count it is 100 x the wins, and it is 100 exactly when every trigger won; with no trigger both figures are 0; otherwise the average times the trigger count is the total return |
| AlertPerformance.BacktestAlert | components/AlertPerformance.tsx:17-63 | the loop over `i in 1..length-5` with its three counters yields the metrics of `TallyTo` |
| AlertPerformance.Stats | components/AlertPerformance.tsx:14-17 | under 10 candles there are no records; otherwise there is one record per alert, in order, and record k is `AlertMetrics` of alert k |
| AlertPerformance.AlertMetrics | components/AlertPerformance.tsx:17-63 | one alert's record carries its id, at most `length-5` triggers and a win rate in [0, 100] |
| AlertPerformance.MaField | components/AlertPerformance.tsx:35-36 | `wma${value}` reads wma50, wma100 or wma200 for 50, 100 or 200, and nothing for any other level |
| AlertPerformance.TriggerDirection | components/AlertPerformance.tsx:30-44 | a price alert fires only on a close that moved strictly in its direction; an alert and its opposite never fire on the same pair of candles; an average alert fires only for the levels 50, 100 and 200 |
| AlertPerformance.PerformanceStats | components/AlertPerformance.tsx:14-64 | the loop over the alerts produces `Stats` |
| AlertPerformance.PctChange | components/AlertPerformance.tsx:49 | the four-candle return is positive exactly on a rise and negative exactly on a fall |
| AlertPerformance.IgnoresSymbolAndActivity | components/AlertPerformance.tsx:17-55 | the alert's symbol and active flag do not affect its statistics |
| AlertPerformance.UnknownAverageNeverFires | components/AlertPerformance.tsx:34-44 | an average alert whose level is not 50, 100 or 200 never fires |
| AlertPerformance.NoCrossNoTrigger | components/AlertPerformance.tsx:30-31 | a PRICE_ABOVE alert never fires on a history that never closes at or below its level |
| AlertPerformance.CrossAtFiveScenario | components/AlertPerformance.tsx:23-61 | a BUY alert at 100 over closes crossing 99 to 101 at index 5 and reaching 110 four candles later gives one trigger, a 900/101 % return and a win rate of 100 |
| TrendConfluence.Checks | components/TrendConfluence.tsx:18-49 | the five checks appear in order with weights 30, 20, 15, 25 and 10; each passes exactly when its condition holds: close above a truthy wma50, a truthy RSI above 50, a truthy RSI below 70, both wma50 and wma200 truthy with wma50 above wma200, and a close above the previous close |
| TrendConfluence.Score | components/TrendConfluence.tsx:51 | the score is at most the total weight, is a multiple of 5 when every weight is, and equals the total weight when every check passes |
| TrendConfluence.ConfluenceOf | components/TrendConfluence.tsx:13-54 | none below two candles; otherwise the checks on the last two candles and their `Score`, which lies in [0, 100] and is a multiple of 5; the bullish flag holds exactly when it is at least 75 |
| TrendConfluence.FiveChecks | components/TrendConfluence.tsx:51 | the score of five checks is the sum of the weights of those that pass |
| TrendConfluence.BullishNeedsPriceAndRsi | components/TrendConfluence.tsx:22-52 | a bullish alert needs the close strictly above a truthy wma50 and a truthy RSI |
| TrendConfluence.AllChecksScenario | components/TrendConfluence.tsx:18-52 | wma50 100, wma200 90, close 105 and RSI 55 after a close of 100 score 100 and raise the alert |
| MacroValuation.Valuation | components/MacroValuation.tsx:13-40 | a placeholder without data; "calculating" exactly when wma50, wma200 or rsi is absent (`IsDataReady` fails; 0 counts as present); otherwise undervalued iff close <= 1.03 x wma200 or rsi < 32, overbought iff rsi > 72 or close > 1.8 x wma50 |
| MacroValuation.EquilibriumBand | components/MacroValuation.tsx:72 | equilibrium shows exactly when 1.03 x wma200 < close <= 1.8 x wma50 and 32 <= rsi <= 72 |
| MacroValuation.BothFlagsPossible | components/MacroValuation.tsx:44-70 | both warning cards can show at once |
| MacroValuation.OversoldScenario | components/MacroValuation.tsx:35-40 | close 300000, wma200 205000, wma50 200000 and RSI 25 are undervalued through the RSI alone and not overbought |
| MacroValuation.ReadyAfterTwoHundred | components/MacroValuation.tsx:24 | on positive enriched candles the verdict appears exactly from 200 candles on |
| SimplifiedDashboard.ClampPrediction | components/SimplifiedDashboard.tsx:20 | the bar value is clamped to [0, 100] and unchanged inside it |
| SimplifiedDashboard.ShouldAlertThreshold | components/SimplifiedDashboard.tsx:21-22 | `ShouldAlert` ignores letter case, and on a bar whose label contains "reversal" or "reversão" (`IsReversalLabel`) it fires exactly when the raw value exceeds 60 |
| SimplifiedDashboard.AiOutlook | components/SimplifiedDashboard.tsx:47-54 | none without commentary; reversal iff probReversal > 60; bullish iff not reversal and rise > 60 and rise > fall; bearish iff not reversal and fall > 60 and fall > rise |
| SimplifiedDashboard.OutlookConfidence | components/SimplifiedDashboard.tsx:162 | the confidence is the largest of the three probabilities |
| SimplifiedDashboard.DecidedOutlookIsConfident | components/SimplifiedDashboard.tsx:47-54 | any outlook but sideways is shown with a confidence above 60, and with every probability at most 60 it is sideways |
| SimplifiedDashboard.Recommend | components/SimplifiedDashboard.tsx:56-72 | neutral without data; buy iff close <= 1.05 x a truthy sma200 or `rsi || 50` < 35; otherwise sell iff rsi > 70; otherwise hodl iff the trend is BULL |
| SimplifiedDashboard.RecommendationFollowsFloorSignal | components/SimplifiedDashboard.tsx:60-64 | a system signal of a close under a positive sma200 comes with a buy recommendation, and a missing RSI never recommends selling |
| SimplifiedDashboard.HeadlineConfidence | components/SimplifiedDashboard.tsx:129 | 85 exactly in a BULL trend, else 72 |
| SimplifiedDashboard.AdjustedPrice | components/SimplifiedDashboard.tsx:89 | no anchor without a symbol; otherwise the same selection as the inflation tracker |
| PositionSimulator.LastFloor | components/PositionSimulator.tsx:19-25 | the largest index whose low is within 5 % above a truthy wma200 (`TouchesFloor`), or none when no candle touches |
| PositionSimulator.LastFloorIndex | components/PositionSimulator.tsx:19-25 | the backward loop with `break` returns that index, or -1 |
| PositionSimulator.Stats | components/PositionSimulator.tsx:16-35 | none below 52 candles or without a touch; otherwise the touch candle's close, the latest close, `weeksAgo = length-1-index` and the ROI between them, positive exactly when the price rose and above -100 % |
| PositionSimulator.RoiSign | components/PositionSimulator.tsx:31 | against a positive floor price the ROI is positive exactly when the price rose |
| PositionSimulator.FloorNeedsFullAverage | components/PositionSimulator.tsx:21 | on positive enriched candles a floor touch can only be at index 199 or later |
| PositionSimulator.LongShortMirror | components/PositionSimulator.tsx:39-43 | long and short profits cancel, the two total values add up to twice the stake, and a long stake profits exactly when the ROI is positive |
| PositionSimulator.Pnl | components/PositionSimulator.tsx:39-41 | 100 x the profit is the stake times the ROI for a long position and its negation for a short one |
| PositionSimulator.TotalValue | components/PositionSimulator.tsx:43 | the total value exceeds the stake by the profit; on a positive stake it stays positive while the position loses less than 100 % |
| PositionSimulator.RoiAboveTotalLoss | components/PositionSimulator.tsx:29-31 | between two positive prices the ROI is above -100 % |
| PositionSimulator.Simulator.constructor | components/PositionSimulator.tsx:13-14 | the stake starts at 1000, long |
| PositionSimulator.Simulator.SetInvestment | components/PositionSimulator.tsx:80-86 | the stake takes a slider value in 100..10000, step 100 |
| PositionSimulator.Simulator.SetSide | components/PositionSimulator.tsx:56-62 | the side buttons set the side |
| PositionSimulator.Simulator.Simulate | components/PositionSimulator.tsx:16-43 | the card is `Stats` together with `Pnl` and `TotalValue` for the current stake and side; on a valid stake a long position's total value stays positive |
| ChartSection.Point | components/ChartSection.tsx:96-111 | the point copies the date, open, high, low, close, volume, the three averages and the RSI; the body spans open to close and the wick low to high; the marker is present exactly where a trend change is, and sits on the close |
| ChartSection.Timeline | components/ChartSection.tsx:94-112 | one point per candle, in order |
| ChartSection.MarkersOnFlips | components/ChartSection.tsx:109 | on enriched candles the markers sit exactly where the trend flips |
| ChartSection.JsSlice | components/ChartSection.tsx:122 | `slice` on in-range bounds is the subsequence, and never longer than the array |
| ChartSection.Visible | components/ChartSection.tsx:120-123 | nothing for an empty timeline; for a brush inside the timeline exactly the points from its start to its end, both included; never more than the timeline |
| ChartSection.ResetBrush | components/ChartSection.tsx:115-116 | the reset brush ends on the last point and spans min(n, 150) points |
| ChartSection.VisibleAfterReset | components/ChartSection.tsx:114-123 | after a reset the chart shows the last min(n, 150) points, ending with the latest |
| ChartSection.BrushFromChange | components/ChartSection.tsx:193 | a missing index becomes 0 |
| ChartSection.MissingEndShowsOnePoint | components/ChartSection.tsx:193 | a change without an end index leaves at most one visible point |
| ChartSection.ChartView.Render | components/ChartSection.tsx:114-118 | the brush resets only when the timeline length or the symbol changed and the timeline is not empty |
| ChartSection.ChartView.constructor | components/ChartSection.tsx:91 | the chart starts with no timeline and the brush at (0, 0) |
| ChartSection.ChartView.BrushChanged | components/ChartSection.tsx:193 | the brush becomes `BrushFromChange` of the event |
| ChartSection.ChartView.VisibleData | components/ChartSection.tsx:120-123 | the chart shows the inclusive brushed range of its timeline when the brush lies inside it |
| ChartSection.IntervalLabelOf | components/ChartSection.tsx:45 | day exactly for "1d", week exactly for "1w", month otherwise |
| ChartSection.CandleColourOf | components/ChartSection.tsx:180 | green exactly when close >= open |
| ChartSection.FormatPrice | components/ChartSection.tsx:31-37 | dashes exactly for 0; otherwise no decimals above 1000 and two up to it |
| AlertManager.DraftOf | components/AlertManager.tsx:22-29 | no draft for an empty value; otherwise the chosen symbol, condition and side, the parsed value and an active flag |
| AlertManager.AlertForm.constructor | components/AlertManager.tsx:15-18 | the form starts on the first supported asset, PRICE_ABOVE, BUY and an empty value |
| AlertManager.AlertForm.SetSymbol | components/AlertManager.tsx:15 | the symbol field takes the chosen value |
| AlertManager.AlertForm.SetCondition | components/AlertManager.tsx:16 | the condition field takes the chosen value |
| AlertManager.AlertForm.SetValue | components/AlertManager.tsx:17 | the value field takes the typed text |
| AlertManager.AlertForm.SetSide | components/AlertManager.tsx:18 | the side field takes the chosen value |
| AlertManager.AlertForm.HandleSubmit | components/AlertManager.tsx:20-31 | the submit emits `DraftOf` and clears only the value, and only when a draft was emitted |
| AlertManager.DeleteButtonRemovesItsAlert | components/AlertManager.tsx:129 | deleting with an alert's own id removes it and keeps every alert with another id |
| AlertManager.SubmitAddDelete | components/AlertManager.tsx:23-29 | a submitted draft added under a fresh id is active, and deleting it restores the list |
| FearGreedGauge.Label | components/FearGreedGauge.tsx:15-21 | extreme fear iff score <= 25, neutral iff 45 < score <= 55, extreme greed iff score > 75 |
| FearGreedGauge.LabelMonotone | components/FearGreedGauge.tsx:15-21 | a higher score never gets a more fearful band |
| FearGreedGauge.Rotation | components/FearGreedGauge.tsx:24 | the needle is at -90, 0 and 90 degrees for scores 0, 50 and 100 |
| FearGreedGauge.RotationMonotone | components/FearGreedGauge.tsx:24 | the needle turns with the score and stays within +-90 degrees on the 0..100 scale |
| FearGreedGauge.LitTicks | components/FearGreedGauge.tsx:90-92 | mark `m` of 0, 25, 50, 75 and 100 is lit exactly when score >= m |
| FearGreedGauge.LitTicksArePrefix | components/FearGreedGauge.tsx:90-92 | the lit marks are a prefix of the row |
| FearGreedGauge.HeaderFor | components/FearGreedGauge.tsx:32-35 | the technical-sentiment header and caption show exactly while the commentary loads |
| CycleProgress.Stats | components/CycleProgress.tsx:19-54 | the progress lies in [0, 100]; BTCUSDT (also the default) gets halving progress, which between the two halvings is the elapsed share of the cycle in percent, and a days-left count d with (d-1) days < time left <= d days; PAXGUSDT gets 92 and gold scarcity; every other symbol gets 50 and the cycle stage |
| CycleProgress.Clamp | components/CycleProgress.tsx:27 | the clamped progress lies in the bounds and is unchanged inside them |
| CycleProgress.CeilDiv | components/CycleProgress.tsx:28 | the ceiling of a quotient is the least integer bound |
| CycleProgress.HalvingProgressMonotone | components/CycleProgress.tsx:24-27 | BTC progress never decreases over time; it is 0 up to the last halving and 100 from the next one on |
| CycleProgress.DaysLeftCountdown | components/CycleProgress.tsx:28 | days left is 0 at the next halving, 1 during its last day, and positive exactly before it |
| CycleProgress.ReservesColorOf | components/CycleProgress.tsx:56-63 | blue without a description; otherwise red exactly when an extreme-scarcity phrase occurs (`IsExtreme`), blue exactly when none does but a low phrase does (`IsLow`), green exactly when neither does but a high phrase does (`IsHigh`), orange when no phrase occurs |
| CycleProgress.ReservesColorIgnoresCase | components/CycleProgress.tsx:56-58 | the reserves colour does not depend on letter case |
| CycleProgress.ExtremeShadowsLow | components/CycleProgress.tsx:59-60 | "extremamente baixo" also matches the low group's "baixo", so the order of the tests is what makes it red |
| InflationTracker.AdjustedPrice | components/InflationAdjustedTracker.tsx:19 | the BTC anchor for BTCUSDT and the gold anchor for PAXGUSDT; none for other symbols or without commentary |
| InflationTracker.Tracker | components/InflationAdjustedTracker.tsx:21-32 | a placeholder unless an index is named and the anchor is truthy, so there is no division by 0; otherwise the gap times the anchor is `(price - anchor) * 100`, and "above" holds iff the gap is positive |
| InflationTracker.GainIffAboveAnchor | components/InflationAdjustedTracker.tsx:31-32 | against a positive anchor "gain" shows exactly when the price is above the anchor |
| GeminiService.Round | services/geminiService.ts:78 | `Math.round` returns the integer within half a unit, with halves rounded up |
| GeminiService.Normalize | services/geminiService.ts:75-79 | a non-number gives 0; a value in (0, 1] gives round(100 n); anything else gives round(n) |
| GeminiService.NormalizeRange | services/geminiService.ts:75-79 | scores on the 0..100 scale stay on it, 0 stays 0, and integers above 1 are kept |
| GeminiService.NormalizeAmbiguity | services/geminiService.ts:78 | 1 becomes 100 while 0.01 becomes 1, and normalising that 1 again gives 100 |
| GeminiService.Normalized | services/geminiService.ts:81-87 | the four scores are normalised and the fourteen other fields are copied unchanged |
| GeminiService.NormalizedAlike | services/geminiService.ts:81-87 | two replies normalise alike exactly when they agree on every non-score field and their scores normalise alike |
| GeminiService.ScoresOnScale | services/geminiService.ts:81-87 | replies whose raw scores lie on the 0..100 scale keep all four scores on it |
| GeminiService.MarketAnalysis | services/geminiService.ts:14-91 | a result exists exactly when the key (`HasApiKey`) is present, non-empty and not "undefined" and the call and parse succeed; it is the normalised reply |
| Text.Contains | components/SimplifiedDashboard.tsx:21 | `includes` holds exactly when the substring occurs at some index |
| Text.ToLower | components/SimplifiedDashboard.tsx:76 | lower-casing keeps the length and maps each letter on its own, leaving no upper-case letter |
| Text.LowerChar | components/CycleProgress.tsx:58 | an upper-case letter (ASCII or Latin-1) moves 32 code points up; every other character is kept |
| Text.ToLowerIdempotent | components/SimplifiedDashboard.tsx:21 | lower-casing twice is lower-casing once |
| Text.ContainsTransitive | components/SimplifiedDashboard.tsx:77-78 | a string contains whatever its substrings contain |

## Left out

- `fetchMarketData` (HTTP requests with fallback hosts, JSON decoding) is I/O. The fetched candles are an input sequence.
- The Gemini request, its prompt and the JSON parse of its answer are a foreign service. `GeminiService.MarketAnalysis` takes the parsed reply as a parameter, with `None` for any thrown error.
- The `sources` list of `GeminiAnalysis` is not modelled.
- Browser storage:
  - the language and view-mode preferences;
  - the AI cache, which is a `map` field of `App.Dashboard`.
- The fresh alert id (`Math.random`) is a parameter.
- The asynchronous load and AI effects, including their races between stale and fresh responses, are not modelled.
- `Date.now()` is a `now` parameter, and the cache write time is a `doneAt` parameter.
- Markup is not modelled: JSX, CSS classes, SVG geometry, the translation table and `toLocaleString` formatting. Signal messages and reasons are reduced to the rule that produced them (`App.SignalRule`).
- `SignalCard`, `BTCGoldIndicator` and `CycleLegend` only present labels and colours. They have no rules and are not part of this model.
- IEEE floating point is not modelled:
  - prices are exact reals;
  - NaN and Infinity do not exist, so `Truthy` treats only 0 and absence as falsy;
  - `parseFloat` failing is `None` in `GeminiService.Normalize`.
- Extra fields of `CandleData`'s index signature (`[key: string]: any`) are not modelled. `AlertPerformance.MaField` reads only the fields the enrichment writes.
- Indicators.CalculateSMA: requires `period >= 1`. The source's callers pass 14, 50, 100 and 200; a period of 0 would divide by zero.
- Indicators.CalculateWMA: requires `period >= 1`, for the same reason.
- Indicators.CalculateRSI: requires `period >= 1`, for the same reason.
- AlertPerformance.BacktestAlert: requires positive closes, because the return divides by the trigger candle's close. A zero close would give Infinity or NaN in the source.
- AlertPerformance.PerformanceStats: requires positive closes, for the same reason.
- PositionSimulator.Stats: requires positive closes, because the ROI divides by the floor candle's close.
- PositionSimulator.Simulator.Simulate: requires positive closes, for the same reason, and a stake the slider can produce (`Valid()`), which the constructor and `SetInvestment` keep.
- Text.ToLower: lower-cases ASCII and the Latin-1 capitals only. JavaScript's `toLowerCase` covers all of Unicode; the phrases tested are ASCII or Latin-1.
- AlertPerformance.Stats: requires positive closes, for the same reason as `AlertPerformance.BacktestAlert`.
- AlertPerformance.AlertMetrics: requires positive closes, for the same reason as `AlertPerformance.BacktestAlert`.
- AlertPerformance.TallyTo: requires positive closes, for the same reason as `AlertPerformance.BacktestAlert`.
- AlertPerformance.PctChange: requires a positive price, because the return divides by it.
- PositionSimulator.Simulator.SetInvestment: requires a value the slider can produce (100 to 10000 in steps of 100), because the slider is the only way the stake changes.
