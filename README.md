# Trading dashboard signal logic in Dafny

This project models the rule-based signal code in the `components/` package of a
Streamlit trading dashboard for the Indonesian market. The code reads candle tables
(Open, High, Low, Close, Volume) and produces signals for display:

- a rule-based up/down predictor;
- a hammer and shooting-star detector;
- a fusion engine that combines trend and reversal into BUY / SELL / WAIT;
- two integer-scored reversal probabilities;
- a reversal memory with zones and edge-triggered alerts;
- the classic indicators (EMA, SMA, RSI, MACD, Bollinger, stochastic) and a trend overlay;
- a 200-entry AI history;
- the broker heatmap, foreign-flow gauge, sector sentiment, battle meter, EMA20/RSI
  signal and smart-money status.

How values are represented:

- Prices are `real`.
- A pandas NaN is `None` in an `Option<real>`.
- A numpy division by zero gives an extended real (`Common.Ext`): an infinity of the
  dividend's sign, or NaN.
- A table is a `Common.Table`: column labels that are distinct ignoring case, plus
  rectangular rows.
- State that the source keeps in `st.session_state` or in a module-level deque becomes
  fields of a class: `ReversalLevel2.ReversalSession` and `AiMemory.AiHistory`.
- Downloads from Yahoo Finance, the clock and the optional predictor are parameters.

Modules, one per source file, plus three shared ones:

- `Common`: options, clamps, truncation, tables, sums and rolling means, bounded
  histories, integer text.
- `Columns`: the OHLCV alias resolution that four files repeat, and the exact-label
  lookup.
- `Rolling`: features shared by several scorers — the RSI proxy, the volume ratio and
  the guarded body percentage.
- One module for each source file: `FinalEngine`, `AiReversal`, `AiPredictor`,
  `ReversalPremium`, `ReversalProbability`, `ReversalLevel2`, `Indicators`, `AiMemory`,
  `Heatmap`, `ForeignFlow`, `Sentiment`, `BattleMeter`, `Signals`, `SmartMoney`.

The hysteresis alert of the level-2 detector remembers only the side of the last
alert that fired. The run of probabilities 50, 70, 72, 68, 40, 66, with direction UP
from 70 on and DOWN at 40, therefore raises one alert, at 70: 40 is above the 35 sell
threshold, and the stored side changes only when an alert fires.
`ReversalLevel2.ExampleRunAlertsOnce` proves the single alert.

## Model

| member | source | states |
|---|---|---|
| FinalEngine.Fuse | components/ai_final_engine.py:17-58 | BUY iff (UP,UP); SELL iff (DOWN,DOWN); REVERSAL BUY iff (DOWN,UP); TAKE PROFIT iff (UP,DOWN); WAIT for every other pair. There are 2 or 3 non-empty reasons, and the reversal signal and smart-money text come back unchanged |
| FinalEngine.SmartMoneyIsAdvisory | components/ai_final_engine.py:17-56 | the decision does not depend on the smart-money text |
| FinalEngine.ConfidenceIsUnused | components/ai_final_engine.py:10-11 | the trend confidence never changes the result |
| FinalEngine.FinalDecisionEngine | components/ai_final_engine.py:4-58 | as written, composed with `detect_reversal`, the decision is always WAIT, with the "no alignment" reasons |
| FinalEngine.AsDirection | components/ai_reversal.py:81-98 | maps REVERSAL_UP to UP and REVERSAL_DOWN to DOWN; NO_SIGNAL maps to neither |
| FinalEngine.FinalDecisionEngineCorrected | components/ai_final_engine.py:4-58 | with the labels translated, the engine reaches BUY / SELL / REVERSAL BUY / TAKE PROFIT exactly as the truth table says |
| AiReversal.NormalizeOhlcv | components/ai_reversal.py:8-40 | fails iff one of Open, High, Low, Close has no alias; it then lists exactly the missing ones (Volume is optional). Otherwise the bars are exactly the mapped rows whose open and close are present, in table order |
| AiReversal.LowerWick | components/ai_reversal.py:74 | min(open,close) − low, non-negative when low ≤ open, close |
| AiReversal.UpperWick | components/ai_reversal.py:86 | high − max(open,close), non-negative when high ≥ open, close |
| AiReversal.Body | components/ai_reversal.py:72 | abs(close − open) ≥ 0, zero exactly for a doji |
| AiReversal.Classify | components/ai_reversal.py:72-98 | REVERSAL_UP iff bullish and lower wick > body·2.5·sensitivity; REVERSAL_DOWN iff bearish and upper wick > body·2.5·sensitivity; a doji gives NO_SIGNAL |
| AiReversal.DetectOnBars | components/ai_reversal.py:59-98 | fewer than 5 candles gives NO_SIGNAL with the one "too few" line; otherwise the last candle's class, always with exactly one explanation |
| AiReversal.DetectReversal | components/ai_reversal.py:46-98 | the label is one of the three; a missing OHLC column gives NO_SIGNAL with the `KeyError` text listing the missing fields and the available columns; fewer than five kept candles give the too-few line; otherwise the label is the wick/body rule on the last kept candle, with its one explanation |
| AiReversal.LastCompleteRowDecides | components/ai_reversal.py:39-98 | with five kept candles, the signal is the rule applied to the last row of the frame whose open and close are present |
| AiReversal.OnlyLastCandleMatters | components/ai_reversal.py:62-93 | with 5 or more candles, two frames with the same last candle give the same result |
| AiReversal.NeverPlainLabels | components/ai_reversal.py:81-98 | the detector never returns "UP" or "DOWN" |
| AiPredictor.NormalizeOhlcv | components/ai_predictor.py:20-49 | fails iff a field has no alias column; otherwise the candles are those of the NaN-free rows, all rows when none has a NaN |
| AiPredictor.CompleteCandles | components/ai_predictor.py:49 | the j-th candle is read from the j-th NaN-free row, in table order, and every NaN-free row yields a candle |
| AiPredictor.PctChange | components/ai_predictor.py:97-100 | 0 for a zero base; otherwise positive iff the value moved away from the base in the base's direction |
| AiPredictor.ExtractFeatures | components/ai_predictor.py:88-116 | ret_1 is 0 without a previous bar or with a zero previous close, and otherwise its sign follows the last move; mom_5 falls back to ret_1 with fewer than 6 bars or a zero base; vol_mom is 0 on a zero base volume; body is 0 on a zero open; each sign is tied to its comparison |
| AiPredictor.Explanations | components/ai_predictor.py:54-83 | exactly 4 lines, line k positive iff feature k > 0 (a zero feature takes the negative text) |
| AiPredictor.ExplainFeats | components/ai_predictor.py:54-83 | the appending method yields exactly `Explanations` |
| AiPredictor.CountPositive | components/ai_predictor.py:138 | the count is at most the number of features |
| AiPredictor.FromScore | components/ai_predictor.py:138-150 | prob_up = score/4 ∈ {0, .25, .5, .75, 1}, prob_up + prob_down = 1, UP iff score ≥ 2, confidence = abs(up − down) ∈ {0, .5, 1}, zero iff score = 2 |
| AiPredictor.Predict | components/ai_predictor.py:121-150 | fewer than 5 rows gives the N/A result with zero probabilities and one line; the predictor raises iff normalisation fails or leaves no row; otherwise the result is the score rule on the features of the normalised candles |
| AiPredictor.DirectionIsMajority | components/ai_predictor.py:138-141 | direction is UP iff at least two of the four features are positive |
| AiPredictor.CountFour | components/ai_predictor.py:138 | the positive count of four features is the sum of their indicator bits |
| Columns.LastLower | components/ai_reversal.py:20 | the last column whose lower-cased label equals the key wins, as in the `{c.lower(): c}` dict |
| Columns.FirstAliasPos | components/ai_reversal.py:22-26 | the first alias in list order that matches some column |
| Columns.MapFields | components/ai_reversal.py:22-26 | a field is mapped iff one of its aliases matches, to the column the first match names |
| Columns.ResolveColumns | components/ai_reversal.py:20-26 | the nested alias loop with `break` computes `ColumnMap` |
| Columns.FindAlias | components/ai_predictor.py:35-38 | the inner loop stops at the first alias present |
| Columns.ColumnMapResolves | components/reversal_premium.py:10-25 | a field is resolved iff some alias matches, and the column is the one its first matching alias names |
| Columns.StandardLabelResolves | components/indicators.py:17-32 | a column labelled with the field's own name in any case is found |
| Columns.ExactColumns | components/reversal_probability.py:12-15 | a field is present iff its exact standard label is a column |
| Columns.ReadBars | components/reversal_premium.py:32-36 | each row read through the chosen columns; NaN where a field is unmapped |
| Columns.MissingOf | components/ai_reversal.py:29 | the listed missing fields are exactly those without a column |
| Columns.FirstGap | components/reversal_premium.py:28-30 | the first unmapped field in Open, High, Low, Close, Volume order; none iff all are mapped |
| Columns.RequireAllThenDrop | components/reversal_premium.py:27-38 | reports the first missing field; otherwise the bars are exactly the rows whose open and close are present, in table order |
| Rolling.Diffs | components/reversal_premium.py:68 | `diff()`: NaN at the first row, else the difference of neighbours |
| Rolling.Gains | components/reversal_premium.py:69 | defined where the change is, and non-negative |
| Rolling.Losses | components/reversal_premium.py:70 | defined where the change is, and non-negative |
| Rolling.RsiOf | components/reversal_premium.py:71-72 | in [0,100] where defined; NaN iff a mean is NaN or both are 0; 100 when only losses are 0; 0 when only gains are 0 |
| Rolling.RsiIsShare | components/reversal_probability.py:25-27 | 100 − 100/(1 + up/dn) equals the gain's share 100·up/(up+dn) |
| Rolling.RsiProxyLast | components/reversal_probability.py:18-29 | the 14-bar RSI proxy at the last row lies in [0,100] |
| Rolling.VolumeRatio | components/reversal_premium.py:84-87 | 1 when the 20-bar mean is NaN or zero; over a positive mean the ratio exceeds 1 iff the last volume is above the mean |
| Rolling.BodyPct | components/reversal_probability.py:37 | 0 on a zero open; NaN iff a value is NaN; on a positive open, positive iff close > open |
| ReversalPremium.BodyPct | components/reversal_premium.py:78-79 | NaN iff open = close = 0; positive iff the body has the open's sign (a zero open gives an infinity) |
| ReversalPremium.FeaturesOf | components/reversal_premium.py:68-95 | the RSI proxy of the last candle, when defined, lies in [0,100] |
| ReversalPremium.PremiumScore | components/reversal_premium.py:100-128 | the score lies in [−5,5], and in [−3,3] without a volume spike or range expansion |
| ReversalPremium.PremiumExplanations | components/reversal_premium.py:102-127 | 1 to 4 lines; the first is the RSI verdict; the spike and expansion lines appear iff their conditions hold |
| ReversalPremium.ScoreFeatures | components/reversal_premium.py:100-128 | the step-by-step scoring yields exactly `PremiumScore` and `PremiumExplanations` |
| ReversalPremium.PremiumProb | components/reversal_premium.py:133 | int(clamp((score+4)·12.5, 0, 100)) lies in [0,100] |
| ReversalPremium.Confidence | components/reversal_premium.py:134 | in [0,1], zero iff prob = 50 |
| ReversalPremium.DirectionOf | components/reversal_premium.py:136-141 | UP iff prob > 58, DOWN iff prob < 42, otherwise NEUTRAL |
| ReversalPremium.DirectionIsScoreSign | components/reversal_premium.py:133-141 | UP iff score ≥ 1, DOWN iff score ≤ −1, NEUTRAL iff score = 0 |
| ReversalPremium.MinRequired | components/reversal_premium.py:61-62 | n < max(14, int(0.15·n)) iff n < 14 |
| ReversalPremium.PremiumReversal | components/reversal_premium.py:45-143 | a missing column gives (0, NEUTRAL, 0, the data-error line naming the first missing field); fewer than 14 kept rows gives the "insufficient" line; otherwise the probability, direction and explanations come from the score and the confidence is abs(prob − 50)/50 |
| ReversalProbability.RsiOrNeutral | components/reversal_probability.py:29-31 | NaN RSI reads as 50; the value lies in [0,100] |
| ReversalProbability.FeaturesOf | components/reversal_probability.py:17-47 | the RSI read of the last bar, NaN taken as 50, lies in [0,100] |
| ReversalProbability.Score | components/reversal_probability.py:50-83 | the score lies in [−4,4] |
| ReversalProbability.Signals | components/reversal_probability.py:52-83 | exactly 3 lines: RSI, body and volume, each chosen by its thresholds |
| ReversalProbability.ScoreFeatures | components/reversal_probability.py:49-83 | the appending code yields exactly `Score` and `Signals` |
| ReversalProbability.Probability | components/reversal_probability.py:85 | int(clamp((score+3)·20, 0, 100)) lies in [0,100] |
| ReversalProbability.ProbabilitySteps | components/reversal_probability.py:85-86 | prob is a multiple of 20, and prob ≥ 55 iff score ≥ 0 |
| ReversalProbability.CalcReversal | components/reversal_probability.py:6-88 | N/A iff fewer than 25 rows or a missing exact column, with prob 0 and the message naming the first missing column in O,H,L,C,V order; otherwise UP iff score ≥ 0, never neutral |
| ReversalLevel2.AlertStep | components/reversal_premium_level2.py:63-85 | STRONG BUY iff UP, prob ≥ 65 and the last alert was not UP; STRONG SELL iff DOWN, prob ≤ 35 and the last was not DOWN; the side changes only when an alert fires |
| ReversalLevel2.AlertsAlternate | components/reversal_premium_level2.py:77-83 | over any run of refreshes consecutive alerts alternate, the first differs from the starting side, and the stored side is the last alert's |
| ReversalLevel2.FinalLastIsLatestAlert | components/reversal_premium_level2.py:77-83 | after any run of refreshes the stored side is that of the latest alert, or the starting side when none fired |
| ReversalLevel2.ExampleRunAlertsOnce | components/reversal_premium_level2.py:74-83 | 50, 70, 72, 68, 40, 66 raise exactly one STRONG BUY |
| ReversalLevel2.ReversalSession.constructor | components/reversal_premium_level2.py:8-11 | a new session starts with an empty history and no alert side |
| ReversalLevel2.ReversalSession.GetMemory | components/reversal_premium_level2.py:8-11 | returns the stored history |
| ReversalLevel2.ReversalSession.AddHistory | components/reversal_premium_level2.py:13-17 | appends, then drops the oldest entry above 120; the history is the last 120 values ever added; the alert side is unchanged |
| ReversalLevel2.ReversalSession.AutoReversalAlert | components/reversal_premium_level2.py:63-85 | the alert and the new side are `AlertStep` of the old side; the history is unchanged |
| ReversalLevel2.DemandZonesAreSwingLows | components/reversal_premium_level2.py:38-41 | a zone is a demand zone iff it is (low, low·1.003) of a strict swing low at an index in 2..n−3 |
| ReversalLevel2.SupplyZonesAreSwingHighs | components/reversal_premium_level2.py:43-45 | a zone is a supply zone iff it is (high·0.997, high) of a strict swing high at an index in 2..n−3 |
| ReversalLevel2.Insert | components/reversal_premium_level2.py:51 | insertion keeps the zones sorted and the multiset grows by one |
| ReversalLevel2.SortZones | components/reversal_premium_level2.py:51 | `sorted(zones)`: sorted by (lo, hi) and a permutation |
| ReversalLevel2.Join | components/reversal_premium_level2.py:56 | the merged zone spans both: the smaller lower bound and the larger upper bound |
| ReversalLevel2.Merge | components/reversal_premium_level2.py:52-59 | never more zones than inputs, and at least one |
| ReversalLevel2.Cluster | components/reversal_premium_level2.py:48-59 | never more zones than inputs; empty iff the input is empty |
| ReversalLevel2.MergeKeepsLosSorted | components/reversal_premium_level2.py:52-58 | merged lower bounds stay sorted |
| ReversalLevel2.MergeCovers | components/reversal_premium_level2.py:52-58 | every input zone lies inside some merged zone |
| ReversalLevel2.MergeBoundsFromInputs | components/reversal_premium_level2.py:56 | each merged bound is a bound of some input zone |
| ReversalLevel2.ClusterProperties | components/reversal_premium_level2.py:48-59 | clustering yields sorted lower bounds, covers every input, and invents no bound |
| ReversalLevel2.ClusterZones | components/reversal_premium_level2.py:48-59 | the merge loop computes `Cluster` |
| ReversalLevel2.ScanSwings | components/reversal_premium_level2.py:38-45 | the swing loop collects exactly the demand and supply zones |
| ReversalLevel2.DetectZones | components/reversal_premium_level2.py:19-61 | a missing Close, High or Low is reported in that order; fewer than 30 rows gives no zones; otherwise the clustered swing zones |
| Indicators.WithAdjClose | components/indicators.py:34-39 | Close falls back to adjclose, then adj_close, only when no Close alias matched; other fields are untouched |
| Indicators.ResolveIndicatorColumns | components/indicators.py:17-39 | the alias loops plus the fallback compute `IndicatorColumnMap` |
| Indicators.NormalizeOhlcvCols | components/indicators.py:11-50 | fails iff some field has no column after the adjusted-close fallback; otherwise the bars are exactly the mapped rows with an open and a close, in table order |
| Indicators.Alpha | components/indicators.py:56 | 2/(period+1) lies in (0,1], and equals 1 for period 1 |
| Indicators.Ema | components/indicators.py:55-56 | `ewm(span=period, adjust=False)`: the first entry is the first input, each later one mixes the previous entry and the input with weight 2/(period+1) on the input |
| Indicators.Ewm | components/indicators.py:55-56 | the first entry is the first input; each later entry is (1 − a) times the previous entry plus a times the input (`adjust=False`) |
| Indicators.EwmBounded | components/indicators.py:55-56 | the EMA stays within any bounds of its input |
| Indicators.EwmPositive | components/indicators.py:55-56 | the EMA of positive values is positive |
| Indicators.EmaOfConstant | components/indicators.py:55-56 | the EMA of a constant series is that constant |
| Indicators.EmaSpanOne | components/indicators.py:55-56 | with period 1 the EMA is the identity |
| Indicators.Sma | components/indicators.py:58-59 | undefined before index period−1, then the window sum over the period |
| Indicators.SmaBounded | components/indicators.py:58-59 | the SMA stays within any bounds of its input |
| Indicators.Rsi | components/indicators.py:61-69 | NaN at the first row; elsewhere in [0,100] where defined |
| Indicators.RsiAt | components/indicators.py:65-68 | the RSI from Wilder-smoothed gains and losses lies in [0,100] where defined |
| Indicators.RsiOfMonotone | components/indicators.py:61-69 | a strictly rising series gives RSI 100; a strictly falling one gives 0 |
| Indicators.Macd | components/indicators.py:71-77 | three lines as long as the input; the histogram is positive exactly where MACD is above its signal |
| Indicators.MacdOfConstant | components/indicators.py:71-77 | on a constant series all three lines are zero |
| Indicators.Bollinger | components/indicators.py:79-84 | mid is the SMA; a band is defined iff the SMA and the deviation are; the two bands lie symmetrically about mid |
| Indicators.BollingerOrdered | components/indicators.py:79-84 | with a non-negative multiplier and deviation, lower ≤ mid ≤ upper |
| Indicators.PercentK | components/indicators.py:89 | defined iff the three inputs are and the window has a range; then in [0,100] when the close lies in the window |
| Indicators.StochK | components/indicators.py:86-89 | entry t is %K of the rolling low minimum, rolling high maximum and close at t; its range and NaN cases are those of `StochKRange` and `StochFlatWindow` |
| Indicators.StochD | components/indicators.py:90 | entry t is the d-bar rolling mean of %K, defined iff that window of %K is; `StochDRange` bounds it to [0,100] on valid bars |
| Indicators.StochKRange | components/indicators.py:86-89 | %K lies in [0,100] on valid bars; with a full window it is NaN iff the window is flat |
| Indicators.StochFlatWindow | components/indicators.py:86-89 | on valid bars a flat full window has its close at the low, so the quotient is 0/0, NaN in pandas as in the model |
| Indicators.StochDRange | components/indicators.py:90 | %D lies in [0,100] |
| Indicators.OverlayScore | components/indicators.py:121-133 | the score lies in [0,1] |
| Indicators.ScoreOverlay | components/indicators.py:121-133 | the step-by-step score equals `OverlayScore` |
| Indicators.OverlayLabel | components/indicators.py:134 | UP iff score ≥ 0.55, DOWN iff score ≤ 0.45, otherwise NEUTRAL |
| Indicators.FallbackOverlay | components/indicators.py:121-135 | the label is UP or DOWN, never NEUTRAL: UP iff the last EMA20 is above the last EMA50; the score lies in [0,1] (over reals; see the floating-point line under Left out) |
| Indicators.OverlayLabelFollowsEma | components/indicators.py:121-134 | over exact reals the label is UP iff EMA20 > EMA50 |
| Indicators.TrendOverlay | components/indicators.py:96-135 | a predictor result is passed through; otherwise the fallback label, UP iff EMA20 > EMA50 |
| AiMemory.RecordOf | components/ai_memory.py:10-16 | the record copies direction, confidence, prob_up and prob_down, plus the timestamp |
| AiMemory.HistoryKeepsNewest | components/ai_memory.py:7-16 | after any run of saves the buffer holds the newest 200 records in insertion order, never more, with the newest last |
| AiMemory.AiHistory.constructor | components/ai_memory.py:7 | the buffer starts empty |
| AiMemory.AiHistory.SaveAiResult | components/ai_memory.py:9-16 | appends the record and evicts the oldest when full; the result is the last 200 records |
| AiMemory.AiHistory.GetHistory | components/ai_memory.py:18-19 | returns the records oldest first, at most 200, leaving the buffer unchanged |
| Heatmap.SafeFloat | components/indo_heatmap.py:6-13 | a number passes through; NaN and anything `float()` rejects give None |
| Heatmap.Normalize | components/indo_heatmap.py:16-25 | 50 for a missing value, 0 at or below low, 100 at or above high, otherwise the truncated percentage; always in [0,100] |
| Heatmap.NormalizeMonotone | components/indo_heatmap.py:21-25 | a larger value never scores lower |
| Heatmap.ZeroIsNeutral | components/indo_heatmap.py:16-25 | a zero percentage scores 50 on the default scale |
| Heatmap.PctFrom | components/indo_heatmap.py:56-59 | 0 when the base is NaN or zero; NaN only for a NaN value; 0 for value = base; positive iff above a positive base |
| Heatmap.VwapLast | components/indo_heatmap.py:77-83 | cumulative price·volume over cumulative volume; undefined where the cumulative volume is 0 or the last entries are NaN |
| Heatmap.WeightedSumBounds | components/indo_heatmap.py:77-78 | the price·volume sum lies between min and max close times the volume sum |
| Heatmap.VwapWithinCloses | components/indo_heatmap.py:77-83 | with full data the VWAP lies within the range of the closes |
| Heatmap.PercentagesOf | components/indo_heatmap.py:51-87 | volume spike, range expansion, body and VWAP distance of the last candle |
| Heatmap.Heat | components/indo_heatmap.py:89-94 | the four scores lie in [0,100], 50 for a NaN percentage |
| Heatmap.ComputeHeatmapFactors | components/indo_heatmap.py:28-94 | all four are 50 with fewer than 25 rows or a missing column; otherwise the normalised percentages |
| Heatmap.AverageCandleIsNeutral | components/indo_heatmap.py:51-94 | an average candle (volume and range equal to their means, a doji, close on the VWAP) scores 50 on all four |
| ForeignFlow.EidoChange | components/foreign_flow.py:18-23 | 0 without two closes; positive iff EIDO rose over a positive previous close |
| ForeignFlow.RupiahChange | components/foreign_flow.py:34-38 | 0 without two closes; positive iff USD/IDR fell |
| ForeignFlow.VolumeRatio | components/foreign_flow.py:49-60 | 0 with fewer than 20 days or a non-positive mean; otherwise positive iff the last volume is above the 20-day mean |
| ForeignFlow.CappedScore | components/foreign_flow.py:25-29 | clamp(k·change, −cap, cap); +inf hits the cap; −inf and NaN hit the floor; positive iff the change is |
| ForeignFlow.Norm | components/foreign_flow.py:73-75 | in [0,100], and equal to (total+100)/2 for a total in [−100,100] |
| ForeignFlow.BiasOf | components/foreign_flow.py:77-82 | Bullish iff norm > 60, Bearish iff norm < 40, otherwise Neutral |
| ForeignFlow.Total | components/foreign_flow.py:71 | the summed score lies in [−100,100] |
| ForeignFlow.GetForeignFlow | components/foreign_flow.py:6-88 | unavailable iff a download raises; otherwise norm is (total+100)/2 in [0,100], with the matching bias and the three raw changes |
| ForeignFlow.BiasFollowsTotal | components/foreign_flow.py:71-82 | Bullish iff total > 20, Bearish iff total < −20 |
| ForeignFlow.NoDataIsNeutral | components/foreign_flow.py:20-23 | short frames on all three give norm 50 and Neutral |
| ForeignFlow.InflowsRaiseTheGauge | components/foreign_flow.py:25-75 | three positive readings put the gauge above 50 |
| Sentiment.DropNa | components/sentiment.py:34 | the j-th value is the j-th defined close, in order; unchanged when all are defined |
| Sentiment.DailyChange | components/sentiment.py:28-45 | defined iff the download succeeded with ≥ 2 defined closes and a non-zero previous one; positive iff the last close is higher (over a positive previous close) |
| Sentiment.IhsgSentiment | components/sentiment.py:24-48 | None iff the download raised, fewer than 2 closes remain, or the previous close is 0 |
| Sentiment.FirstSectorFrom | components/sentiment.py:72-75 | the first sector in map order whose list holds the symbol |
| Sentiment.FindSector | components/sentiment.py:68-75 | the upper-cased symbol's first sector, or none when no list holds it |
| Sentiment.PeerChanges | components/sentiment.py:82-100 | at most one change per peer, each a defined daily change of some peer; empty when no peer yields one |
| Sentiment.PeerChangesInOrder | components/sentiment.py:82-97 | the j-th change is that of the j-th peer whose change is defined: no such peer is skipped and peer order is kept |
| Sentiment.PeerScores | components/sentiment.py:80-100 | the peer loop collects exactly `PeerChanges` |
| Sentiment.RoundHalfEven | components/sentiment.py:109 | round(x) is within 0.5 of x and is the nearest integer off the half |
| Sentiment.RoundMonotone | components/sentiment.py:109 | rounding never reverses order |
| Sentiment.SectorScore | components/sentiment.py:109 | in [0,100]; 0 for an average ≤ −3 and 100 for one ≥ 7 |
| Sentiment.SectorScoreMonotone | components/sentiment.py:106-109 | a higher average change never lowers the score |
| Sentiment.FlatSectorScoresThirty | components/sentiment.py:109 | an average change of 0 scores 30 |
| Sentiment.SectorSentimentOf | components/sentiment.py:63-110 | an unlisted symbol gives (Unknown, 50); no usable peer gives (sector, 50); otherwise the score of the mean change |
| Sentiment.GetSectorSentiment | components/sentiment.py:63-110 | the method built from the two loops returns `SectorSentimentOf` |
| Sentiment.LowerCaseSymbolFindsFinance | components/sentiment.py:68-75 | "bbri.jk" is found in Finance after upper-casing |
| Sentiment.ForeignFlow | components/sentiment.py:117-155 | the EIDO change when defined, else FXI, else 0.0 |
| Sentiment.InterpretSentiment | components/sentiment.py:162-174 | Unknown iff None; Bullish iff > 1; Bearish iff < −1; Neutral on [−1,1] |
| Sentiment.NoForeignDataIsNeutral | components/sentiment.py:145-174 | with neither ETF readable the mood is Neutral |
| Common.Trunc | components/reversal_premium.py:133 | `int()` of a float truncates toward zero: within 1 of x, never beyond it away from zero |
| Common.RollingMeanAt | components/reversal_premium.py:71 | `rolling(w).mean()` is defined iff the row has a full window without NaN |
| Common.IntToStringRoundTrip | components/reversal_premium_level2.py:78 | the decimal text of an integer parses back to it |
| Common.ParseInt | components/indo_battle_meter.py:11-12 | `int()` of a string fails on text that is blank after trimming whitespace |
| BattleMeter.Coerce | components/indo_battle_meter.py:11-14 | ints pass through, floats truncate toward zero, and anything `int()` rejects becomes 50 |
| BattleMeter.LabelOf | components/indo_battle_meter.py:20-25 | Accumulation iff ≥ 70, Distribution iff ≤ 30, otherwise Balanced |
| BattleMeter.SideOf | components/indo_battle_meter.py:28-33 | foreign-dominant iff > 55, sell pressure iff < 45, otherwise balanced |
| BattleMeter.RenderBattleMeter | components/indo_battle_meter.py:3-33 | score clamped to [0,100], width equal to the score, with its label and side text |
| BattleMeter.LabelAgreesWithSide | components/indo_battle_meter.py:20-33 | accumulation always comes with foreign dominance and distribution with sell pressure |
| BattleMeter.UnconvertibleIsBalanced | components/indo_battle_meter.py:11-33 | an unconvertible score shows 50, Balanced, even |
| BattleMeter.TextScoreMatchesNumber | components/indo_battle_meter.py:11-12 | a score given as its decimal text shows like the number |
| Signals.Decide | components/signals.py:8-16 | BUY iff close > EMA20 and RSI < 70; SELL iff close < EMA20 and RSI > 30, so never both; a tie waits; a missing RSI raises only when the price test holds |
| Signals.RenderSignals | components/signals.py:3-16 | an empty frame or a missing close/EMA20 column raises; otherwise `Decide` on the last row |
| Signals.OnlyLastRowMatters | components/signals.py:6-9 | two frames with the same columns and last row give the same signal |
| SmartMoney.RenderSmartMoney | components/smartmoney.py:3-10 | raises iff fewer than 5 rows or a missing close/open column; otherwise BULLISH iff the last close is above the open five rows back, else BEARISH |
| SmartMoney.TieOrNaNIsBearish | components/smartmoney.py:8 | a tie or a NaN reads BEARISH |
| SmartMoney.OnlyTwoCellsMatter | components/smartmoney.py:6-8 | only the last close and the open five rows back decide the status |

## Left out

- User interface: every `render_*` function's Streamlit and Plotly output, HTML and colours, and the `st.session_state` mechanics beyond the two fields kept.
- Downloads: `yf.download` calls are parameters, as `ForeignFlow.Download`, `Sentiment.Download` or a `fetch` function.
- Clock: `time.time()` in `save_ai_result` is the `now` parameter.
- Floating point: prices are exact reals.
  - `Indicators.OverlayLabelFollowsEma`, `Indicators.FallbackOverlay` and `Indicators.TrendOverlay` state "never NEUTRAL" and "UP iff EMA20 > EMA50" over reals only. In IEEE doubles, 0.5 + 0.2 − 0.15 is 0.5499999999999999, which gives NEUTRAL; 0.5 − 0.2 + 0.15 is 0.44999999999999996, which gives DOWN.
  - Overflow and `inf` inputs are not modelled.
- `round(x, 2)` in foreign_flow.py and sentiment.py: the unrounded value is returned.
- Exception texts: `AiReversal.DataErrorMessage` writes Python's repr of the lists with single quotes and the whole `KeyError` text in double quotes. Labels containing quotes, backslashes or unprintable characters, which Python would escape or quote differently, are written unescaped.
- `Common.Lower` and `Common.Upper` map ASCII letters only. Unicode case folding is not modelled.
- `Common.ParseInt` accepts ASCII whitespace and digits only, not underscores or other Unicode digits.
- Non-numeric cells: `pd.to_numeric(errors="coerce")` is modelled by cells that are already numbers or NaN.
- Text-valued columns are not modelled.
- Tables whose labels clash ignoring case are excluded by `Common.WellFormed`.
- `Indicators.Ewm` works on series without NaN. pandas' skipping of NaN inside `ewm` is not modelled.
- `Indicators.Bollinger` takes the rolling standard deviation as a non-negative input and does not compute it.
- `FinalEngine.FinalDecisionEngine` takes the smart-money bias as a parameter. The `get_smart_money_bias` it imports is not defined in smartmoney.py.
- `df is None` checks that come after `df.copy()` (indo_heatmap.py, reversal_probability.py) are unreachable. A `None` frame is not modelled.
- ForeignFlow.GetForeignFlow: NaN closes or volumes in a downloaded frame are not modelled.
- A pandas `KeyError` for a frame without `Close` or `Volume` is not modelled.
- Sentiment.DailyChange: `safe_float` on a close that `dropna` has already kept never yields None. The `last is None` test is therefore not modelled separately.
- `AiPredictor.Predict`: `prob_up` is always present, so the overlay never reads a missing key.
- Indicators.TrendOverlay: when the predictor raises, the fallback reads the column labelled exactly "Close". Without that column `df["Close"]` raises a `KeyError` that escapes the overlay; that path is not modelled, so the requires asks for the column. The requires also asks for closes without NaN: pandas' `ewm` would skip them and still return a label, which the model does not compute.
- Indicators.PercentK: a window without range gives None (NaN). pandas gives NaN there only when the close equals the low, and ±inf otherwise; on valid bars the close always equals the low then (`Indicators.StochFlatWindow`), so only bars with the close outside their own range differ.

## Findings

| source | as written | input that shows it | evidently intended | confidence | as-written member | corrected member |
|---|---|---|---|---|---|---|
| components/ai_final_engine.py:18-56 | compares `detect_reversal`'s label with "UP" and "DOWN", but that function returns "REVERSAL_UP", "REVERSAL_DOWN" or "NO_SIGNAL" (components/ai_reversal.py:81,93,98) | any frame, e.g. a bullish hammer with trend "UP": the engine answers WAIT instead of BUY | translate REVERSAL_UP/REVERSAL_DOWN to UP/DOWN before the truth table | high (not executed) | FinalEngine.FinalDecisionEngine | FinalEngine.FinalDecisionEngineCorrected |
