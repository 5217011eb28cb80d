# Crypto dashboard charts and strategy form: a Dafny model

This project models the parts of a React crypto-trading dashboard that compute something:

- **Indicators.** The advanced price chart computes three indicators from a series of OHLCV bars:
  - the exponential moving average (`calculateEMA`);
  - Bollinger bands (`calculateBollingerBands`);
  - MACD (`calculateMACD`), which is built from two averages.
- **Chart rules.** Around the series, the charts apply some small rules:
  - the crosshair readout of open/high/low/close/volume and of the change against the previous bar;
  - the colour of that change;
  - the colour of the volume bars;
  - the indicator menu and its toggle.
- **Strategy form.** In the signal-bot form, a change to one field replaces that field of the configuration. The "required data fields" checkboxes add or remove a name in the configuration's list.

## Files and modules

| File | Module | Contents |
|---|---|---|
| `types.dfy` | `ChartTypes` | bars, line and histogram points, the readout record, `SumCloses` (the sum over a window of closes) |
| `ema.dfy` | `MovingAverage` | `CalculateEma` |
| `bollinger.dfy` | `Bollinger` | `CalculateBollingerBands` |
| `macd.dfy` | `Macd` | `CalculateMacd`, plus its two loops `MacdLinePoints` and `HistogramPoints` |
| `readout.dfy` | `Crosshair` | the readout rule both charts share, the change colour, the volume mapping |
| `advanced_chart.dfy` | `AdvancedChart` | the advanced chart's handler (line and area mode, the latest-bar fallback), the indicator menu and its toggle |
| `trading_chart.dfy` | `SimpleChart` | the simpler chart's handler and its volume colours |
| `lists.dfy` | `Lists` | `Without`, the `filter(x => x !== y)` both toggles use |
| `signal_bot_config.dfy` | `SignalBotForm` | `handleChange` and the required-field checkboxes |

## How the model is written

**The indicator functions are imperative methods.** They keep the loops of the source. Each method is proved equal to a specification function, point by point:

- `Ema`, with `EmaAt`, the recurrence on one index;
- `BollingerBands`, with `Middle`, `Variance` and `StdAt` for one window;
- `MacdOf`.

The lemmas then prove length, alignment, the recurrence, bounds, band ordering and the behaviour on constant input about those functions.

**Everything else is pure functions.** The readout handlers, the toggles and the form updates compute a new value from the old one. The model writes them as functions and proves lemmas about them.

**Modelling choices.** The model represents two things from the source differently:

- the chart library's crosshair event (`MouseEventParams`) is a `CrosshairMove` value;
- a handler, which calls `setOhlcv`, is a function from the old readout to the new one.

## Behaviour worth knowing

- **The first EMA point is one update step after the seed.** The seed is the mean of the first `period` closes. The code applies one update step at bar `period - 1` before its first push (components/AdvancedTradingChart.tsx:42-44). So for closes 10, 11, 12, 13, 14 and period 3 the code gives 11.5, 12.25, 13.125; the seed 11 is never emitted (`MovingAverage.EmaExample`).
- **The percentage change has no zero guard.** It divides by the previous close whatever that close is (components/AdvancedTradingChart.tsx:429, 455; components/TradingChart.tsx:179). In JavaScript a zero previous close gives `Infinity` or `NaN`; the model returns the value `NotFinite` for it (`Crosshair.PercentOf`).

## Model

| member | source | states |
|---|---|---|
| ChartTypes.SumClosesBounds | components/AdvancedTradingChart.tsx:39 | a sum of `n` closes that each lie in `[low, high]` lies in `[n*low, n*high]` |
| MovingAverage.KInUnitInterval | components/AdvancedTradingChart.tsx:37 | the smoothing factor `2/(period+1)` lies in `(0, 1]` for every period of at least 1 |
| MovingAverage.StepBounds | components/AdvancedTradingChart.tsx:43 | one update with a factor in `[0, 1]` stays between the bounds of the close and of the previous average |
| MovingAverage.CalculateEma | components/AdvancedTradingChart.tsx:36-48 | the loop, with its running average and its seed taken from the first `period` closes, returns exactly the series `Ema` |
| MovingAverage.EmaPointwise | components/AdvancedTradingChart.tsx:41-46 | the series has `len-P+1` points (none when `len < P`); point `j` carries the time of bar `j+P-1` and the average after that bar |
| MovingAverage.EmaRecurrence | components/AdvancedTradingChart.tsx:39-45 | point 0 is one step `(close[P-1]-seed)*k+seed` from the mean of the first `P` closes; every later point is one step from the point before it |
| MovingAverage.EmaAtBounds | components/AdvancedTradingChart.tsx:37-45 | every average lies between the lowest and the highest close seen up to its bar |
| MovingAverage.EmaBounds | components/AdvancedTradingChart.tsx:37-45 | the same bound for every point of the series |
| MovingAverage.EmaConstant | components/AdvancedTradingChart.tsx:37-45 | when every close is `v`, every point of the average is `v` |
| MovingAverage.EmaExample | components/AdvancedTradingChart.tsx:36-48 | closes 10..14 with period 3 give 11.5, 12.25, 13.125 at the times of bars 3, 4, 5 |
| Bollinger.CalculateBollingerBands | components/AdvancedTradingChart.tsx:51-68 | the loop over bars `period-1 .. len-1` returns exactly the three series of `BollingerBands` |
| Bollinger.BandsPointwise | components/AdvancedTradingChart.tsx:56-64 | upper, middle and lower each have `len-P+1` points (none when `len < P`); point `j` carries the time of bar `j+P-1` and the band values of the window ending at that bar |
| Bollinger.SquareZero | components/AdvancedTradingChart.tsx:59 | a squared deviation is non-negative, and positive for a non-zero deviation |
| Bollinger.SquaredDeviationsNonNegative | components/AdvancedTradingChart.tsx:59 | the sum of squared deviations of a window is non-negative |
| Bollinger.SquaredDeviationsZero | components/AdvancedTradingChart.tsx:59 | the sum of squared deviations is zero iff every close of the window equals the mean |
| Bollinger.VarianceNonNegative | components/AdvancedTradingChart.tsx:59 | the population variance (divisor `period`) is non-negative |
| Bollinger.MiddleBounds | components/AdvancedTradingChart.tsx:58 | the middle band lies between the lowest and the highest close of its window |
| Bollinger.BandOrderingAt | components/AdvancedTradingChart.tsx:60-64 | `upper-middle = middle-lower = stdDev*std` with `std >= 0`; with `stdDev >= 0`, `lower <= middle <= upper` |
| Bollinger.BandOrdering | components/AdvancedTradingChart.tsx:56-64 | the same symmetry and ordering at every point of the three series |
| Bollinger.ConstantWindow | components/AdvancedTradingChart.tsx:57-64 | a window of equal closes `v` has mean `v`, variance 0 and all three bands at `v` |
| Bollinger.BandsMeetIffConstant | components/AdvancedTradingChart.tsx:57-64 | with `stdDev > 0` the upper and lower band meet iff every close of the window is the same |
| Bollinger.ConstantSeries | components/AdvancedTradingChart.tsx:51-68 | with the default period 20 and closes all 100, every point of all three bands is 100 |
| Macd.HistogramColorSign | components/AdvancedTradingChart.tsx:103 | the histogram colour is the up colour iff the value is non-negative, and the down colour iff it is negative |
| Macd.HistogramPointwise | components/AdvancedTradingChart.tsx:98-105 | the histogram has `min(len macd, len signal)` points; point `i` has the time of MACD point `i`, the value `macd[i]-signal[i]` and the colour of that value |
| Macd.MacdLinePoints | components/AdvancedTradingChart.tsx:75-83 | the loop returns exactly `MacdLine`: `fast[i]-slow[i]` at the time of `fast[i]`, for `min(len fast, len slow)` positions |
| Macd.HistogramPoints | components/AdvancedTradingChart.tsx:98-105 | the loop returns exactly `Histogram` of the MACD and signal lines |
| Macd.CalculateMacd | components/AdvancedTradingChart.tsx:71-108 | the composition of the two averages, the MACD loop, the signal average and the histogram loop returns exactly `MacdOf` |
| Macd.MacdLineAt | components/AdvancedTradingChart.tsx:72-83 | the MACD line has `min(Count F, Count S)` points; point `i` carries the time of bar `i+F-1` and the value `EmaAt(F, i) - EmaAt(S, i)`, pairing by position, not by time |
| Macd.SignalLineAt | components/AdvancedTradingChart.tsx:85-96 | the signal line is the EMA of the MACD values used as closes; point `i` carries the time of MACD point `i+G-1`, which is that of bar `i+G+F-2` |
| Macd.HistogramAt | components/AdvancedTradingChart.tsx:98-105 | the histogram is as long as the signal line, which is at most as long as the MACD line; point `i` has the time of MACD point `i`, the value `macd[i]-signal[i]`, and the up colour iff that value is non-negative |
| Macd.HistogramLagsSignal | components/AdvancedTradingChart.tsx:85-105 | for strictly increasing bar times and a signal period above 1, histogram point `i` is stamped earlier than signal point `i`, the misalignment the code has |
| Macd.DefaultHistogramLength | components/AdvancedTradingChart.tsx:71 | with periods 12/26/9 the MACD line has `len-25` points when `len >= 26`, and the histogram has `len-33` points when `len >= 34` and none otherwise |
| Macd.ConstantMacd | components/AdvancedTradingChart.tsx:71-108 | equal closes give a zero MACD line, a zero signal line and a zero histogram, all in the up colour |
| Crosshair.CandleReadout | components/AdvancedTradingChart.tsx:420-449 | the readout for a candle at a logical index: empty without a candle or an index; the candle and the volume with the change against the close of bar `logical-1` and its percentage when `logical > 0` and that bar exists; the candle and the volume alone otherwise (its properties: `Crosshair.CandleReadoutCases`) |
| Crosshair.PercentOf | components/AdvancedTradingChart.tsx:429 | the percentage is not finite exactly when the previous close is zero |
| Crosshair.PercentRoundTrip | components/AdvancedTradingChart.tsx:428-429 | for a non-zero previous close, `percent * previousClose / 100` gives back the change |
| Crosshair.CandleReadoutCases | components/AdvancedTradingChart.tsx:420-449 | the readout is empty iff the candle or the index is missing; otherwise it shows the candle and the volume; it has a change iff `0 < logical <= len`; the change is the close minus the close of bar `logical-1`, and the percentage is computed from that change |
| Crosshair.CandleReadoutPercent | components/AdvancedTradingChart.tsx:426-429 | with a previous bar whose close is non-zero, the percentage is finite and is the change relative to that close |
| Crosshair.ChangeColor | components/AdvancedTradingChart.tsx:112 | `text-success` when the change, counted as 0 when absent, is non-negative, `text-danger` otherwise; the simpler chart has the same rule at components/TradingChart.tsx:50 (its properties: `Crosshair.ChangeColorSign`) |
| Crosshair.ChangeColorSign | components/TradingChart.tsx:50-59 | the danger colour appears iff a change is shown and it is negative; the success colour appears iff there is no change or it is non-negative |
| Crosshair.CandleReadoutColor | components/AdvancedTradingChart.tsx:112-128 | a readout with a previous bar shows its change, in the danger colour iff the close fell below the previous close |
| Crosshair.VolumeBars | components/AdvancedTradingChart.tsx:491-495 | the volume mapping for given up and down colours, one histogram point per bar (its properties: `Crosshair.VolumeBarsAt`) |
| Crosshair.VolumeBarsAt | components/AdvancedTradingChart.tsx:491-495 | one volume bar per bar: same time, the bar's volume or 0 when it has none, the up colour iff `close >= open` and the down colour iff `close < open` |
| AdvancedChart.ResolveCandle | components/AdvancedTradingChart.tsx:397-414 | the candle under the cursor: the main series' candle in candlestick mode; in line and area mode the bar at `logical` with the plotted value as its close, when there is a value and such a bar, and none otherwise |
| AdvancedChart.LatestReadout | components/AdvancedTradingChart.tsx:450-466 | the latest bar's open, high, low, close and own volume, with its change and percentage against the close of the bar before it |
| AdvancedChart.OnCrosshairMove | components/AdvancedTradingChart.tsx:396-467 | on the series, the shared readout rule applied to the resolved candle; off the series, the latest-bar readout when there are at least two bars, and the previous readout otherwise (its properties: `AdvancedChart.LineModeReadout`, `AdvancedChart.OffSeriesReadout`) |
| AdvancedChart.LineModeReadout | components/AdvancedTradingChart.tsx:402-449 | in line and area mode the readout is empty iff there is no plotted value or no bar at the index; otherwise it shows that bar's open, high and low, with the plotted value as close; it has a change iff the index is above 0 |
| AdvancedChart.OffSeriesReadout | components/AdvancedTradingChart.tsx:450-466 | off the series, with at least two bars, the readout is the on-series rule applied to the last bar, with its own volume, and its change is the last close minus the one before; with fewer bars the readout is left as it was |
| AdvancedChart.ChangeSign | components/AdvancedTradingChart.tsx:126 | the prefix `+` for a non-negative change and nothing for a negative one |
| AdvancedChart.ChangeSignMatchesColor | components/AdvancedTradingChart.tsx:124-126 | a shown change carries the `+` sign iff it has the success colour |
| AdvancedChart.AvailableIndicators | components/AdvancedTradingChart.tsx:155-162 | the menu has six entries, and an entry is enabled iff it is not RSI or RSI data was supplied |
| AdvancedChart.AvailableIndicatorsDistinct | components/AdvancedTradingChart.tsx:155-162 | the six menu ids are pairwise distinct |
| AdvancedChart.ToggleIndicator | components/AdvancedTradingChart.tsx:164-168 | after a toggle the id is active iff it was not before, and every other id keeps its presence |
| AdvancedChart.ToggleAppends | components/AdvancedTradingChart.tsx:166 | toggling an inactive id appends it at the end and keeps the list before it |
| AdvancedChart.ToggleRemovesAll | components/AdvancedTradingChart.tsx:166 | toggling an active id removes every occurrence of it, and every other id keeps its number of occurrences |
| AdvancedChart.ToggleKeepsOrder | components/AdvancedTradingChart.tsx:164-168 | leaving out the toggled id, the list is the same as before: the others keep their relative order |
| AdvancedChart.ToggleTwice | components/AdvancedTradingChart.tsx:164-168 | toggling an inactive id twice restores the list; for an active id, two toggles leave one copy of it, at the end |
| AdvancedChart.ClickIndicator | components/AdvancedTradingChart.tsx:622-624 | a click on a menu entry toggles its id when the entry is enabled and leaves the active list alone otherwise |
| AdvancedChart.ClickChanges | components/AdvancedTradingChart.tsx:622-624 | a menu click changes the active list iff the entry is enabled |
| AdvancedChart.RsiNeedsData | components/AdvancedTradingChart.tsx:156 | a click on RSI leaves the list unchanged iff no RSI data was supplied; a click on any other entry always changes it |
| AdvancedChart.VolumeSeries | components/AdvancedTradingChart.tsx:490-496 | the volume series has one bar per bar, at its time, with the bar's volume or 0 when it has none, in the teal colour iff `close >= open` |
| SimpleChart.OnCrosshairMove | components/TradingChart.tsx:164-191 | on the series, the shared readout rule applied to the candlestick series' candle and the volume point; off the series, the empty readout (its properties: `SimpleChart.Readout`) |
| SimpleChart.Readout | components/TradingChart.tsx:164-191 | the readout is empty iff the cursor is off the series or the candle or the index is missing; it has a change iff there is a previous bar, measured against that bar's close; otherwise it shows the candle and the volume with no change fields |
| SimpleChart.AgreesOnSeries | components/TradingChart.tsx:165-186 | on the series, this chart's readout equals the advanced chart's in candlestick mode |
| SimpleChart.DiffersOffSeries | components/TradingChart.tsx:188-190 | off the series this chart clears the readout, while the advanced chart, once there are two bars, shows a change and so differs |
| SimpleChart.VolumeSeries | components/TradingChart.tsx:205-207 | one volume bar per bar, at its time, with the bar's volume or 0, in the green colour iff `close >= open` |
| Lists.Without | components/AdvancedTradingChart.tsx:166 | `filter(i => i !== y)`: the entries other than `y`, in their order; also the filter of components/strategies/SignalBotConfigPanel.tsx:716 |
| Lists.WithoutMembership | components/AdvancedTradingChart.tsx:166 | an entry survives `filter(i => i !== y)` iff it was present and is not `y` |
| Lists.WithoutAbsent | components/AdvancedTradingChart.tsx:166 | filtering out an absent entry changes nothing |
| Lists.WithoutAppend | components/AdvancedTradingChart.tsx:166 | the filter of a concatenation is the concatenation of the filters |
| Lists.WithoutMultiset | components/AdvancedTradingChart.tsx:166 | the filter leaves no copy of `y` and keeps every other entry as often as before |
| Lists.WithoutIdempotent | components/AdvancedTradingChart.tsx:166 | filtering twice is filtering once |
| SignalBotForm.HandleChange | components/strategies/SignalBotConfigPanel.tsx:15-17 | the changed field takes the new value, the key set gains the field, and every other field keeps its value |
| SignalBotForm.HandleChangeSame | components/strategies/SignalBotConfigPanel.tsx:15-17 | setting a field to the value it has gives back the same configuration |
| SignalBotForm.HandleChangeLastWins | components/strategies/SignalBotConfigPanel.tsx:15-17 | of two changes to the same field the later one wins |
| SignalBotForm.NextRequiredFields | components/strategies/SignalBotConfigPanel.tsx:714-716 | the new list: the field appended when the box was ticked, every copy of it filtered out when it was unticked |
| SignalBotForm.OnRequiredFieldChange | components/strategies/SignalBotConfigPanel.tsx:713-717 | a checkbox change keeps the configuration well-typed, keeps its key set and leaves every field except `requiredDataFields` unchanged |
| SignalBotForm.CheckedAfterChange | components/strategies/SignalBotConfigPanel.tsx:712-717 | after a change the box shows ticked iff it was just ticked |
| SignalBotForm.CheckAppends | components/strategies/SignalBotConfigPanel.tsx:714-715 | ticking appends the field after the existing entries, which are unchanged |
| SignalBotForm.UncheckRemoves | components/strategies/SignalBotConfigPanel.tsx:716 | unticking removes every occurrence of the field; the others keep their number of occurrences, their presence and their order |
| SignalBotForm.CheckThenUncheck | components/strategies/SignalBotConfigPanel.tsx:714-716 | ticking and then unticking a field that was not required gives back the original configuration |
| SignalBotForm.ClickFlips | components/strategies/SignalBotConfigPanel.tsx:712-717 | a click on a box makes its field required iff it was not |
| SignalBotForm.CheckboxStates | components/strategies/SignalBotConfigPanel.tsx:708-712 | the row of boxes: one per offered field (`Asset`, `Action`, `Price`, `Stop-Loss`, `Timestamp`, `Context ID`), in that order, each ticked when its field is in `requiredDataFields` (its properties: `SignalBotForm.ClickFlipsOnlyItsBox`) |
| SignalBotForm.RequiredFieldOptionsDistinct | components/strategies/SignalBotConfigPanel.tsx:708 | the six offered fields are pairwise distinct |
| SignalBotForm.ClickFlipsOnlyItsBox | components/strategies/SignalBotConfigPanel.tsx:708-717 | a click on one box flips that box and leaves every other box of the row as it was |

## Left out

- **Floating point.** Prices are `real`s: rounding is not modelled.
  - `Infinity` and `NaN` appear only as `NotFinite`, the percentage change against a zero previous close.
- **`Math.sqrt`.** Dafny has no square root on `real`s, so the model takes it as a parameter `sqrt`.
  - The Bollinger lemmas require it to be a square root (`IsSquareRoot`).
  - `Bollinger.CalculateBollingerBands` is proved for any `sqrt` the caller passes.
- MovingAverage.CalculateEma: it requires a period of at least 1.
  - With period 0 the source computes `0/0` for the seed.
- Bollinger.CalculateBollingerBands: it requires a period of at least 1.
  - With period 0 the source reads `data[-1]`.
  - The defaults 20 and 2 are ordinary arguments; `Bollinger.ConstantSeries` uses period 20.
- Macd.CalculateMacd: it requires all three periods to be at least 1, for the same reason.
- **The chart library.** `createChart`, the `add*Series` calls, `setData`, the price-line bookkeeping, `fitContent`, watermarks and layout options are foreign calls, so they are left out.
  - Also left out are the effects that pick which indicator series are drawn for the active ids.
  - The crosshair event is reduced to a `CrosshairMove` value: the time, whether series data is present, the logical index, the main-series point and the volume point.
- **Series handles.** Both handlers treat the series handles as created.
  - These are `mainSeries` in the advanced chart, and `candlestickSeries` and `volumeSeries` in the simpler one.
  - A missing volume series is the same as a missing volume point (`volume` is `None`).
- **`previousClose !== undefined`.** The model has no branch for this check. The close of an existing bar is always defined.
- **Line-mode points without a value.** A main-series point of this kind counts as no point.
- **React plumbing.** `useState`, `useEffect`, `useRef` and `ResizeObserver` are left out. A handler is modelled as a function from the old readout to the new one.
- **Which bars a handler reads.** Both crosshair handlers are subscribed in effects whose dependency lists leave out `data` (components/AdvancedTradingChart.tsx:476; components/TradingChart.tsx:200).
  - So a handler reads the `data` array captured when the chart was last built. The series themselves are refilled from the current bars (components/AdvancedTradingChart.tsx:539; components/TradingChart.tsx:227).
  - After a refresh that changes only the bars, the previous-close lookup (components/AdvancedTradingChart.tsx:425-426; components/TradingChart.tsx:175-176) and the latest-bar fallback (components/AdvancedTradingChart.tsx:451-453) use the old bars.
  - The `data` argument of `Crosshair.CandleReadout`, `AdvancedChart.OnCrosshairMove` and `SimpleChart.OnCrosshairMove` is that captured array. The model does not relate it to the bars currently drawn.
- **`OHLCVDisplay` formatting.** Number formatting (`toFixed`, the K/M volume suffixes) and the latest-price highlight are display only.
  - The model keeps the change colour and the `+` sign rule.
- **The `color` field of `CandlestickData`.** It is not read by the modelled code.
- **The `SignalBotConfig` type.** It is not part of this model. The configuration is a map from field names to values.
  - `WellTyped` stands for the one part of its type the checkbox handler relies on: `requiredDataFields` is a list.
- SignalBotForm.OnRequiredFieldChange: ticking a field that is already present appends a second copy, as the code does.
  - The checkbox is controlled by `includes`, so from the form a field is only ticked when it is absent (`SignalBotForm.ClickFlips`).
- **What else is out:**
  - RSI: its series is passed in precomputed and only displayed;
  - the data-access services and the demo-user edge function: network I/O;
  - the authentication context: asynchronous state;
  - the dashboards, header and static API-setup table: rendering only.
