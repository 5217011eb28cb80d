/**
 * The crosshair readout rule both price charts share: given the candle under
 * the cursor, its logical index and the bars, report open, high, low, close
 * and volume, and the change against the previous bar's close when there is
 * one. Also the change colour of `OHLCVDisplay` and the volume-bar mapping,
 * which both charts write the same way (with different colours).
 */
module Crosshair {
  import opened ChartTypes

  /** The open, high, low and close the crosshair reads off a bar. */
  datatype Candle = Candle(open: real, high: real, low: real, close: real)

  function BarCandle(b: Bar): Candle {
    Candle(b.open, b.high, b.low, b.close)
  }

  /**
   * One crosshair move, as the chart reports it: the time under the cursor,
   * how many series have a point there, the logical bar index, the point of
   * the main series (a candle in candlestick mode, a value in line or area
   * mode) and the point of the volume series.
   */
  datatype CrosshairMove = CrosshairMove(
    time: Option<int>, seriesCount: nat, logical: Option<int>,
    candle: Option<Candle>, lineValue: Option<real>, volume: Option<real>)

  /** `param.time && param.seriesData.size > 0`; a time of 0 is falsy. */
  predicate OnSeries(m: CrosshairMove) {
    m.time.Some? && m.time.value != 0 && m.seriesCount > 0
  }

  /** `data[i]` is a bar (and not `undefined`). */
  predicate HasBar(data: seq<Bar>, i: int) {
    0 <= i < |data|
  }

  /** `(change / previousClose) * 100`; a zero previous close gives `Infinity` or `NaN`. */
  function PercentOf(change: real, previousClose: real): (p: Percent)
    ensures p.NotFinite? <==> previousClose == 0.0
  {
    if previousClose == 0.0 then NotFinite else Finite(change / previousClose * 100.0)
  }

  /** The percentage recovers the change it was computed from. */
  lemma PercentRoundTrip(change: real, previousClose: real)
    requires previousClose != 0.0
    ensures PercentOf(change, previousClose).percent * previousClose / 100.0 == change
  {
    var q := change / previousClose;
    assert q * previousClose == change;
    assert (q * 100.0) * previousClose / 100.0 == q * previousClose;
  }

  /** `{ open, high, low, close, volume, change, changePercent }` against `previousClose`. */
  function WithChange(c: Candle, volume: Option<real>, previousClose: real): ChartOhlcv {
    ChartOhlcv(Some(c.open), Some(c.high), Some(c.low), Some(c.close), volume,
      Some(c.close - previousClose), Some(PercentOf(c.close - previousClose, previousClose)))
  }

  /** `{ open, high, low, close, volume }`. */
  function WithoutChange(c: Candle, volume: Option<real>): ChartOhlcv {
    ChartOhlcv(Some(c.open), Some(c.high), Some(c.low), Some(c.close), volume, None, None)
  }

  /** The readout for the candle under the cursor at `logical`. */
  function CandleReadout(candle: Option<Candle>, logical: Option<int>, data: seq<Bar>, volume: Option<real>): ChartOhlcv {
    if candle.None? || logical.None? then EmptyReadout
    else if logical.value > 0 && HasBar(data, logical.value - 1) then
      WithChange(candle.value, volume, data[logical.value - 1].close)
    else WithoutChange(candle.value, volume)
  }

  /**
   * The readout is empty exactly when the candle or the index is missing;
   * otherwise it reports the candle and the volume, and it has a change
   * exactly when the index has a bar before it, the change being measured
   * against that bar's close.
   */
  lemma CandleReadoutCases(candle: Option<Candle>, logical: Option<int>, data: seq<Bar>, volume: Option<real>)
    ensures var r := CandleReadout(candle, logical, data, volume);
      && (r == EmptyReadout <==> candle.None? || logical.None?)
      && (r.change.Some? <==> candle.Some? && logical.Some? && 0 < logical.value <= |data|)
      && (r.changePercent.Some? <==> r.change.Some?)
      && (candle.Some? && logical.Some? ==>
            && r.open == Some(candle.value.open) && r.high == Some(candle.value.high)
            && r.low == Some(candle.value.low) && r.close == Some(candle.value.close)
            && r.volume == volume)
      && (r.change.Some? ==>
            && r.close.value - r.change.value == data[logical.value - 1].close
            && r.changePercent == Some(PercentOf(r.change.value, data[logical.value - 1].close)))
  {
  }

  /** With a non-zero previous close the reported percentage is the change relative to that close. */
  lemma CandleReadoutPercent(candle: Option<Candle>, logical: Option<int>, data: seq<Bar>, volume: Option<real>)
    requires candle.Some? && logical.Some? && 0 < logical.value <= |data|
    requires data[logical.value - 1].close != 0.0
    ensures var r := CandleReadout(candle, logical, data, volume);
      && r.changePercent.Some? && r.changePercent.value.Finite?
      && r.changePercent.value.percent * data[logical.value - 1].close / 100.0 == r.change.value
  {
    PercentRoundTrip(candle.value.close - data[logical.value - 1].close, data[logical.value - 1].close);
  }

  const ChangeUp := "text-success"
  const ChangeDown := "text-danger"

  /** `(ohlcv.change ?? 0) >= 0 ? 'text-success' : 'text-danger'`. */
  function ChangeColor(r: ChartOhlcv): string {
    if r.change.GetOr(0.0) >= 0.0 then ChangeUp else ChangeDown
  }

  /** `ohlcv.change !== undefined`: the change block is shown. */
  predicate ShowsChange(r: ChartOhlcv) {
    r.change.Some?
  }

  /** The danger colour appears exactly for a negative change; a readout without a change counts as up. */
  lemma ChangeColorSign(r: ChartOhlcv)
    ensures ChangeColor(r) == ChangeDown <==> ShowsChange(r) && r.change.value < 0.0
    ensures ChangeColor(r) == ChangeUp <==> !ShowsChange(r) || r.change.value >= 0.0
  {
    assert ChangeUp[5] != ChangeDown[5];
  }

  /** A readout with a change is coloured down exactly when the close fell below the previous close. */
  lemma CandleReadoutColor(candle: Option<Candle>, logical: Option<int>, data: seq<Bar>, volume: Option<real>)
    requires candle.Some? && logical.Some? && 0 < logical.value <= |data|
    ensures var r := CandleReadout(candle, logical, data, volume);
      ShowsChange(r) && (ChangeColor(r) == ChangeDown <==> candle.value.close < data[logical.value - 1].close)
  {
    ChangeColorSign(CandleReadout(candle, logical, data, volume));
  }

  /**
   * `data.map(d => ({ time: d.time, value: d.value || 0, color: d.close >= d.open ? up : down }))`.
   */
  function VolumeBars(data: seq<Bar>, up: string, down: string): (bars: seq<HistogramPoint>)
    ensures |bars| == |data|
  {
    seq(|data|, i requires 0 <= i < |data| =>
      HistogramPoint(data[i].time, data[i].value.GetOr(0.0), if data[i].close >= data[i].open then up else down))
  }

  /**
   * One volume bar per input bar, at the same time, with the bar's volume or 0
   * when it has none, in the up colour exactly when the bar did not close below
   * its open.
   */
  lemma VolumeBarsAt(data: seq<Bar>, up: string, down: string)
    requires up != down
    ensures forall i :: 0 <= i < |data| ==>
      && VolumeBars(data, up, down)[i].time == data[i].time
      && (data[i].value.None? ==> VolumeBars(data, up, down)[i].value == 0.0)
      && (data[i].value.Some? ==> VolumeBars(data, up, down)[i].value == data[i].value.value)
      && (VolumeBars(data, up, down)[i].color == up <==> data[i].close >= data[i].open)
      && (VolumeBars(data, up, down)[i].color == down <==> data[i].close < data[i].open)
  {
  }
}
