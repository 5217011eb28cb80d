/**
 * The crosshair readout and the volume bars of the simpler candlestick chart.
 * Its readout follows the same rule as the advanced chart's while the cursor
 * is on the series, but clears itself when the cursor leaves it.
 */
module SimpleChart {
  import opened ChartTypes
  import opened Crosshair
  import AdvancedChart

  /** Volume-bar colours for a bar that closed at or above its open, and below it. */
  const VolumeUp := "rgba(16, 185, 129, 0.4)"
  const VolumeDown := "rgba(239, 68, 68, 0.4)"

  /** The crosshair handler: the readout after the move. */
  function OnCrosshairMove(m: CrosshairMove, data: seq<Bar>): ChartOhlcv {
    if OnSeries(m) then CandleReadout(m.candle, m.logical, data, m.volume) else EmptyReadout
  }

  /**
   * The readout is empty exactly when the cursor is off the series or the
   * candle or the index is missing. It has a change exactly when the index has
   * a bar before it, measured against that bar's close; otherwise it shows the
   * candle and the volume without change fields.
   */
  lemma Readout(m: CrosshairMove, data: seq<Bar>)
    ensures var r := OnCrosshairMove(m, data);
      && (r == EmptyReadout <==> !OnSeries(m) || m.candle.None? || m.logical.None?)
      && (r.change.Some? <==> OnSeries(m) && m.candle.Some? && m.logical.Some? && 0 < m.logical.value <= |data|)
      && (r.change.Some? ==>
            && r.change.value == m.candle.value.close - data[m.logical.value - 1].close
            && r.changePercent == Some(PercentOf(r.change.value, data[m.logical.value - 1].close)))
      && (r != EmptyReadout && r.change.None? ==>
            r == ChartOhlcv(Some(m.candle.value.open), Some(m.candle.value.high), Some(m.candle.value.low),
                            Some(m.candle.value.close), m.volume, None, None))
  {
    CandleReadoutCases(m.candle, m.logical, data, m.volume);
  }

  /** On the series both charts report the same readout as the advanced chart in candlestick mode. */
  lemma AgreesOnSeries(current: ChartOhlcv, m: CrosshairMove, data: seq<Bar>)
    requires OnSeries(m)
    ensures OnCrosshairMove(m, data) == AdvancedChart.OnCrosshairMove(current, AdvancedChart.Candlestick, m, data)
  {
  }

  /**
   * Off the series this chart clears the readout, while the advanced chart
   * shows the latest bar, with its change, once there are two bars.
   */
  lemma DiffersOffSeries(current: ChartOhlcv, chartType: AdvancedChart.ChartType, m: CrosshairMove, data: seq<Bar>)
    requires !OnSeries(m)
    ensures OnCrosshairMove(m, data) == EmptyReadout
    ensures |data| > 1 ==>
      AdvancedChart.OnCrosshairMove(current, chartType, m, data).change.Some? &&
      AdvancedChart.OnCrosshairMove(current, chartType, m, data) != OnCrosshairMove(m, data)
  {
  }

  /** The volume series of this chart. */
  function VolumeSeries(data: seq<Bar>): (bars: seq<HistogramPoint>)
    ensures |bars| == |data|
    ensures forall i :: 0 <= i < |data| ==>
      && bars[i].time == data[i].time
      && bars[i].value == data[i].value.GetOr(0.0)
      && (bars[i].color == VolumeUp <==> data[i].close >= data[i].open)
  {
    VolumeBarsAt(data, VolumeUp, VolumeDown);
    VolumeBars(data, VolumeUp, VolumeDown)
  }
}
