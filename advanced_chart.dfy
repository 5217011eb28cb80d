/**
 * The pure rules of the advanced chart around its series: the crosshair
 * readout (which falls back to the latest bar when the cursor leaves the
 * series), the indicator menu and its toggle, and the volume bars.
 */
module AdvancedChart {
  import opened ChartTypes
  import opened Crosshair
  import opened Lists

  /** `chartType`: how the main series is drawn. */
  datatype ChartType = Candlestick | Line | Area

  /** Volume-bar colours for a bar that closed at or above its open, and below it. */
  const VolumeUp := "rgba(38, 166, 154, 0.5)"
  const VolumeDown := "rgba(239, 83, 80, 0.5)"

  /**
   * The candle under the cursor: the main series' own candle in candlestick
   * mode; in line and area mode the bar at `logical` with its close replaced
   * by the plotted value, when there is a value and such a bar.
   */
  function ResolveCandle(chartType: ChartType, m: CrosshairMove, data: seq<Bar>): Option<Candle> {
    if chartType == Candlestick then m.candle
    else if m.lineValue.Some? && m.logical.Some? && HasBar(data, m.logical.value) then
      var b := data[m.logical.value];
      Some(Candle(b.open, b.high, b.low, m.lineValue.value))
    else None
  }

  /** The latest bar against the one before it, with the latest bar's own volume. */
  function LatestReadout(data: seq<Bar>): ChartOhlcv
    requires |data| > 1
  {
    var latest := data[|data| - 1];
    WithChange(BarCandle(latest), latest.value, data[|data| - 2].close)
  }

  /**
   * The crosshair handler: `current` is the readout before the move, the
   * result the readout after it.
   */
  function OnCrosshairMove(current: ChartOhlcv, chartType: ChartType, m: CrosshairMove, data: seq<Bar>): ChartOhlcv {
    if OnSeries(m) then CandleReadout(ResolveCandle(chartType, m, data), m.logical, data, m.volume)
    else if |data| > 1 then LatestReadout(data)
    else current
  }

  /**
   * In line and area mode the readout is empty exactly when there is no plotted
   * value or no bar at the index; otherwise it shows that bar's open, high and
   * low with the plotted value as close, and a change against the previous
   * close exactly when the bar is not the first.
   */
  lemma LineModeReadout(current: ChartOhlcv, chartType: ChartType, m: CrosshairMove, data: seq<Bar>)
    requires chartType != Candlestick && OnSeries(m)
    ensures var r := OnCrosshairMove(current, chartType, m, data);
      && (r == EmptyReadout <==> m.lineValue.None? || m.logical.None? || !HasBar(data, m.logical.value))
      && (r != EmptyReadout ==>
            && r.open == Some(data[m.logical.value].open) && r.high == Some(data[m.logical.value].high)
            && r.low == Some(data[m.logical.value].low) && r.close == m.lineValue
            && r.volume == m.volume
            && (r.change.Some? <==> m.logical.value > 0)
            && (r.change.Some? ==> r.change.value == m.lineValue.value - data[m.logical.value - 1].close))
  {
    CandleReadoutCases(ResolveCandle(chartType, m, data), m.logical, data, m.volume);
  }

  /**
   * Off the series the readout is the on-series rule applied to the last bar
   * when there are at least two bars, and is left as it was otherwise.
   */
  lemma OffSeriesReadout(current: ChartOhlcv, chartType: ChartType, m: CrosshairMove, data: seq<Bar>)
    requires !OnSeries(m)
    ensures |data| > 1 ==>
      var r := OnCrosshairMove(current, chartType, m, data);
      && r == CandleReadout(Some(BarCandle(data[|data| - 1])), Some(|data| - 1), data, data[|data| - 1].value)
      && r.close == Some(data[|data| - 1].close)
      && r.change == Some(data[|data| - 1].close - data[|data| - 2].close)
    ensures |data| <= 1 ==> OnCrosshairMove(current, chartType, m, data) == current
  {
  }

  /** How the readout prints a change: a `+` in front of a non-negative one. */
  function ChangeSign(change: real): string {
    if change >= 0.0 then "+" else ""
  }

  /** A readout with a change shows either the `+` sign or the danger colour, never both. */
  lemma ChangeSignMatchesColor(r: ChartOhlcv)
    requires ShowsChange(r)
    ensures ChangeSign(r.change.value) == "+" <==> ChangeColor(r) == ChangeUp
  {
    ChangeColorSign(r);
  }

  /** An entry of the indicator menu. */
  datatype Indicator = Indicator(id: string, name: string, enabled: bool)

  const RsiId := "rsi"

  /** `availableIndicators`: RSI is enabled only when RSI data was supplied. */
  function AvailableIndicators(rsiCount: nat): (menu: seq<Indicator>)
    ensures |menu| == 6
    ensures forall i :: 0 <= i < |menu| ==> (menu[i].enabled <==> menu[i].id != RsiId || rsiCount > 0)
  {
    [ Indicator(RsiId, "RSI (14)", rsiCount > 0),
      Indicator("ema9", "EMA (9)", true),
      Indicator("ema21", "EMA (21)", true),
      Indicator("ema50", "EMA (50)", true),
      Indicator("bb", "Bollinger Bands", true),
      Indicator("macd", "MACD (12, 26, 9)", true) ]
  }

  /** The menu ids are pairwise distinct, so an id names at most one entry. */
  lemma AvailableIndicatorsDistinct(rsiCount: nat)
    ensures forall i, j :: 0 <= i < j < |AvailableIndicators(rsiCount)| ==>
      AvailableIndicators(rsiCount)[i].id != AvailableIndicators(rsiCount)[j].id
  {
    var menu := AvailableIndicators(rsiCount);
    assert menu[0].id[0] == 'r' && menu[4].id[0] == 'b' && menu[5].id[0] == 'm';
    assert menu[1].id[0] == 'e' && menu[2].id[0] == 'e' && menu[3].id[0] == 'e';
    assert |menu[1].id| == 4 && |menu[2].id| == 5 && |menu[3].id| == 5;
    assert menu[2].id[3] != menu[3].id[3];
  }

  /**
   * `toggleIndicator`: an active id is removed (every occurrence of it), an
   * inactive one is appended.
   */
  function ToggleIndicator(active: seq<string>, id: string): (r: seq<string>)
    ensures id in r <==> id !in active
    ensures forall x :: x != id ==> (x in r <==> x in active)
  {
    if id in active then
      WithoutMembership(active, id, id);
      forall x | x != id ensures x in Without(active, id) <==> x in active {
        WithoutMembership(active, id, x);
      }
      Without(active, id)
    else active + [id]
  }

  /** Toggling an inactive id appends it after the active ones. */
  lemma ToggleAppends(active: seq<string>, id: string)
    requires id !in active
    ensures |ToggleIndicator(active, id)| == |active| + 1
    ensures ToggleIndicator(active, id)[..|active|] == active
    ensures ToggleIndicator(active, id)[|active|] == id
  {
  }

  /** Toggling an active id leaves no occurrence of it and every other id as often as before. */
  lemma ToggleRemovesAll(active: seq<string>, id: string)
    requires id in active
    ensures multiset(ToggleIndicator(active, id)) == multiset(active)[id := 0]
  {
    WithoutMultiset(active, id);
  }

  /** Whatever the case, the other ids stay in the order they had. */
  lemma ToggleKeepsOrder(active: seq<string>, id: string)
    ensures Without(ToggleIndicator(active, id), id) == Without(active, id)
  {
    if id in active {
      WithoutIdempotent(active, id);
    } else {
      WithoutAppend(active, [id], id);
      assert Without([id], id) == Without([id][1..], id);
      assert Without(active + [id], id) == Without(active, id) + [];
    }
  }

  /** Toggling an inactive id twice restores the list; an active id comes back once, at the end. */
  lemma ToggleTwice(active: seq<string>, id: string)
    ensures id !in active ==> ToggleIndicator(ToggleIndicator(active, id), id) == active
    ensures id in active ==> ToggleIndicator(ToggleIndicator(active, id), id) == Without(active, id) + [id]
  {
    if id !in active {
      ToggleKeepsOrder(active, id);
      WithoutAbsent(active, id);
    }
  }

  /** A click on a menu entry: only an enabled entry toggles its id. */
  function ClickIndicator(active: seq<string>, indicator: Indicator): seq<string> {
    if indicator.enabled then ToggleIndicator(active, indicator.id) else active
  }

  /** A click changes the active list exactly when the entry is enabled. */
  lemma ClickChanges(active: seq<string>, indicator: Indicator)
    ensures ClickIndicator(active, indicator) == active <==> !indicator.enabled
  {
    if indicator.enabled {
      assert indicator.id in ToggleIndicator(active, indicator.id) <==> indicator.id !in active;
    }
  }

  /** Without RSI data the RSI entry is the only one a click cannot activate. */
  lemma RsiNeedsData(active: seq<string>, rsiCount: nat)
    ensures var rsi := AvailableIndicators(rsiCount)[0];
      rsi.id == RsiId && (ClickIndicator(active, rsi) == active <==> rsiCount == 0)
    ensures forall i :: 1 <= i < 6 ==> ClickIndicator(active, AvailableIndicators(rsiCount)[i]) != active
  {
    var menu := AvailableIndicators(rsiCount);
    ClickChanges(active, menu[0]);
    forall i | 1 <= i < 6 ensures ClickIndicator(active, menu[i]) != active {
      assert menu[i].id != RsiId by {
        assert menu[i].id[0] != 'r';
      }
      ClickChanges(active, menu[i]);
    }
  }

  /** The volume series of the advanced chart. */
  function VolumeSeries(data: seq<Bar>): (bars: seq<HistogramPoint>)
    ensures |bars| == |data|
    ensures forall i :: 0 <= i < |data| ==>
      && bars[i].time == data[i].time
      && bars[i].value == data[i].value.GetOr(0.0)
      && (bars[i].color == VolumeUp <==> data[i].close >= data[i].open)
  {
    VolumeBarsAt(data, VolumeUp, VolumeDown);
    VolumeBars(data, VolumeUp, VolumeDown)
  }
}
