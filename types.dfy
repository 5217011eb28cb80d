/**
 * The value shapes the charts work on: one OHLCV bar (`CandlestickData`),
 * the `(time, value)` points a line series is fed, the coloured points a
 * histogram series is fed, and the crosshair readout record (`ChartOHLCV`).
 * Timestamps are whole seconds (`UTCTimestamp`), prices are reals.
 */
module ChartTypes {

  /** An optional field of a TypeScript record (`x?: number`). */
  datatype Option<+T> = None | Some(value: T) {
    function GetOr(default: T): T {
      match this
      case Some(v) => v
      case None => default
    }
  }

  /** One OHLCV bar; `value` is the optional volume field of the bar. */
  datatype Bar = Bar(time: int, open: real, high: real, low: real, close: real, value: Option<real>)

  /** A point of a line series. */
  datatype LinePoint = LinePoint(time: int, value: real)

  /** A point of a histogram series, with the colour string handed to the chart. */
  datatype HistogramPoint = HistogramPoint(time: int, value: real, color: string)

  /**
   * A percentage as JavaScript computes it: a finite number, or the
   * `Infinity`/`NaN` a division by a zero previous close produces.
   */
  datatype Percent = Finite(percent: real) | NotFinite

  /** The crosshair readout: every field may be absent, as in `ChartOHLCV`. */
  datatype ChartOhlcv = ChartOhlcv(
    open: Option<real>, high: Option<real>, low: Option<real>, close: Option<real>,
    volume: Option<real>, change: Option<real>, changePercent: Option<Percent>)

  /** The readout `{}`: nothing to show. */
  const EmptyReadout := ChartOhlcv(None, None, None, None, None, None, None)

  /** The number of bars with a full window of `period` bars behind them. */
  function Count(data: seq<Bar>, period: nat): nat {
    if |data| >= period then |data| - period + 1 else 0
  }

  /**
   * `data.slice(lo, hi).reduce((sum, d) => sum + d.close, 0)`: the closes of
   * bars `lo .. hi - 1` added up from the left.
   */
  function SumCloses(data: seq<Bar>, lo: nat, hi: nat): real
    requires lo <= hi <= |data|
    decreases hi - lo
  {
    if lo == hi then 0.0 else SumCloses(data, lo, hi - 1) + data[hi - 1].close
  }

  /** A sum of closes that all lie in `[low, high]` lies in `[n * low, n * high]`. */
  lemma {:induction false} SumClosesBounds(data: seq<Bar>, lo: nat, hi: nat, low: real, high: real)
    requires lo <= hi <= |data|
    requires forall k :: lo <= k < hi ==> low <= data[k].close <= high
    ensures ((hi - lo) as real) * low <= SumCloses(data, lo, hi) <= ((hi - lo) as real) * high
    decreases hi - lo
  {
    if lo < hi {
      SumClosesBounds(data, lo, hi - 1, low, high);
      assert ((hi - lo) as real) * low == ((hi - 1 - lo) as real) * low + low;
      assert ((hi - lo) as real) * high == ((hi - 1 - lo) as real) * high + high;
    }
  }

  /** A quotient by a positive `n` of a value in `[n * lo, n * hi]` lies in `[lo, hi]`. */
  lemma MeanBounds(total: real, n: real, lo: real, hi: real)
    requires n > 0.0
    requires n * lo <= total <= n * hi
    ensures lo <= total / n <= hi
  {
    var m := total / n;
    assert total == n * m;
  }
}
