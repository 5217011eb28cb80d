/**
 * `calculateEMA` of the advanced chart: an exponential moving average of the
 * closes with smoothing factor `2 / (period + 1)`, seeded with the mean of the
 * first `period` closes.
 *
 * The code applies the update at index `period - 1` too, so the first point
 * is one smoothing step away from the seed, not the seed itself.
 */
module MovingAverage {
  import opened ChartTypes

  /** The smoothing factor `multiplier`. */
  function K(period: nat): real
    requires period >= 1
  {
    2.0 / (period as real + 1.0)
  }

  lemma KInUnitInterval(period: nat)
    requires period >= 1
    ensures 0.0 < K(period) <= 1.0
  {
    assert K(period) * (period as real + 1.0) == 2.0;
  }

  /** One update `ema = (close - ema) * multiplier + ema`. */
  function Step(close: real, prev: real, k: real): real {
    (close - prev) * k + prev
  }

  /** A step with `0 <= k <= 1` is a convex combination of `close` and `prev`. */
  lemma StepBounds(close: real, prev: real, k: real, lo: real, hi: real)
    requires 0.0 <= k <= 1.0
    requires lo <= close <= hi && lo <= prev <= hi
    ensures lo <= Step(close, prev, k) <= hi
  {
    var d := close - prev;
    assert Step(close, prev, k) == prev + k * d;
    if d >= 0.0 {
      ScaleDown(k, d);
    } else {
      ScaleDown(k, -d);
      assert k * (-d) == -(k * d);
    }
  }

  lemma ScaleDown(k: real, d: real)
    requires 0.0 <= k <= 1.0 && d >= 0.0
    ensures 0.0 <= k * d <= d
  {
    assert (1.0 - k) * d >= 0.0;
  }

  /** The mean of the first `period` closes. */
  function Seed(data: seq<Bar>, period: nat): real
    requires 1 <= period <= |data|
  {
    SumCloses(data, 0, period) / (period as real)
  }

  /** The value the average holds after bar `j + period - 1`. */
  function EmaAt(data: seq<Bar>, period: nat, j: nat): real
    requires period >= 1 && j + period <= |data|
    decreases j
  {
    Step(data[j + period - 1].close, if j == 0 then Seed(data, period) else EmaAt(data, period, j - 1), K(period))
  }

  /** `EmaAt` unfolded once: the first value is a step from the seed ... */
  lemma EmaAtFirst(data: seq<Bar>, period: nat)
    requires 1 <= period <= |data|
    ensures EmaAt(data, period, 0) == Step(data[period - 1].close, Seed(data, period), K(period))
  {
  }

  /** ... and every later one a step from the value before it. */
  lemma EmaAtNext(data: seq<Bar>, period: nat, j: nat)
    requires period >= 1 && j + 1 + period <= |data|
    ensures EmaAt(data, period, j + 1) == Step(data[j + period].close, EmaAt(data, period, j), K(period))
  {
  }

  /** The series `calculateEMA(data, period)` returns, point by point. */
  function Ema(data: seq<Bar>, period: nat): seq<LinePoint>
    requires period >= 1
  {
    if |data| < period then [] else
      seq(|data| - period + 1, j requires 0 <= j < |data| - period + 1 =>
      LinePoint(data[j + period - 1].time, EmaAt(data, period, j)))
  }

  /** Length and alignment: one point per bar from bar `period - 1` on, carrying that bar's time. */
  lemma EmaPointwise(data: seq<Bar>, period: nat)
    requires period >= 1
    ensures |Ema(data, period)| == Count(data, period)
    ensures forall j :: 0 <= j < |Ema(data, period)| ==>
      Ema(data, period)[j] == LinePoint(data[j + period - 1].time, EmaAt(data, period, j))
  {
  }

  /** The first `n` points of the series, as the loop of `calculateEMA` has pushed them. */
  function EmaUpTo(data: seq<Bar>, period: nat, n: nat): seq<LinePoint>
    requires period >= 1 && (n > 0 ==> n + period <= |data| + 1)
  {
    if n == 0 then [] else EmaUpTo(data, period, n - 1) + [LinePoint(data[n + period - 2].time, EmaAt(data, period, n - 1))]
  }

  lemma {:induction false} EmaUpToAt(data: seq<Bar>, period: nat, n: nat)
    requires period >= 1 && (n > 0 ==> n + period <= |data| + 1)
    ensures |EmaUpTo(data, period, n)| == n
    ensures forall j :: 0 <= j < n ==>
      EmaUpTo(data, period, n)[j] == LinePoint(data[j + period - 1].time, EmaAt(data, period, j))
  {
    if n > 0 {
      EmaUpToAt(data, period, n - 1);
    }
  }

  /** Once every bar has been visited the pushed points are the whole series. */
  lemma EmaUpToAll(data: seq<Bar>, period: nat)
    requires period >= 1
    ensures EmaUpTo(data, period, Count(data, period)) == Ema(data, period)
  {
    if |data| >= period {
      EmaUpToAt(data, period, |data| - period + 1);
    }
    EmaPointwise(data, period);
  }

  /** `calculateEMA`: one pass over the bars with a running average. */
  method CalculateEma(data: seq<Bar>, period: nat) returns (emaData: seq<LinePoint>)
    requires period >= 1
    ensures emaData == Ema(data, period)
  {
    var multiplier := K(period);
    emaData := [];
    // `data.slice(0, period)` is shorter than `period` when there are fewer bars
    var ema := SumCloses(data, 0, if period < |data| then period else |data|) / (period as real);
    var i := 0;
    while i < |data|
      invariant 0 <= i <= |data|
      invariant emaData == EmaUpTo(data, period, if i >= period then i - period + 1 else 0)
      invariant i >= period ==> ema == EmaAt(data, period, i - period)
      invariant i < period <= |data| ==> ema == Seed(data, period)
    {
      if i >= period - 1 {
        if i == period - 1 { EmaAtFirst(data, period); } else { EmaAtNext(data, period, i - period); }
        ema := Step(data[i].close, ema, multiplier);
        emaData := emaData + [LinePoint(data[i].time, ema)];
      }
      i := i + 1;
    }
    EmaUpToAll(data, period);
  }

  /** The first point is one smoothing step from the seed; every later one is a step from its predecessor. */
  lemma EmaRecurrence(data: seq<Bar>, period: nat)
    requires period >= 1
    ensures |data| >= period ==>
      Ema(data, period)[0].value == Step(data[period - 1].close, Seed(data, period), K(period))
    ensures forall j :: 0 < j < |Ema(data, period)| ==>
      Ema(data, period)[j].value == Step(data[j + period - 1].close, Ema(data, period)[j - 1].value, K(period))
  {
  }

  /** Every average lies between the lowest and the highest close seen so far. */
  lemma {:induction false} EmaAtBounds(data: seq<Bar>, period: nat, j: nat, lo: real, hi: real)
    requires period >= 1 && j + period <= |data|
    requires forall i :: 0 <= i < j + period ==> lo <= data[i].close <= hi
    ensures lo <= EmaAt(data, period, j) <= hi
  {
    KInUnitInterval(period);
    if j == 0 {
      SumClosesBounds(data, 0, period, lo, hi);
      MeanBounds(SumCloses(data, 0, period), period as real, lo, hi);
    } else {
      EmaAtBounds(data, period, j - 1, lo, hi);
    }
    StepBounds(data[j + period - 1].close,
      if j == 0 then Seed(data, period) else EmaAt(data, period, j - 1), K(period), lo, hi);
  }

  /** The bound of `EmaAtBounds`, point by point over the whole series. */
  lemma EmaBounds(data: seq<Bar>, period: nat, lo: real, hi: real)
    requires period >= 1
    ensures forall j :: (0 <= j < |Ema(data, period)| &&
                         forall i :: 0 <= i < j + period ==> lo <= data[i].close <= hi) ==>
      lo <= Ema(data, period)[j].value <= hi
  {
    forall j | 0 <= j < |Ema(data, period)| &&
      (forall i :: 0 <= i < j + period ==> lo <= data[i].close <= hi)
      ensures lo <= Ema(data, period)[j].value <= hi
    {
      EmaAtBounds(data, period, j, lo, hi);
    }
  }

  /** A run of equal closes has an average equal to that close at every point. */
  lemma EmaConstant(data: seq<Bar>, period: nat, v: real)
    requires period >= 1
    requires forall i :: 0 <= i < |data| ==> data[i].close == v
    ensures forall j :: 0 <= j < |Ema(data, period)| ==> Ema(data, period)[j].value == v
  {
    EmaBounds(data, period, v, v);
  }

  /** Closes 10, 11, 12, 13, 14 with period 3 give 11.5, 12.25, 13.125 (the seed 11 is never emitted). */
  lemma EmaExample()
    ensures var data := [Bar(1, 10.0, 10.0, 10.0, 10.0, None), Bar(2, 11.0, 11.0, 11.0, 11.0, None),
                         Bar(3, 12.0, 12.0, 12.0, 12.0, None), Bar(4, 13.0, 13.0, 13.0, 13.0, None),
                         Bar(5, 14.0, 14.0, 14.0, 14.0, None)];
      Ema(data, 3) == [LinePoint(3, 11.5), LinePoint(4, 12.25), LinePoint(5, 13.125)]
  {
    var data := [Bar(1, 10.0, 10.0, 10.0, 10.0, None), Bar(2, 11.0, 11.0, 11.0, 11.0, None),
                 Bar(3, 12.0, 12.0, 12.0, 12.0, None), Bar(4, 13.0, 13.0, 13.0, 13.0, None),
                 Bar(5, 14.0, 14.0, 14.0, 14.0, None)];
    assert SumCloses(data, 0, 1) == 10.0;
    assert SumCloses(data, 0, 2) == 21.0;
    assert SumCloses(data, 0, 3) == 33.0;
    assert Seed(data, 3) == 11.0;
    assert K(3) == 0.5;
    assert EmaAt(data, 3, 0) == 11.5;
    assert EmaAt(data, 3, 1) == 12.25;
    assert EmaAt(data, 3, 2) == 13.125;
  }
}
