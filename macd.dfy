/**
 * `calculateMACD` of the advanced chart: the difference of a fast and a slow
 * EMA of the closes (the MACD line), an EMA of that difference (the signal
 * line) and the difference of the two (the histogram).
 *
 * Both differences pair their operands by array position, not by time: the
 * fast and the slow average start at different bars, and so do the MACD and
 * the signal line. The model keeps that pairing.
 */
module Macd {
  import opened ChartTypes
  import opened MovingAverage

  /** Histogram colours for a non-negative and for a negative value. */
  const HistogramUp := "rgba(38, 166, 154, 0.5)"
  const HistogramDown := "rgba(239, 83, 80, 0.5)"

  /** The three series `calculateMACD` returns. */
  datatype MacdSeries = MacdSeries(macdLine: seq<LinePoint>, signalLine: seq<LinePoint>, histogram: seq<HistogramPoint>)

  function Min(a: int, b: int): int {
    if a <= b then a else b
  }

  /** `fast[i].value - slow[i].value` at the time of `fast[i]`, for every position both have. */
  function MacdLine(fast: seq<LinePoint>, slow: seq<LinePoint>): seq<LinePoint> {
    seq(Min(|fast|, |slow|), i requires 0 <= i < Min(|fast|, |slow|) =>
      LinePoint(fast[i].time, fast[i].value - slow[i].value))
  }

  /** `macdLine.map(...)`: each point as a flat bar whose four prices are its value, with volume 0. */
  function AsBars(line: seq<LinePoint>): seq<Bar> {
    seq(|line|, i requires 0 <= i < |line| =>
      Bar(line[i].time, line[i].value, line[i].value, line[i].value, line[i].value, Some(0.0)))
  }

  /** `value >= 0 ? up : down`. */
  function HistogramColor(value: real): string {
    if value >= 0.0 then HistogramUp else HistogramDown
  }

  /** The colour tells the sign: up exactly for a non-negative value, down exactly for a negative one. */
  lemma HistogramColorSign(value: real)
    ensures HistogramColor(value) == HistogramUp <==> value >= 0.0
    ensures HistogramColor(value) == HistogramDown <==> value < 0.0
  {
    assert HistogramUp[5] != HistogramDown[5];
  }

  /** `macdLine[i].value - signalLine[i].value` at the time of `macdLine[i]`, coloured by its sign. */
  function Histogram(macd: seq<LinePoint>, signal: seq<LinePoint>): seq<HistogramPoint> {
    seq(Min(|macd|, |signal|), i requires 0 <= i < Min(|macd|, |signal|) =>
      HistogramPoint(macd[i].time, macd[i].value - signal[i].value, HistogramColor(macd[i].value - signal[i].value)))
  }

  /** Each histogram point subtracts the signal point at the same position and keeps the MACD point's time. */
  lemma HistogramPointwise(macd: seq<LinePoint>, signal: seq<LinePoint>)
    ensures |Histogram(macd, signal)| == Min(|macd|, |signal|)
    ensures forall i :: 0 <= i < Min(|macd|, |signal|) ==>
      && Histogram(macd, signal)[i].time == macd[i].time
      && Histogram(macd, signal)[i].value == macd[i].value - signal[i].value
      && (Histogram(macd, signal)[i].color == HistogramUp <==> Histogram(macd, signal)[i].value >= 0.0)
      && (Histogram(macd, signal)[i].color == HistogramDown <==> Histogram(macd, signal)[i].value < 0.0)
  {
    forall i | 0 <= i < Min(|macd|, |signal|) {
      HistogramColorSign(macd[i].value - signal[i].value);
    }
  }

  /** The result of `calculateMACD(data, fastPeriod, slowPeriod, signalPeriod)`. */
  function MacdOf(data: seq<Bar>, fastPeriod: nat, slowPeriod: nat, signalPeriod: nat): MacdSeries
    requires fastPeriod >= 1 && slowPeriod >= 1 && signalPeriod >= 1
  {
    var macd := MacdLine(Ema(data, fastPeriod), Ema(data, slowPeriod));
    var signal := Ema(AsBars(macd), signalPeriod);
    MacdSeries(macd, signal, Histogram(macd, signal))
  }

  /** The first loop of `calculateMACD`: pair the two averages position by position. */
  method MacdLinePoints(fastEma: seq<LinePoint>, slowEma: seq<LinePoint>) returns (macdLine: seq<LinePoint>)
    ensures macdLine == MacdLine(fastEma, slowEma)
  {
    macdLine := [];
    var minLength := Min(|fastEma|, |slowEma|);
    var i := 0;
    while i < minLength
      invariant 0 <= i <= minLength
      invariant |macdLine| == i
      invariant forall j :: 0 <= j < i ==>
        macdLine[j] == LinePoint(fastEma[j].time, fastEma[j].value - slowEma[j].value)
    {
      macdLine := macdLine + [LinePoint(fastEma[i].time, fastEma[i].value - slowEma[i].value)];
      i := i + 1;
    }
  }

  /** The second loop of `calculateMACD`: subtract the signal line position by position. */
  method HistogramPoints(macdLine: seq<LinePoint>, signalLine: seq<LinePoint>) returns (histogram: seq<HistogramPoint>)
    ensures histogram == Histogram(macdLine, signalLine)
  {
    histogram := [];
    var i := 0;
    while i < Min(|macdLine|, |signalLine|)
      invariant 0 <= i <= Min(|macdLine|, |signalLine|)
      invariant |histogram| == i
      invariant forall j :: 0 <= j < i ==>
        histogram[j] == HistogramPoint(macdLine[j].time, macdLine[j].value - signalLine[j].value,
                                       HistogramColor(macdLine[j].value - signalLine[j].value))
    {
      var value := macdLine[i].value - signalLine[i].value;
      histogram := histogram + [HistogramPoint(macdLine[i].time, value, HistogramColor(value))];
      i := i + 1;
    }
  }

  /** `calculateMACD`: two averages, the MACD line, the average of the MACD line, the histogram. */
  method CalculateMacd(data: seq<Bar>, fastPeriod: nat, slowPeriod: nat, signalPeriod: nat) returns (r: MacdSeries)
    requires fastPeriod >= 1 && slowPeriod >= 1 && signalPeriod >= 1
    ensures r == MacdOf(data, fastPeriod, slowPeriod, signalPeriod)
  {
    var fastEma := CalculateEma(data, fastPeriod);
    var slowEma := CalculateEma(data, slowPeriod);
    var macdLine := MacdLinePoints(fastEma, slowEma);
    var signalLine := CalculateEma(AsBars(macdLine), signalPeriod);
    var histogram := HistogramPoints(macdLine, signalLine);
    r := MacdSeries(macdLine, signalLine, histogram);
  }

  /**
   * The MACD line has one point per bar where both averages exist, paired by
   * position: point `i` carries the time of bar `i + fastPeriod - 1` and
   * subtracts the slow average at bar `i + slowPeriod - 1`.
   */
  lemma MacdLineAt(data: seq<Bar>, fastPeriod: nat, slowPeriod: nat, signalPeriod: nat)
    requires fastPeriod >= 1 && slowPeriod >= 1 && signalPeriod >= 1
    ensures var m := MacdOf(data, fastPeriod, slowPeriod, signalPeriod).macdLine;
      && |m| == Min(Count(data, fastPeriod), Count(data, slowPeriod))
      && forall i :: 0 <= i < |m| ==>
           && i + fastPeriod <= |data| && i + slowPeriod <= |data|
           && m[i].time == data[i + fastPeriod - 1].time
           && m[i].value == EmaAt(data, fastPeriod, i) - EmaAt(data, slowPeriod, i)
  {
    EmaPointwise(data, fastPeriod);
    EmaPointwise(data, slowPeriod);
  }

  /**
   * The signal line is the EMA of the MACD values taken as closes: point `i`
   * carries the time of MACD point `i + signalPeriod - 1`, which is the time
   * of bar `i + signalPeriod + fastPeriod - 2`.
   */
  lemma SignalLineAt(data: seq<Bar>, fastPeriod: nat, slowPeriod: nat, signalPeriod: nat)
    requires fastPeriod >= 1 && slowPeriod >= 1 && signalPeriod >= 1
    ensures var r := MacdOf(data, fastPeriod, slowPeriod, signalPeriod);
      && r.signalLine == Ema(AsBars(r.macdLine), signalPeriod)
      && |r.signalLine| == Count(AsBars(r.macdLine), signalPeriod)
      && forall i :: 0 <= i < |r.signalLine| ==>
           && i + signalPeriod + fastPeriod - 2 < |data|
           && r.signalLine[i].time == r.macdLine[i + signalPeriod - 1].time
           && r.signalLine[i].time == data[i + signalPeriod + fastPeriod - 2].time
           && r.signalLine[i].value == EmaAt(AsBars(r.macdLine), signalPeriod, i)
  {
    var r := MacdOf(data, fastPeriod, slowPeriod, signalPeriod);
    var bars := AsBars(r.macdLine);
    MacdLineAt(data, fastPeriod, slowPeriod, signalPeriod);
    EmaPointwise(bars, signalPeriod);
    assert |bars| == |r.macdLine|;
    forall i | 0 <= i < |r.signalLine|
      ensures r.signalLine[i].time == r.macdLine[i + signalPeriod - 1].time
    {
      assert bars[i + signalPeriod - 1].time == r.macdLine[i + signalPeriod - 1].time;
    }
  }

  /**
   * The histogram has one point per signal point; point `i` carries the time
   * of MACD point `i`, the difference of MACD and signal point `i`, and the up
   * colour exactly when that difference is not negative.
   */
  lemma HistogramAt(data: seq<Bar>, fastPeriod: nat, slowPeriod: nat, signalPeriod: nat)
    requires fastPeriod >= 1 && slowPeriod >= 1 && signalPeriod >= 1
    ensures var r := MacdOf(data, fastPeriod, slowPeriod, signalPeriod);
      && |r.histogram| == |r.signalLine| <= |r.macdLine|
      && forall i :: 0 <= i < |r.histogram| ==>
           && r.histogram[i].time == r.macdLine[i].time
           && r.histogram[i].value == r.macdLine[i].value - r.signalLine[i].value
           && (r.histogram[i].color == HistogramUp <==> r.histogram[i].value >= 0.0)
           && (r.histogram[i].color == HistogramDown <==> r.histogram[i].value < 0.0)
  {
    var r := MacdOf(data, fastPeriod, slowPeriod, signalPeriod);
    EmaPointwise(AsBars(r.macdLine), signalPeriod);
    HistogramPointwise(r.macdLine, r.signalLine);
  }

  /**
   * On bars with strictly increasing times and a signal period above 1, every
   * histogram point is stamped earlier than the signal point it subtracts.
   */
  lemma HistogramLagsSignal(data: seq<Bar>, fastPeriod: nat, slowPeriod: nat, signalPeriod: nat)
    requires fastPeriod >= 1 && slowPeriod >= 1 && signalPeriod > 1
    requires forall a, b :: 0 <= a < b < |data| ==> data[a].time < data[b].time
    ensures var r := MacdOf(data, fastPeriod, slowPeriod, signalPeriod);
      forall i :: 0 <= i < |r.histogram| ==> r.histogram[i].time < r.signalLine[i].time
  {
    var r := MacdOf(data, fastPeriod, slowPeriod, signalPeriod);
    MacdLineAt(data, fastPeriod, slowPeriod, signalPeriod);
    SignalLineAt(data, fastPeriod, slowPeriod, signalPeriod);
    HistogramAt(data, fastPeriod, slowPeriod, signalPeriod);
    forall i | 0 <= i < |r.histogram|
      ensures r.histogram[i].time < r.signalLine[i].time
    {
      assert r.histogram[i].time == data[i + fastPeriod - 1].time;
    }
  }

  /**
   * With the default periods 12, 26 and 9 the histogram has `len - 33` points
   * when there are at least 34 bars, and none otherwise.
   */
  lemma DefaultHistogramLength(data: seq<Bar>)
    ensures var r := MacdOf(data, 12, 26, 9);
      && |r.macdLine| == (if |data| >= 26 then |data| - 25 else 0)
      && |r.histogram| == (if |data| >= 34 then |data| - 33 else 0)
  {
    var r := MacdOf(data, 12, 26, 9);
    MacdLineAt(data, 12, 26, 9);
    HistogramAt(data, 12, 26, 9);
    EmaPointwise(AsBars(r.macdLine), 9);
  }

  /** Two series holding the same value everywhere have a zero MACD line. */
  lemma MacdLineOfEqual(fast: seq<LinePoint>, slow: seq<LinePoint>, v: real)
    requires forall i :: 0 <= i < |fast| ==> fast[i].value == v
    requires forall i :: 0 <= i < |slow| ==> slow[i].value == v
    ensures forall i :: 0 <= i < |MacdLine(fast, slow)| ==> MacdLine(fast, slow)[i].value == 0.0
  {
  }

  /** A series of equal closes has a zero MACD line, a zero histogram, all in the up colour. */
  lemma ConstantMacd(data: seq<Bar>, fastPeriod: nat, slowPeriod: nat, signalPeriod: nat, v: real)
    requires fastPeriod >= 1 && slowPeriod >= 1 && signalPeriod >= 1
    requires forall k :: 0 <= k < |data| ==> data[k].close == v
    ensures var r := MacdOf(data, fastPeriod, slowPeriod, signalPeriod);
      && (forall i :: 0 <= i < |r.macdLine| ==> r.macdLine[i].value == 0.0)
      && (forall i :: 0 <= i < |r.signalLine| ==> r.signalLine[i].value == 0.0)
      && (forall i :: 0 <= i < |r.histogram| ==> r.histogram[i].value == 0.0 && r.histogram[i].color == HistogramUp)
  {
    var fast := Ema(data, fastPeriod);
    var slow := Ema(data, slowPeriod);
    EmaConstant(data, fastPeriod, v);
    EmaConstant(data, slowPeriod, v);
    var macd := MacdLine(fast, slow);
    MacdLineOfEqual(fast, slow, v);
    var bars := AsBars(macd);
    assert forall k :: 0 <= k < |bars| ==> bars[k].close == 0.0;
    var signal := Ema(bars, signalPeriod);
    EmaConstant(bars, signalPeriod, 0.0);
    EmaPointwise(bars, signalPeriod);
    HistogramPointwise(macd, signal);
  }
}
