/**
 * `calculateBollingerBands` of the advanced chart: for every bar from bar
 * `period - 1` on, the mean of the last `period` closes (middle band) and that
 * mean plus and minus `stdDev` population standard deviations (upper and
 * lower bands).
 *
 * `Math.sqrt` is a parameter: the bands are computed with whatever `sqrt` the
 * caller passes, and the lemmas about them assume it is a square root.
 */
module Bollinger {
  import opened ChartTypes

  /** `Math.pow(d, 2)`. */
  function Square(d: real): real {
    d * d
  }

  /** `sqrt` returns the non-negative square root of every non-negative real. */
  ghost predicate IsSquareRoot(sqrt: real -> real) {
    forall v :: 0.0 <= v ==> 0.0 <= sqrt(v) && Square(sqrt(v)) == v
  }

  /** `slice.reduce((sum, d) => sum + Math.pow(d.close - avg, 2), 0)` over bars `lo .. hi - 1`. */
  function SquaredDeviations(data: seq<Bar>, lo: nat, hi: nat, avg: real): real
    requires lo <= hi <= |data|
    decreases hi - lo
  {
    if lo == hi then 0.0
    else SquaredDeviations(data, lo, hi - 1, avg) + Square(data[hi - 1].close - avg)
  }

  /** The mean of the `period` closes ending at bar `i` (the middle band). */
  function Middle(data: seq<Bar>, period: nat, i: nat): real
    requires 1 <= period && period - 1 <= i < |data|
  {
    SumCloses(data, i + 1 - period, i + 1) / (period as real)
  }

  /** The population variance of the window ending at bar `i` (divisor `period`). */
  function Variance(data: seq<Bar>, period: nat, i: nat): real
    requires 1 <= period && period - 1 <= i < |data|
  {
    SquaredDeviations(data, i + 1 - period, i + 1, Middle(data, period, i)) / (period as real)
  }

  /** `Math.sqrt(variance)`. */
  function StdAt(data: seq<Bar>, period: nat, i: nat, sqrt: real -> real): real
    requires 1 <= period && period - 1 <= i < |data|
  {
    sqrt(Variance(data, period, i))
  }

  function Upper(data: seq<Bar>, period: nat, stdDev: real, i: nat, sqrt: real -> real): real
    requires 1 <= period && period - 1 <= i < |data|
  {
    Middle(data, period, i) + stdDev * StdAt(data, period, i, sqrt)
  }

  function Lower(data: seq<Bar>, period: nat, stdDev: real, i: nat, sqrt: real -> real): real
    requires 1 <= period && period - 1 <= i < |data|
  {
    Middle(data, period, i) - stdDev * StdAt(data, period, i, sqrt)
  }

  /** The three series the function returns. */
  datatype Bands = Bands(upper: seq<LinePoint>, middle: seq<LinePoint>, lower: seq<LinePoint>)

  /** The bands, point `j` belonging to bar `j + period - 1`. */
  function BollingerBands(data: seq<Bar>, period: nat, stdDev: real, sqrt: real -> real): Bands
    requires period >= 1
  {
    var n := Count(data, period);
    Bands(
      seq(n, j requires 0 <= j < n => LinePoint(data[j + period - 1].time, Upper(data, period, stdDev, j + period - 1, sqrt))),
      seq(n, j requires 0 <= j < n => LinePoint(data[j + period - 1].time, Middle(data, period, j + period - 1))),
      seq(n, j requires 0 <= j < n => LinePoint(data[j + period - 1].time, Lower(data, period, stdDev, j + period - 1, sqrt))))
  }

  /** Each band has one point per bar with a full window, carrying that bar's time and value. */
  lemma BandsPointwise(data: seq<Bar>, period: nat, stdDev: real, sqrt: real -> real)
    requires period >= 1
    ensures var b := BollingerBands(data, period, stdDev, sqrt);
      && |b.upper| == |b.middle| == |b.lower| == Count(data, period)
      && forall j :: 0 <= j < Count(data, period) ==>
           && b.upper[j] == LinePoint(data[j + period - 1].time, Upper(data, period, stdDev, j + period - 1, sqrt))
           && b.middle[j] == LinePoint(data[j + period - 1].time, Middle(data, period, j + period - 1))
           && b.lower[j] == LinePoint(data[j + period - 1].time, Lower(data, period, stdDev, j + period - 1, sqrt))
  {
  }

  /**
   * The points of bars `period - 1 .. i - 1`, as the loop has pushed them when
   * it reaches bar `i`; nothing when the loop starts beyond the last bar.
   */
  function BandsUpTo(data: seq<Bar>, period: nat, stdDev: real, sqrt: real -> real, i: nat): Bands
    requires 1 <= period <= i + 1
    decreases i
  {
    if i == period - 1 || i > |data| then Bands([], [], [])
    else
      var b := BandsUpTo(data, period, stdDev, sqrt, i - 1);
      Bands(b.upper + [LinePoint(data[i - 1].time, Upper(data, period, stdDev, i - 1, sqrt))],
            b.middle + [LinePoint(data[i - 1].time, Middle(data, period, i - 1))],
            b.lower + [LinePoint(data[i - 1].time, Lower(data, period, stdDev, i - 1, sqrt))])
  }

  lemma {:induction false} BandsUpToAt(data: seq<Bar>, period: nat, stdDev: real, sqrt: real -> real, i: nat)
    requires 1 <= period && period - 1 <= i <= |data|
    decreases i
    ensures var b := BandsUpTo(data, period, stdDev, sqrt, i);
      && |b.upper| == |b.middle| == |b.lower| == i - (period - 1)
      && forall j :: 0 <= j < i - (period - 1) ==>
           && b.upper[j] == LinePoint(data[j + period - 1].time, Upper(data, period, stdDev, j + period - 1, sqrt))
           && b.middle[j] == LinePoint(data[j + period - 1].time, Middle(data, period, j + period - 1))
           && b.lower[j] == LinePoint(data[j + period - 1].time, Lower(data, period, stdDev, j + period - 1, sqrt))
  {
    if i > period - 1 {
      BandsUpToAt(data, period, stdDev, sqrt, i - 1);
    }
  }

  /** When the loop stops, the pushed points are the whole of each band. */
  lemma BandsUpToAll(data: seq<Bar>, period: nat, stdDev: real, sqrt: real -> real, i: nat)
    requires 1 <= period <= i + 1 && |data| <= i && (i == |data| || i == period - 1)
    ensures BandsUpTo(data, period, stdDev, sqrt, i) == BollingerBands(data, period, stdDev, sqrt)
  {
    BandsPointwise(data, period, stdDev, sqrt);
    if i == |data| {
      BandsUpToAt(data, period, stdDev, sqrt, i);
    }
  }

  /** `BandsUpTo` unfolded once, with the values the loop body computes for bar `i`. */
  lemma BandsUpToNext(data: seq<Bar>, period: nat, stdDev: real, sqrt: real -> real, i: nat, avg: real, std: real)
    requires 1 <= period && period - 1 <= i < |data|
    requires avg == Middle(data, period, i) && std == StdAt(data, period, i, sqrt)
    ensures var b := BandsUpTo(data, period, stdDev, sqrt, i);
      BandsUpTo(data, period, stdDev, sqrt, i + 1) ==
        Bands(b.upper + [LinePoint(data[i].time, avg + stdDev * std)],
              b.middle + [LinePoint(data[i].time, avg)],
              b.lower + [LinePoint(data[i].time, avg - stdDev * std)])
  {
    assert Upper(data, period, stdDev, i, sqrt) == avg + stdDev * std;
    assert Lower(data, period, stdDev, i, sqrt) == avg - stdDev * std;
  }

  /** `calculateBollingerBands`: one pass over the bars that have a full window behind them. */
  method CalculateBollingerBands(data: seq<Bar>, period: nat, stdDev: real, sqrt: real -> real) returns (bands: Bands)
    requires period >= 1
    ensures bands == BollingerBands(data, period, stdDev, sqrt)
  {
    var upper: seq<LinePoint> := [];
    var middle: seq<LinePoint> := [];
    var lower: seq<LinePoint> := [];
    var i: nat := period - 1;
    while i < |data|
      invariant period - 1 <= i && (i <= |data| || i == period - 1)
      invariant Bands(upper, middle, lower) == BandsUpTo(data, period, stdDev, sqrt, i)
    {
      var avg := Middle(data, period, i);
      var std := StdAt(data, period, i, sqrt);
      BandsUpToNext(data, period, stdDev, sqrt, i, avg, std);
      middle := middle + [LinePoint(data[i].time, avg)];
      upper := upper + [LinePoint(data[i].time, avg + stdDev * std)];
      lower := lower + [LinePoint(data[i].time, avg - stdDev * std)];
      i := i + 1;
    }
    BandsUpToAll(data, period, stdDev, sqrt, i);
    bands := Bands(upper, middle, lower);
  }

  /** A square is never negative, and positive unless its root is zero. */
  lemma SquareZero(d: real)
    ensures Square(d) >= 0.0
    ensures d != 0.0 ==> Square(d) > 0.0
  {
    if d > 0.0 {
      assert Square(d) / d == d;
    } else if d < 0.0 {
      assert Square(d) == Square(-d);
      assert Square(-d) / (-d) == -d;
    }
  }

  lemma {:induction false} SquaredDeviationsNonNegative(data: seq<Bar>, lo: nat, hi: nat, avg: real)
    requires lo <= hi <= |data|
    ensures SquaredDeviations(data, lo, hi, avg) >= 0.0
    decreases hi - lo
  {
    if lo < hi {
      SquaredDeviationsNonNegative(data, lo, hi - 1, avg);
      SquareZero(data[hi - 1].close - avg);
    }
  }

  /** A sum of squared deviations is zero exactly when every close equals the centre. */
  lemma {:induction false} SquaredDeviationsZero(data: seq<Bar>, lo: nat, hi: nat, avg: real)
    requires lo <= hi <= |data|
    ensures SquaredDeviations(data, lo, hi, avg) == 0.0 <==> forall k :: lo <= k < hi ==> data[k].close == avg
    decreases hi - lo
  {
    if lo < hi {
      var d := data[hi - 1].close - avg;
      SquaredDeviationsZero(data, lo, hi - 1, avg);
      SquaredDeviationsNonNegative(data, lo, hi - 1, avg);
      SquareZero(d);
      if d != 0.0 {
        assert SquaredDeviations(data, lo, hi, avg) > 0.0;
      }
    }
  }

  /** The variance is never negative, so the standard deviation is a real square root. */
  lemma VarianceNonNegative(data: seq<Bar>, period: nat, i: nat)
    requires 1 <= period && period - 1 <= i < |data|
    ensures Variance(data, period, i) >= 0.0
  {
    var avg := Middle(data, period, i);
    SquaredDeviationsNonNegative(data, i + 1 - period, i + 1, avg);
    var total := SquaredDeviations(data, i + 1 - period, i + 1, avg);
    assert total / (period as real) >= 0.0;
  }

  /** The middle band lies between the lowest and the highest close of its window. */
  lemma MiddleBounds(data: seq<Bar>, period: nat, i: nat, lo: real, hi: real)
    requires 1 <= period && period - 1 <= i < |data|
    requires forall k :: i + 1 - period <= k <= i ==> lo <= data[k].close <= hi
    ensures lo <= Middle(data, period, i) <= hi
  {
    SumClosesBounds(data, i + 1 - period, i + 1, lo, hi);
    MeanBounds(SumCloses(data, i + 1 - period, i + 1), period as real, lo, hi);
  }

  /**
   * At one bar the bands are symmetric around the middle band, `stdDev * std`
   * away from it; with a non-negative multiplier lower <= middle <= upper.
   */
  lemma BandOrderingAt(data: seq<Bar>, period: nat, stdDev: real, sqrt: real -> real, i: nat)
    requires 1 <= period && period - 1 <= i < |data| && IsSquareRoot(sqrt)
    ensures Upper(data, period, stdDev, i, sqrt) - Middle(data, period, i) == stdDev * StdAt(data, period, i, sqrt)
    ensures Middle(data, period, i) - Lower(data, period, stdDev, i, sqrt) == stdDev * StdAt(data, period, i, sqrt)
    ensures StdAt(data, period, i, sqrt) >= 0.0
    ensures stdDev >= 0.0 ==>
      Lower(data, period, stdDev, i, sqrt) <= Middle(data, period, i) <= Upper(data, period, stdDev, i, sqrt)
  {
    VarianceNonNegative(data, period, i);
    var s := StdAt(data, period, i, sqrt);
    assert s >= 0.0;
    if stdDev >= 0.0 {
      assert stdDev * s >= 0.0;
    }
  }

  /** `BandOrderingAt` over every point of the three series. */
  lemma BandOrdering(data: seq<Bar>, period: nat, stdDev: real, sqrt: real -> real)
    requires period >= 1 && IsSquareRoot(sqrt)
    ensures var b := BollingerBands(data, period, stdDev, sqrt);
      forall j :: 0 <= j < Count(data, period) ==>
        && b.upper[j].value - b.middle[j].value == stdDev * StdAt(data, period, j + period - 1, sqrt)
        && b.middle[j].value - b.lower[j].value == stdDev * StdAt(data, period, j + period - 1, sqrt)
        && StdAt(data, period, j + period - 1, sqrt) >= 0.0
        && (stdDev >= 0.0 ==> b.lower[j].value <= b.middle[j].value <= b.upper[j].value)
  {
    var b := BollingerBands(data, period, stdDev, sqrt);
    BandsPointwise(data, period, stdDev, sqrt);
    forall j | 0 <= j < Count(data, period)
      ensures b.upper[j].value - b.middle[j].value == stdDev * StdAt(data, period, j + period - 1, sqrt)
      ensures b.middle[j].value - b.lower[j].value == stdDev * StdAt(data, period, j + period - 1, sqrt)
      ensures StdAt(data, period, j + period - 1, sqrt) >= 0.0
      ensures stdDev >= 0.0 ==> b.lower[j].value <= b.middle[j].value <= b.upper[j].value
    {
      BandOrderingAt(data, period, stdDev, sqrt, j + period - 1);
    }
  }

  /** A window of equal closes `v` puts all three bands at `v`. */
  lemma ConstantWindow(data: seq<Bar>, period: nat, stdDev: real, sqrt: real -> real, i: nat, v: real)
    requires 1 <= period && period - 1 <= i < |data| && IsSquareRoot(sqrt)
    requires forall k :: i + 1 - period <= k <= i ==> data[k].close == v
    ensures Middle(data, period, i) == v
    ensures Variance(data, period, i) == 0.0
    ensures Upper(data, period, stdDev, i, sqrt) == v && Lower(data, period, stdDev, i, sqrt) == v
  {
    MiddleBounds(data, period, i, v, v);
    SquaredDeviationsZero(data, i + 1 - period, i + 1, v);
    var s := StdAt(data, period, i, sqrt);
    assert Square(s) == 0.0;
    SquareZero(s);
    assert stdDev * s == 0.0;
  }

  /**
   * With a positive multiplier the upper and lower bands meet exactly when the
   * window is constant, that is when the standard deviation is zero.
   */
  lemma BandsMeetIffConstant(data: seq<Bar>, period: nat, stdDev: real, sqrt: real -> real, i: nat)
    requires 1 <= period && period - 1 <= i < |data| && IsSquareRoot(sqrt) && stdDev > 0.0
    ensures Upper(data, period, stdDev, i, sqrt) == Lower(data, period, stdDev, i, sqrt) <==>
      forall k :: i + 1 - period <= k <= i ==> data[k].close == data[i].close
  {
    if forall k :: i + 1 - period <= k <= i ==> data[k].close == data[i].close {
      ConstantWindow(data, period, stdDev, sqrt, i, data[i].close);
    } else {
      var m := Middle(data, period, i);
      var k :| i + 1 - period <= k <= i && data[k].close != data[i].close;
      SquaredDeviationsZero(data, i + 1 - period, i + 1, m);
      assert data[k].close != m || data[i].close != m;
      VarianceNonNegative(data, period, i);
      var variance := Variance(data, period, i);
      assert variance != 0.0;
      var s := StdAt(data, period, i, sqrt);
      assert Square(s) == variance;
      SquareZero(s);
      assert s > 0.0;
      assert stdDev * s > 0.0;
    }
  }

  /** A run of 100s gives upper = middle = lower = 100 at every point. */
  lemma ConstantSeries(data: seq<Bar>, stdDev: real, sqrt: real -> real)
    requires IsSquareRoot(sqrt)
    requires forall k :: 0 <= k < |data| ==> data[k].close == 100.0
    ensures var b := BollingerBands(data, 20, stdDev, sqrt);
      forall j :: 0 <= j < Count(data, 20) ==>
        b.upper[j].value == b.middle[j].value == b.lower[j].value == 100.0
  {
    var b := BollingerBands(data, 20, stdDev, sqrt);
    BandsPointwise(data, 20, stdDev, sqrt);
    forall j | 0 <= j < Count(data, 20)
      ensures b.upper[j].value == b.middle[j].value == b.lower[j].value == 100.0
    {
      ConstantWindow(data, 20, stdDev, sqrt, j + 19, 100.0);
    }
  }
}
