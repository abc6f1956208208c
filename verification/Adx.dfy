/**
 * Wilder's ADX as the program computes it, and what its values really belong to.
 *
 * Bars whose smoothed true range is zero add nothing to the DX list, but the position of
 * the first ADX value does not move. So a flat start shifts the values to earlier bars.
 */
module Adx {
  import opened Shared
  import opened Averages
  import opened Indicators
  import opened IndicatorProperties

  function PlusDmAt(ks: seq<Kline>, i: nat): real
    requires i < |ks|
  {
    if i == 0 then 0.0
    else
      var up, down := ks[i].high - ks[i - 1].high, ks[i - 1].low - ks[i].low;
      if up > 0.0 && up > down then up else 0.0
  }

  function MinusDmAt(ks: seq<Kline>, i: nat): real
    requires i < |ks|
  {
    if i == 0 then 0.0
    else
      var up, down := ks[i].high - ks[i - 1].high, ks[i - 1].low - ks[i].low;
      if down > 0.0 && down > up then down else 0.0
  }

  function PlusDms(ks: seq<Kline>): seq<real> {
    seq(|ks|, i requires 0 <= i < |ks| => PlusDmAt(ks, i))
  }

  function MinusDms(ks: seq<Kline>): seq<real> {
    seq(|ks|, i requires 0 <= i < |ks| => MinusDmAt(ks, i))
  }

  function Di(dm: real, tr: real): real
    requires tr != 0.0
  {
    100.0 * dm / tr
  }

  function Dx(plusDi: real, minusDi: real): real {
    var denom := plusDi + minusDi;
    if denom == 0.0 then 0.0 else 100.0 * Abs(plusDi - minusDi) / denom
  }

  function SmoothedTr(ks: seq<Kline>, p: nat, i: nat): real
    requires 1 <= p <= i + 1 <= |ks|
  {
    Smoothed(TrueRanges(ks), p, i)
  }

  /** The DX that belongs to bar `i`; zero when the smoothed true range is. */
  function DxAt(ks: seq<Kline>, p: nat, i: nat): real
    requires 1 <= p <= i + 1 <= |ks|
  {
    var ts := SmoothedTr(ks, p, i);
    if ts == 0.0 then 0.0
    else Dx(Di(Smoothed(PlusDms(ks), p, i), ts), Di(Smoothed(MinusDms(ks), p, i), ts))
  }

  /** The DX list the loop has collected from the first `n` bars. */
  function DxList(ks: seq<Kline>, p: nat, n: nat): seq<real>
    requires 1 <= p && n <= |ks|
  {
    if n == 0 then []
    else DxList(ks, p, n - 1) + (if n < p || SmoothedTr(ks, p, n - 1) == 0.0 then [] else [DxAt(ks, p, n - 1)])
  }

  function AdxSeries(ks: seq<Kline>, p: nat): (r: seq<Option<real>>)
    requires 1 <= p
    ensures |r| == |ks|
  {
    var dx := DxList(ks, p, |ks|);
    seq(|ks|, j requires 0 <= j < |ks| =>
      if 2 * p - 1 <= j && j - p < |dx| then Some(Average(dx, p, WilderWeight(p), j - p)) else None)
  }

  /** First part of `adx`: the directional moves of every bar. */
  method DirectionalMoves(klines: seq<Kline>) returns (plusDm: seq<real>, minusDm: seq<real>)
    requires |klines| >= 1
    ensures plusDm == PlusDms(klines) && minusDm == MinusDms(klines)
  {
    plusDm, minusDm := [0.0], [0.0];
    for i := 1 to |klines|
      invariant |plusDm| == |minusDm| == i
      invariant plusDm == PlusDms(klines)[..i] && minusDm == MinusDms(klines)[..i]
    {
      var up := klines[i].high - klines[i - 1].high;
      var down := klines[i - 1].low - klines[i].low;
      plusDm := plusDm + [if up > 0.0 && up > down then up else 0.0];
      minusDm := minusDm + [if down > 0.0 && down > up then down else 0.0];
    }
  }

  /** Second part: the DX list, which leaves out bars without a usable true range. */
  method CollectDx(klines: seq<Kline>, period: nat) returns (dxSeries: seq<real>)
    requires 1 <= period && 1 <= |klines|
    ensures dxSeries == DxList(klines, period, |klines|)
  {
    hide Dx, Di, Smoothed;
    var tr := TrueRange(klines);
    var plusDm, minusDm := DirectionalMoves(klines);
    var trS := WilderSmooth(tr, period);
    var plusS := WilderSmooth(plusDm, period);
    var minusS := WilderSmooth(minusDm, period);
    dxSeries := [];
    for i := 0 to |klines|
      invariant dxSeries == DxList(klines, period, i)
    {
      var ts, ps, ms := trS.value[i], plusS.value[i], minusS.value[i];
      if ts.None? || ps.None? || ms.None? || ts.value == 0.0 {
        continue;
      }
      dxSeries := dxSeries + [Dx(Di(ps.value, ts.value), Di(ms.value, ts.value))];
    }
  }

  method ComputeAdx(klines: seq<Kline>, period: nat) returns (out: seq<Option<real>>)
    requires period >= 1
    ensures out == AdxSeries(klines, period)
  {
    hide Blend, WilderWeight, WilderNext, DxList, Mean;
    out := Nones(|klines|);
    if |klines| <= period {
      return;
    }
    var dxSeries := CollectDx(klines, period);
    if |dxSeries| < period {
      return;
    }
    var n := period as real;
    var seed := Mean(dxSeries, period);
    var first := period - 1 + (period - 1) + 1;
    if first >= |klines| {
      return;
    }
    out := out[first := Some(seed)];
    var prev := seed;
    var t := period;
    while t < |dxSeries|
      invariant period <= t <= |dxSeries| && |out| == |klines|
      invariant t - period + first + 1 <= |klines|
      invariant prev == Average(dxSeries, period, WilderWeight(period), t - 1)
      invariant forall j :: 0 <= j <= t - period + first ==> out[j] == AdxSeries(klines, period)[j]
      invariant forall j :: t - period + first < j < |klines| ==> out[j] == None
    {
      var j := t - period + first + 1;
      if j >= |out| {
        break;
      }
      WilderStep(period, prev, dxSeries[t]);
      var cur := WilderNext(n, prev, dxSeries[t]);
      out := out[j := Some(cur)];
      prev := cur;
      t := t + 1;
    }
  }

  // ---- Smoothed directional movement -----------------------------------------------------

  lemma MovesBelowTrueRange(ks: seq<Kline>, i: nat)
    requires ValidSeries(ks) && i < |ks|
    ensures 0.0 <= PlusDmAt(ks, i) && 0.0 <= MinusDmAt(ks, i)
    ensures PlusDmAt(ks, i) + MinusDmAt(ks, i) <= TrueRangeAt(ks, i)
  {
    assert ValidCandle(ks[i]);
    if i > 0 { assert ValidCandle(ks[i - 1]); }
  }

  /** Smoothed +DM plus smoothed -DM never exceeds the smoothed true range. */
  lemma SmoothedMovesBelowTrueRange(ks: seq<Kline>, p: nat, i: nat)
    requires ValidSeries(ks) && 1 <= p <= i + 1 <= |ks|
    ensures 0.0 <= Smoothed(PlusDms(ks), p, i) && 0.0 <= Smoothed(MinusDms(ks), p, i)
    ensures Smoothed(PlusDms(ks), p, i) + Smoothed(MinusDms(ks), p, i) <= SmoothedTr(ks, p, i)
  {
    hide Blend, Smoothed, WilderWeight;
    var x, y, z, w := PlusDms(ks), MinusDms(ks), TrueRanges(ks), WilderWeight(p);
    forall j | 0 <= j <= i ensures 0.0 <= x[j] && 0.0 <= y[j] && x[j] + y[j] <= z[j] {
      MovesBelowTrueRange(ks, j);
    }
    AverageNonNegative(x, p, w, i);
    AverageNonNegative(y, p, w, i);
    AverageSumBelow(x, y, z, p, w, i);
    SmoothedIsScaledAverage(x, p, i);
    SmoothedIsScaledAverage(y, p, i);
    SmoothedIsScaledAverage(z, p, i);
    ScaleSum(p as real, Average(x, p, w, i), Average(y, p, w, i), Average(z, p, w, i));
  }

  lemma ScaleSum(m: real, a: real, b: real, c: real)
    requires 0.0 <= m && 0.0 <= a && 0.0 <= b && a + b <= c
    ensures 0.0 <= m * a && 0.0 <= m * b && m * a + m * b <= m * c
  {
    assert m * (c - a - b) >= 0.0;
  }

  lemma DiSum(ps: real, ms: real, ts: real)
    requires 0.0 <= ps && 0.0 <= ms && ps + ms <= ts && 0.0 < ts
    ensures 0.0 <= Di(ps, ts) && 0.0 <= Di(ms, ts) && Di(ps, ts) + Di(ms, ts) <= 100.0
  {
    var a, b := Di(ps, ts), Di(ms, ts);
    assert a * ts == 100.0 * ps && b * ts == 100.0 * ms;
    Distribute(a, b, ts);
    QuotientBetween(0.0, (a + b) * ts, 100.0, ts);
    assert (a + b) * ts / ts == a + b;
  }

  lemma DxInRange(a: real, b: real)
    requires 0.0 <= a && 0.0 <= b
    ensures 0.0 <= Dx(a, b) <= 100.0
  {
    if a + b != 0.0 {
      QuotientBetween(0.0, 100.0 * Abs(a - b), 100.0, a + b);
    }
  }

  /** With valid candles +DI + -DI <= 100 and DX is a percentage, at every bar. */
  lemma DirectionalIndexSound(ks: seq<Kline>, p: nat, i: nat)
    requires ValidSeries(ks) && 1 <= p <= i + 1 <= |ks|
    ensures 0.0 <= DxAt(ks, p, i) <= 100.0
    ensures SmoothedTr(ks, p, i) != 0.0 ==>
      var ts := SmoothedTr(ks, p, i);
      Di(Smoothed(PlusDms(ks), p, i), ts) + Di(Smoothed(MinusDms(ks), p, i), ts) <= 100.0
  {
    hide Dx, Smoothed, Di;
    SmoothedMovesBelowTrueRange(ks, p, i);
    var ts := SmoothedTr(ks, p, i);
    if ts != 0.0 {
      DiSum(Smoothed(PlusDms(ks), p, i), Smoothed(MinusDms(ks), p, i), ts);
      DxInRange(Di(Smoothed(PlusDms(ks), p, i), ts), Di(Smoothed(MinusDms(ks), p, i), ts));
    }
  }

  // ---- The flat start ---------------------------------------------------------------------

  /** The first bar with a positive true range, or the length if there is none. */
  function FirstMove(ks: seq<Kline>): (f: nat)
    ensures f <= |ks|
    ensures forall i :: 0 <= i < f ==> TrueRangeAt(ks, i) <= 0.0
    ensures f < |ks| ==> TrueRangeAt(ks, f) > 0.0
  {
    FirstMoveFrom(ks, 0)
  }

  function FirstMoveFrom(ks: seq<Kline>, i: nat): (f: nat)
    requires i <= |ks|
    ensures i <= f <= |ks|
    ensures forall j :: i <= j < f ==> TrueRangeAt(ks, j) <= 0.0
    ensures f < |ks| ==> TrueRangeAt(ks, f) > 0.0
    decreases |ks| - i
  {
    if i == |ks| || TrueRangeAt(ks, i) > 0.0 then i else FirstMoveFrom(ks, i + 1)
  }

  /** The first bar whose DX enters the list. */
  function FirstDx(ks: seq<Kline>, p: nat): nat
    requires 1 <= p
  {
    if FirstMove(ks) <= p - 1 then p - 1 else FirstMove(ks)
  }

  /** The smoothed true range is zero exactly before the first move. */
  lemma SmoothedTrZeroIffFlat(ks: seq<Kline>, p: nat, i: nat)
    requires ValidSeries(ks) && 2 <= p <= i + 1 <= |ks|
    ensures SmoothedTr(ks, p, i) == 0.0 <==> i < FirstMove(ks)
    ensures SmoothedTr(ks, p, i) >= 0.0
  {
    hide Blend, Smoothed, WilderWeight;
    var z, w, f := TrueRanges(ks), WilderWeight(p), FirstMove(ks);
    SmoothedIsScaledAverage(z, p, i);
    forall j | 0 <= j <= i ensures 0.0 <= z[j] {
      TrueRangeNonNegative(ks, j);
    }
    AverageNonNegative(z, p, w, i);
    if i < f {
      AverageZero(z, p, w, i);
    } else {
      AveragePositive(z, p, w, i, f);
      assert p as real * Average(z, p, w, i) > 0.0;
    }
  }

  /** The DX list holds one value per bar from `FirstDx` on. */
  lemma {:induction false} DxListContents(ks: seq<Kline>, p: nat, n: nat)
    requires ValidSeries(ks) && 2 <= p && n <= |ks|
    ensures var s := FirstDx(ks, p);
      && |DxList(ks, p, n)| == (if n <= s then 0 else n - s)
      && forall t :: 0 <= t < |DxList(ks, p, n)| ==> DxList(ks, p, n)[t] == DxAt(ks, p, s + t)
  {
    hide DxAt, FirstMove, SmoothedTr;
    if n == 0 {
    } else {
      DxListContents(ks, p, n - 1);
      if n >= p {
        SmoothedTrZeroIffFlat(ks, p, n - 1);
      }
    }
  }

  /** DX values of the bars from `s` on. */
  function DxFrom(ks: seq<Kline>, p: nat, s: nat): seq<real>
    requires 1 <= p <= s + 1 && s <= |ks|
  {
    seq(|ks| - s, t requires 0 <= t < |ks| - s => DxAt(ks, p, s + t))
  }

  /** The ADX value that belongs to bar `i`: Wilder's average of the DX values up to it. */
  function AdxOfBar(ks: seq<Kline>, p: nat, i: nat): real
    requires 1 <= p && FirstDx(ks, p) + p <= i + 1 <= |ks|
  {
    var s := FirstDx(ks, p);
    Average(DxFrom(ks, p, s), p, WilderWeight(p), i - s)
  }

  /**
   * The whole truth about the emitted list: position `j` holds the value of bar
   * `j - p + FirstDx`, for every series of valid candles. Without a flat start that is
   * bar `j - 1`: the list runs one bar late.
   */
  lemma AdxIsShifted(ks: seq<Kline>, p: nat, j: nat)
    requires ValidSeries(ks) && 2 <= p && j < |ks|
    ensures AdxSeries(ks, p)[j].Some? <==> 2 * p - 1 <= j && j - p + FirstDx(ks, p) < |ks|
    ensures AdxSeries(ks, p)[j].Some? ==>
      AdxSeries(ks, p)[j].value == AdxOfBar(ks, p, j - p + FirstDx(ks, p))
  {
    hide DxAt, FirstMove, DxList, Blend;
    var s := FirstDx(ks, p);
    DxListContents(ks, p, |ks|);
    if s <= |ks| {
      assert DxFrom(ks, p, s) == DxList(ks, p, |ks|);
    }
  }

  lemma AdxOfBarInRange(ks: seq<Kline>, p: nat, i: nat)
    requires ValidSeries(ks) && 1 <= p && FirstDx(ks, p) + p <= i + 1 <= |ks|
    ensures 0.0 <= AdxOfBar(ks, p, i) <= 100.0
  {
    hide DxAt, FirstMove;
    var s := FirstDx(ks, p);
    var dx := DxFrom(ks, p, s);
    forall t | 0 <= t <= i - s ensures 0.0 <= dx[t] <= 100.0 {
      DirectionalIndexSound(ks, p, s + t);
    }
    AverageBetween(dx, p, WilderWeight(p), i - s, 0.0, 100.0);
  }

  lemma FirstMoveOfPrefix(ks: seq<Kline>, m: nat)
    requires m <= |ks|
    ensures FirstMove(ks[..m]) == if FirstMove(ks) <= m then FirstMove(ks) else m
  {
    var f, g := FirstMove(ks), FirstMove(ks[..m]);
    assert forall i :: 0 <= i < m ==> TrueRangeAt(ks[..m], i) == TrueRangeAt(ks, i);
  }

  lemma DxCausal(ks: seq<Kline>, p: nat, m: nat, i: nat)
    requires 1 <= p <= i + 1 <= m <= |ks|
    ensures DxAt(ks[..m], p, i) == DxAt(ks, p, i)
  {
    hide Smoothed, Dx, Di;
    var k := ks[..m];
    SmoothedCausal(TrueRanges(k), TrueRanges(ks), p, i);
    SmoothedCausal(PlusDms(k), PlusDms(ks), p, i);
    SmoothedCausal(MinusDms(k), MinusDms(ks), p, i);
  }

  lemma {:induction false} SmoothedCausal(x: seq<real>, y: seq<real>, p: nat, i: nat)
    requires 1 <= p <= i + 1 <= |x| && i < |y|
    requires forall j :: 0 <= j <= i ==> x[j] == y[j]
    ensures Smoothed(x, p, i) == Smoothed(y, p, i)
    decreases i
  {
    if i == p - 1 {
      TotalCausal(x, y, p);
    } else {
      SmoothedCausal(x, y, p, i - 1);
    }
  }

  /** The value of bar `i` reads no bar after `i`. */
  lemma AdxOfBarCausal(ks: seq<Kline>, p: nat, m: nat, i: nat)
    requires 1 <= p && FirstDx(ks, p) + p <= i + 1 <= m <= |ks|
    ensures FirstDx(ks[..m], p) == FirstDx(ks, p)
    ensures AdxOfBar(ks[..m], p, i) == AdxOfBar(ks, p, i)
  {
    hide DxAt, FirstMove;
    var s, k := FirstDx(ks, p), ks[..m];
    FirstMoveOfPrefix(ks, m);
    var x, y := DxFrom(k, p, s), DxFrom(ks, p, s);
    forall t | 0 <= t <= i - s ensures x[t] == y[t] {
      DxCausal(ks, p, m, s + t);
    }
    AverageCausal(x, y, p, WilderWeight(p), i - s);
  }

  /**
   * ADX soundness. If the price has moved by bar `p`, values are defined exactly from bar
   * `2p - 1`, are percentages, and position `j` does not change when bars after `j` do.
   */
  lemma AdxSound(ks: seq<Kline>, p: nat, j: nat, m: nat)
    requires ValidSeries(ks) && 2 <= p && FirstMove(ks) <= p && j < m <= |ks|
    ensures AdxSeries(ks, p)[j].Some? <==> 2 * p - 1 <= j
    ensures AdxSeries(ks, p)[j].Some? ==> 0.0 <= AdxSeries(ks, p)[j].value <= 100.0
    ensures AdxSeries(ks[..m], p)[j] == AdxSeries(ks, p)[j]
  {
    hide FirstMove, AdxSeries, AdxOfBar;
    var i := j - p + FirstDx(ks, p);
    AdxIsShifted(ks, p, j);
    AdxIsShifted(ks[..m], p, j);
    FirstMoveOfPrefix(ks, m);
    if 2 * p - 1 <= j {
      AdxOfBarInRange(ks, p, i);
      AdxOfBarCausal(ks, p, m, i);
    }
  }

  /**
   * The hypothesis of `AdxSound` is exact: the emitted list is stable under cutting the
   * series if and only if the price has moved by bar `p`, or the series is too short for
   * any value to be emitted.
   */
  lemma AdxStableIffEarlyMove(ks: seq<Kline>, p: nat)
    requires ValidSeries(ks) && 2 <= p
    ensures (forall m :: 0 <= m <= |ks| ==> AdxSeries(ks[..m], p) == AdxSeries(ks, p)[..m])
       <==> FirstMove(ks) <= p || |ks| < FirstMove(ks) + p
  {
    hide AdxSeries, AdxOfBar, FirstMove;
    var f := FirstMove(ks);
    if f <= p {
      forall m | 0 <= m <= |ks| ensures AdxSeries(ks[..m], p) == AdxSeries(ks, p)[..m] {
        forall j | 0 <= j < m ensures AdxSeries(ks[..m], p)[j] == AdxSeries(ks, p)[j] {
          AdxSound(ks, p, j, m);
        }
      }
    } else if |ks| < f + p {
      forall m | 0 <= m <= |ks| ensures AdxSeries(ks[..m], p) == AdxSeries(ks, p)[..m] {
        FirstMoveOfPrefix(ks, m);
        forall j | 0 <= j < m ensures AdxSeries(ks[..m], p)[j] == AdxSeries(ks, p)[j] {
          AdxIsShifted(ks, p, j);
          AdxIsShifted(ks[..m], p, j);
        }
      }
    } else {
      var j, m := 2 * p - 1, 2 * p;
      AdxIsShifted(ks, p, j);
      AdxIsShifted(ks[..m], p, j);
      FirstMoveOfPrefix(ks, m);
      assert AdxSeries(ks[..m], p)[j] != AdxSeries(ks, p)[..m][j];
    }
  }
}
