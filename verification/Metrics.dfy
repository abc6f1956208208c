/** Performance summary of a backtest, on net PnL. */
module Metrics {
  import opened Shared
  import opened Fills

  datatype BacktestMetrics = BacktestMetrics(sampleSize: nat, winRate: real, avgWinBps: real, avgLossBps: real,
                                             profitFactor: Option<real>, avgRr: Option<real>,
                                             maxDrawdownBps: real, feeDragBps: real)

  function WinningTrades(ts: seq<SimulatedTrade>): seq<SimulatedTrade> {
    if ts == [] then []
    else WinningTrades(ts[..|ts| - 1]) + (if ts[|ts| - 1].NetPnl() > 0.0 then [ts[|ts| - 1]] else [])
  }

  function LosingTrades(ts: seq<SimulatedTrade>): seq<SimulatedTrade> {
    if ts == [] then []
    else LosingTrades(ts[..|ts| - 1]) + (if ts[|ts| - 1].NetPnl() <= 0.0 then [ts[|ts| - 1]] else [])
  }

  function Sum(ts: seq<SimulatedTrade>, f: SimulatedTrade -> real): real {
    if ts == [] then 0.0 else Sum(ts[..|ts| - 1], f) + f(ts[|ts| - 1])
  }

  function NetOf(t: SimulatedTrade): real { t.NetPnl() }
  function BpsOf(t: SimulatedTrade): real { t.NetPnlBps() }
  function NotionalOf(t: SimulatedTrade): real { t.EntryNotional() }
  function CostOf(t: SimulatedTrade): real { t.TotalFees() + t.fundingPaid }

  // ---- The equity curve -------------------------------------------------------------------

  /** The net results of the trades. */
  function Nets(ts: seq<SimulatedTrade>): seq<real> {
    seq(|ts|, i requires 0 <= i < |ts| => ts[i].NetPnl())
  }

  /** Equity after the first `k` results. */
  function Equity(nets: seq<real>, start: real, k: nat): real
    requires k <= |nets|
  {
    start + Total(nets, k)
  }

  function Peak(nets: seq<real>, start: real, k: nat): real
    requires k <= |nets|
  {
    if k == 0 then start else Max(Peak(nets, start, k - 1), Equity(nets, start, k))
  }

  /** The running peak is the maximum of the curve so far. */
  lemma {:induction false} PeakIsMaximum(nets: seq<real>, start: real, k: nat) returns (w: nat)
    requires k <= |nets|
    ensures w <= k && Equity(nets, start, w) == Peak(nets, start, k)
    ensures forall s :: 0 <= s <= k ==> Equity(nets, start, s) <= Peak(nets, start, k)
  {
    if k == 0 {
      w := 0;
    } else {
      hide Equity;
      w := PeakIsMaximum(nets, start, k - 1);
      if Equity(nets, start, k) > Peak(nets, start, k - 1) {
        w := k;
      }
    }
  }

  /** The fall from `a` down to `e`, in basis points of `a`. */
  function Fall(a: real, e: real): real
    requires a > 0.0
  {
    (a - e) / a * BPS
  }

  function FallFromPeak(peak: real, eq: real): real {
    if peak > 0.0 && eq < peak then Fall(peak, eq) else 0.0
  }

  /** The largest fall from the running peak so far, as the loop accumulates it. */
  function Drawdown(nets: seq<real>, start: real, k: nat): real
    requires k <= |nets|
  {
    if k == 0 then 0.0
    else Max(Drawdown(nets, start, k - 1), FallFromPeak(Peak(nets, start, k), Equity(nets, start, k)))
  }

  function MeanOrZero(total: real, n: nat): real {
    if n == 0 then 0.0 else total / n as real
  }

  function Summary(ts: seq<SimulatedTrade>, start: real): BacktestMetrics {
    if ts == [] then BacktestMetrics(0, 0.0, 0.0, 0.0, None, None, 0.0, 0.0)
    else
      var wins, losses := WinningTrades(ts), LosingTrades(ts);
      var avgWin := MeanOrZero(Sum(wins, BpsOf), |wins|);
      var avgLoss := MeanOrZero(-Sum(losses, BpsOf), |losses|);
      var grossWins, grossLosses := Sum(wins, NetOf), -Sum(losses, NetOf);
      var notional := Sum(ts, NotionalOf);
      BacktestMetrics(|ts|, |wins| as real / |ts| as real, avgWin, avgLoss,
                      if grossLosses > 0.0 then Some(grossWins / grossLosses) else None,
                      if avgLoss > 0.0 then Some(avgWin / avgLoss) else None,
                      Drawdown(Nets(ts), start, |ts|),
                      if notional > 0.0 then Sum(ts, CostOf) / notional * BPS else 0.0)
  }

  /** `summarize`: list sums, then one pass over the trades for the drawdown. */
  method Summarize(trades: seq<SimulatedTrade>, startingEquity: real) returns (m: BacktestMetrics)
    ensures m == Summary(trades, startingEquity)
  {
    if trades == [] {
      return BacktestMetrics(0, 0.0, 0.0, 0.0, None, None, 0.0, 0.0);
    }
    hide Fall;
    var wins, losses := WinningTrades(trades), LosingTrades(trades);
    var sampleSize := |trades|;
    var winRate := |wins| as real / sampleSize as real;
    var avgWinBps := if |wins| > 0 then Sum(wins, BpsOf) / |wins| as real else 0.0;
    var avgLossBps := if |losses| > 0 then -Sum(losses, BpsOf) / |losses| as real else 0.0;
    var grossWins, grossLossesAbs := Sum(wins, NetOf), -Sum(losses, NetOf);
    var profitFactor := if grossLossesAbs > 0.0 then Some(grossWins / grossLossesAbs) else None;
    var avgRr := if avgLossBps > 0.0 then Some(avgWinBps / avgLossBps) else None;
    var totalNotional, totalFees := Sum(trades, NotionalOf), Sum(trades, CostOf);
    var feeDragBps := if totalNotional > 0.0 then totalFees / totalNotional * BPS else 0.0;
    ghost var nets := Nets(trades);
    var eq, peak, maxDdBps := startingEquity, startingEquity, 0.0;
    for k := 0 to |trades|
      invariant eq == Equity(nets, startingEquity, k)
      invariant peak == Peak(nets, startingEquity, k)
      invariant maxDdBps == Drawdown(nets, startingEquity, k)
      invariant 0.0 <= maxDdBps
    {
      eq := eq + trades[k].NetPnl();
      if eq > peak {
        peak := eq;
      }
      if peak > 0.0 && eq < peak {
        var ddBps := Fall(peak, eq);
        if ddBps > maxDdBps {
          maxDdBps := ddBps;
        }
      }
      FallSign(peak, eq);
    }
    m := BacktestMetrics(sampleSize, winRate, avgWinBps, avgLossBps, profitFactor, avgRr, maxDdBps, feeDragBps);
  }

  // ---- Drawdown ------------------------------------------------------------------------------

  lemma FallSign(a: real, e: real)
    ensures a > 0.0 ==> (Fall(a, e) > 0.0 <==> e < a) && (0.0 <= e ==> Fall(a, e) <= BPS)
    ensures a > 0.0 && e == a ==> Fall(a, e) == 0.0
  {
    if a > 0.0 {
      var q := (a - e) / a;
      assert q * a == a - e;
      ScaleOrder(0.0, q, a);
      ScaleOrder(q, 1.0, a);
    }
  }

  /** A higher starting point makes the same end a larger fall, if the end is not negative. */
  lemma FallGrowsWithPeak(a: real, p: real, e: real)
    requires 0.0 < a <= p && 0.0 <= e
    ensures Fall(a, e) <= Fall(p, e)
  {
    var x, y := (a - e) / a, (p - e) / p;
    assert x * a == a - e && y * p == p - e;
    ScaleOrder(x, 1.0, a);
    assert (1.0 - x) * p >= (1.0 - x) * a == e by { ScaleBetween(a, p, p, 1.0 - x); Distribute(1.0, -x, a); }
    Distribute(1.0, -x, p);
    ScaleOrder(x, y, p);
  }

  lemma NoFallAtStart(nets: seq<real>, start: real)
    ensures FallFromPeak(Peak(nets, start, 0), Equity(nets, start, 0)) == 0.0
  {
  }

  /** The drawdown is at least every fall from a running peak, and is one of them. */
  lemma {:induction false} DrawdownIsLargestFall(nets: seq<real>, start: real, k: nat) returns (w: nat)
    requires k <= |nets|
    ensures w <= k && Drawdown(nets, start, k) == FallFromPeak(Peak(nets, start, w), Equity(nets, start, w))
    ensures forall t :: 0 <= t <= k ==> FallFromPeak(Peak(nets, start, t), Equity(nets, start, t)) <= Drawdown(nets, start, k)
  {
    NoFallAtStart(nets, start);
    hide FallFromPeak, Fall, Equity, Peak, Total;
    if k == 0 {
      w := 0;
    } else {
      w := DrawdownIsLargestFall(nets, start, k - 1);
      if FallFromPeak(Peak(nets, start, k), Equity(nets, start, k)) > Drawdown(nets, start, k - 1) {
        w := k;
      }
    }
  }

  predicate StaysAbove(nets: seq<real>, start: real, floor: real) {
    forall k :: 0 <= k <= |nets| ==> floor <= Equity(nets, start, k)
  }

  /** From `a` to `e` is a fall of at most `d` bps of `a`. */
  predicate FallsAtMost(a: real, e: real, d: real) { (a - e) * 10000.0 <= d * a }

  predicate FallsExactly(a: real, e: real, d: real) { (a - e) * 10000.0 == d * a }

  /** No pair of points falls by more than the drawdown ... */
  predicate PairwiseBound(nets: seq<real>, start: real) {
    forall s, t :: 0 <= s <= t <= |nets| && Equity(nets, start, s) > 0.0 ==>
      FallsAtMost(Equity(nets, start, s), Equity(nets, start, t), Drawdown(nets, start, |nets|))
  }

  /** ... and some pair falls by exactly as much. */
  predicate PairwiseAttained(nets: seq<real>, start: real) {
    exists s, t :: (0 <= s <= t <= |nets| && Equity(nets, start, s) > 0.0
      && FallsExactly(Equity(nets, start, s), Equity(nets, start, t), Drawdown(nets, start, |nets|)))
  }

  /** A fall in bps, without the division. */
  lemma FallMeaning(a: real, e: real, d: real)
    requires a > 0.0
    ensures Fall(a, e) <= d <==> FallsAtMost(a, e, d)
    ensures Fall(a, e) == d <==> FallsExactly(a, e, d)
  {
    var f := Fall(a, e);
    FallTimes(a, e);
    hide Fall;
    ScaleOrder(f, d, a);
    ScaleOrder(d, f, a);
  }

  lemma FallTimes(a: real, e: real)
    requires a > 0.0
    ensures Fall(a, e) * a == (a - e) * 10000.0
  {
    var q := (a - e) / a;
    assert q * a == a - e;
    assert q * BPS * a == (q * a) * 10000.0;
  }

  /** From a positive start some pair of points always falls by the drawdown. */
  lemma DrawdownIsAttained(nets: seq<real>, start: real)
    requires start > 0.0
    ensures PairwiseAttained(nets, start)
  {
    var n := |nets|;
    var w := DrawdownIsLargestFall(nets, start, n);
    assert Equity(nets, start, 0) == start;
    NoFall(start);
    hide Equity, Drawdown, Peak, Fall, FallsExactly, FallsAtMost;
    var p, e := Peak(nets, start, w), Equity(nets, start, w);
    var s := PeakIsMaximum(nets, start, w);
    FallSign(p, e);
    if e < p {
      FallMeaning(p, e, Drawdown(nets, start, n));
      assert FallsExactly(Equity(nets, start, s), Equity(nets, start, w), Drawdown(nets, start, n));
    } else {
      assert FallsExactly(Equity(nets, start, 0), Equity(nets, start, 0), Drawdown(nets, start, n));
    }
  }

  lemma NoFall(a: real)
    ensures FallsExactly(a, a, 0.0)
  {
  }

  /** On a curve that never goes negative the one-pass drawdown is the pairwise maximum. */
  lemma DrawdownIsPairwiseMaximum(nets: seq<real>, start: real)
    requires start > 0.0 && StaysAbove(nets, start, 0.0)
    ensures PairwiseBound(nets, start) && PairwiseAttained(nets, start)
  {
    DrawdownIsAttained(nets, start);
    var n := |nets|;
    var _ := DrawdownIsLargestFall(nets, start, n);
    hide Equity, Drawdown, Peak, Fall, PairwiseAttained, FallsAtMost, FallsExactly;
    forall s, t | 0 <= s <= t <= n && Equity(nets, start, s) > 0.0
      ensures FallsAtMost(Equity(nets, start, s), Equity(nets, start, t), Drawdown(nets, start, n))
    {
      var a, p, e := Equity(nets, start, s), Peak(nets, start, t), Equity(nets, start, t);
      FallMeaning(a, e, Drawdown(nets, start, n));
      var _ := PeakIsMaximum(nets, start, t);
      FallGrowsWithPeak(a, p, e);
      FallSign(p, e);
      assert FallFromPeak(p, e) <= Drawdown(nets, start, n);
    }
  }

  /** The drawdown is a proper percentage, at most 10000 bps, exactly on curves that never go negative. */
  lemma DrawdownIsPercentageIffNeverNegative(nets: seq<real>, start: real)
    requires start > 0.0
    ensures 0.0 <= Drawdown(nets, start, |nets|)
    ensures Drawdown(nets, start, |nets|) <= BPS <==> StaysAbove(nets, start, 0.0)
  {
    var n := |nets|;
    var w := DrawdownIsLargestFall(nets, start, n);
    NoFallAtStart(nets, start);
    assert Equity(nets, start, 0) == start;
    hide Equity, Drawdown, Peak, Fall;
    var _ := PeakIsMaximum(nets, start, w);
    FullFall(Peak(nets, start, w), Equity(nets, start, w));
    forall t | 0 <= t <= n && Drawdown(nets, start, n) <= BPS ensures 0.0 <= Equity(nets, start, t) {
      var _ := PeakIsMaximum(nets, start, t);
      FullFall(Peak(nets, start, t), Equity(nets, start, t));
      assert FallFromPeak(Peak(nets, start, t), Equity(nets, start, t)) <= Drawdown(nets, start, n);
    }
  }

  /** A fall exceeds 10000 bps exactly when it ends below zero. */
  lemma FullFall(p: real, e: real)
    requires p > 0.0
    ensures FallFromPeak(p, e) <= BPS <==> 0.0 <= e
  {
    if e < p {
      var x := (p - e) / p;
      assert x * p == p - e;
      ScaleOrder(x, 1.0, p);
    }
  }

  /** From a positive start the drawdown is zero exactly when the curve never falls. */
  lemma NoDrawdownIffNeverFalls(nets: seq<real>, start: real)
    requires start > 0.0
    ensures Drawdown(nets, start, |nets|) == 0.0
       <==> forall s, t :: 0 <= s <= t <= |nets| ==> Equity(nets, start, s) <= Equity(nets, start, t)
  {
    var n := |nets|;
    var w := DrawdownIsLargestFall(nets, start, n);
    assert Equity(nets, start, 0) == start;
    hide Equity, Drawdown, Peak, Fall;
    if Drawdown(nets, start, n) == 0.0 {
      forall s, t | 0 <= s <= t <= n ensures Equity(nets, start, s) <= Equity(nets, start, t) {
        var p, e := Peak(nets, start, t), Equity(nets, start, t);
        var _ := PeakIsMaximum(nets, start, t);
        assert Equity(nets, start, 0) <= p && Equity(nets, start, s) <= p;
        assert FallFromPeak(p, e) <= 0.0;
        FallSign(p, e);
      }
    } else {
      var s := PeakIsMaximum(nets, start, w);
      assert Equity(nets, start, w) < Equity(nets, start, s);
    }
  }

  /**
   * Below zero the pairwise reading can fail: the curve c, 10c, -10c has a one-pass drawdown of
   * 20000 bps, but its first and last point fall by 110000 bps.
   */
  lemma NegativeEquityBreaksPairwiseReading(c: real)
    requires c > 0.0
    ensures var nets := [9.0 * c, -20.0 * c];
      && StaysAbove(nets, c, -10.0 * c) && Drawdown(nets, c, 2) == 20000.0
      && Fall(Equity(nets, c, 0), Equity(nets, c, 2)) == 110000.0 && !PairwiseBound(nets, c)
  {
    var nets := [9.0 * c, -20.0 * c];
    assert Total(nets, 1) == 9.0 * c && Total(nets, 2) == -11.0 * c;
    assert Equity(nets, c, 0) == c && Equity(nets, c, 1) == 10.0 * c && Equity(nets, c, 2) == -10.0 * c;
    assert Peak(nets, c, 0) == c && Peak(nets, c, 1) == 10.0 * c && Peak(nets, c, 2) == 10.0 * c;
    MultipleFall(10.0 * c, -10.0 * c, 2.0);
    MultipleFall(c, -10.0 * c, 11.0);
    hide Equity, Peak, Fall, FallsAtMost, FallsExactly;
    assert Drawdown(nets, c, 0) == 0.0 && Drawdown(nets, c, 1) == 0.0;
    FallMeaning(Equity(nets, c, 0), Equity(nets, c, 2), Drawdown(nets, c, |nets|));
  }

  lemma MultipleFall(a: real, e: real, m: real)
    requires a > 0.0 && a - e == m * a
    ensures Fall(a, e) == m * BPS
  {
    Cancel((a - e) / a, m, a);
  }

  /**
   * How far equity may fall for the pairwise reading to hold on all curves: not below zero, and
   * no floor below zero is enough.
   */
  lemma PairwiseReadingIffFloorNonNegative(floor: real)
    ensures (forall nets, start :: start > 0.0 && StaysAbove(nets, start, floor) ==>
               PairwiseBound(nets, start) && PairwiseAttained(nets, start))
       <==> floor >= 0.0
  {
    if floor >= 0.0 {
      forall nets, start | start > 0.0 && StaysAbove(nets, start, floor)
        ensures PairwiseBound(nets, start) && PairwiseAttained(nets, start)
      {
        hide Equity;
        assert StaysAbove(nets, start, 0.0);
        DrawdownIsPairwiseMaximum(nets, start);
      }
    } else {
      var c := -floor / 10.0;
      assert -10.0 * c == floor;
      NegativeEquityBreaksPairwiseReading(c);
      hide StaysAbove, PairwiseBound, PairwiseAttained;
      assert StaysAbove([9.0 * c, -20.0 * c], c, floor);
    }
  }

  // ---- Expectancy ----------------------------------------------------------------------------

  /** WinningTrades and losses partition the trades, so sums over them add up. */
  lemma {:induction false} WinsAndLossesPartition(ts: seq<SimulatedTrade>, f: SimulatedTrade -> real)
    ensures |WinningTrades(ts)| + |LosingTrades(ts)| == |ts|
    ensures Sum(WinningTrades(ts), f) + Sum(LosingTrades(ts), f) == Sum(ts, f)
  {
    hide SimulatedTrade.NetPnl;
    if ts == [] {
    } else {
      var init, last := ts[..|ts| - 1], ts[|ts| - 1];
      WinsAndLossesPartition(init, f);
      SumAppend(WinningTrades(init), last, f);
      SumAppend(LosingTrades(init), last, f);
      assert WinningTrades(init) + [] == WinningTrades(init) && LosingTrades(init) + [] == LosingTrades(init);
    }
  }

  lemma {:induction false} WinsWinAndLossesLose(ts: seq<SimulatedTrade>)
    ensures forall t :: t in WinningTrades(ts) <==> t in ts && t.NetPnl() > 0.0
    ensures forall t :: t in LosingTrades(ts) <==> t in ts && t.NetPnl() <= 0.0
  {
    hide SimulatedTrade.NetPnl;
    if ts == [] {
    } else {
      WinsWinAndLossesLose(ts[..|ts| - 1]);
      assert ts == ts[..|ts| - 1] + [ts[|ts| - 1]];
    }
  }

  lemma SumAppend(ts: seq<SimulatedTrade>, t: SimulatedTrade, f: SimulatedTrade -> real)
    ensures Sum(ts + [t], f) == Sum(ts, f) + f(t)
  {
    assert (ts + [t])[..|ts|] == ts;
  }

  lemma {:induction false} SumIsTotal(ts: seq<SimulatedTrade>, k: nat)
    requires k <= |ts|
    ensures Sum(ts[..k], NetOf) == Total(Nets(ts), k)
  {
    if k == 0 {
    } else {
      SumIsTotal(ts, k - 1);
      assert ts[..k] == ts[..k - 1] + [ts[k - 1]];
      SumAppend(ts[..k - 1], ts[k - 1], NetOf);
    }
  }

  lemma {:induction false} SumOfBps(ts: seq<SimulatedTrade>)
    ensures Sum(ts, BpsOf) == Sum(ts, NetShare)
  {
    if ts == [] {
    } else {
      SumOfBps(ts[..|ts| - 1]);
      NetBpsIsNetShare(ts[|ts| - 1]);
      hide NetShare;
    }
  }

  lemma ExpectancyOfBps(ts: seq<SimulatedTrade>, start: real)
    requires ts != []
    ensures var m := Summary(ts, start);
      m.winRate * m.avgWinBps - (1.0 - m.winRate) * m.avgLossBps == Sum(ts, BpsOf) / |ts| as real
  {
    hide Drawdown, WinningTrades, LosingTrades, Sum, MeanOrZero;
    WinsAndLossesPartition(ts, BpsOf);
    SumEmpty(WinningTrades(ts), BpsOf);
    SumEmpty(LosingTrades(ts), BpsOf);
    WeightedMeans(|WinningTrades(ts)|, |LosingTrades(ts)|, Sum(WinningTrades(ts), BpsOf), Sum(LosingTrades(ts), BpsOf));
  }

  /**
   * The expectancy that the EV gate reconstructs from the summary is the mean over the trades of
   * what each kept after fees and funding, in bps of what it moved.
   */
  lemma ExpectancyIsMeanResult(ts: seq<SimulatedTrade>, start: real)
    requires ts != []
    ensures var m := Summary(ts, start);
      m.winRate * m.avgWinBps - (1.0 - m.winRate) * m.avgLossBps == Sum(ts, NetShare) / |ts| as real
  {
    ExpectancyOfBps(ts, start);
    SumOfBps(ts);
    hide Summary, Sum, NetShare, BpsOf;
  }

  /** Winners and losers together are the trades, each as often as it occurs. */
  lemma {:induction false} WinnersAndLosersAreAll(ts: seq<SimulatedTrade>)
    ensures multiset(WinningTrades(ts)) + multiset(LosingTrades(ts)) == multiset(ts)
  {
    if ts == [] {
    } else {
      WinnersAndLosersAreAll(ts[..|ts| - 1]);
      assert ts == ts[..|ts| - 1] + [ts[|ts| - 1]];
    }
  }

  /** The statistics of the summary, each as the total it averages. */
  lemma SummaryTotals(ts: seq<SimulatedTrade>, start: real)
    requires ts != []
    ensures var m, w, l := Summary(ts, start), WinningTrades(ts), LosingTrades(ts);
      && m.sampleSize == |ts| && m.winRate * |ts| as real == |w| as real
      && m.avgWinBps * |w| as real == Sum(w, NetShare) && (w == [] ==> m.avgWinBps == 0.0)
      && m.avgLossBps * |l| as real == -Sum(l, NetShare) && (l == [] ==> m.avgLossBps == 0.0)
      && (m.avgRr.Some? <==> m.avgLossBps > 0.0) && (m.avgRr.Some? ==> m.avgRr.value * m.avgLossBps == m.avgWinBps)
      && (m.profitFactor.Some? ==> m.profitFactor.value * -Sum(l, NetOf) == Sum(w, NetOf))
      && m.maxDrawdownBps == Drawdown(Nets(ts), start, |ts|)
  {
    var m, w, l := Summary(ts, start), WinningTrades(ts), LosingTrades(ts);
    SumOfBps(w);
    SumOfBps(l);
    SumEmpty(w, BpsOf);
    SumEmpty(l, BpsOf);
    hide Drawdown, WinningTrades, LosingTrades, Sum, NetShare;
    MeanTimesCount(Sum(w, BpsOf), |w|);
    MeanTimesCount(-Sum(l, BpsOf), |l|);
    MeanTimesCount(|w| as real, |ts|);
    if m.avgRr.Some? { RatioTimes(m.avgWinBps, m.avgLossBps); }
    if m.profitFactor.Some? { RatioTimes(Sum(w, NetOf), -Sum(l, NetOf)); }
  }

  lemma MeanTimesCount(total: real, n: nat)
    requires n == 0 ==> total == 0.0
    ensures MeanOrZero(total, n) * n as real == total
  {
  }

  lemma RatioTimes(a: real, b: real)
    requires b != 0.0
    ensures a / b * b == a
  {
  }

  /**
   * Wins minus absolute losses is the change of equity, and the profit factor exceeds one
   * exactly when the run ends above its start.
   */
  lemma ProfitFactorMeansProfit(ts: seq<SimulatedTrade>, start: real)
    requires ts != []
    ensures Sum(WinningTrades(ts), NetOf) - (-Sum(LosingTrades(ts), NetOf)) == Equity(Nets(ts), start, |ts|) - start
    ensures var m := Summary(ts, start);
      && (m.profitFactor.Some? <==> -Sum(LosingTrades(ts), NetOf) > 0.0)
      && (m.profitFactor.Some? ==> (m.profitFactor.value > 1.0 <==> Equity(Nets(ts), start, |ts|) > start))
  {
    hide Drawdown, WinningTrades, LosingTrades, Sum, NetOf;
    WinsAndLossesPartition(ts, NetOf);
    SumIsTotal(ts, |ts|);
    assert ts[..|ts|] == ts;
    var gw, gl := Sum(WinningTrades(ts), NetOf), -Sum(LosingTrades(ts), NetOf);
    if gl > 0.0 {
      RatioAboveOne(gw, gl);
    }
  }

  function GrossOf(t: SimulatedTrade): real { t.GrossPnl() }

  lemma {:induction false} CostsAreGrossMinusNet(ts: seq<SimulatedTrade>)
    ensures Sum(ts, CostOf) == Sum(ts, GrossOf) - Sum(ts, NetOf)
  {
    if ts == [] {
    } else {
      CostsAreGrossMinusNet(ts[..|ts| - 1]);
    }
  }

  /** The fee drag is the gross result the costs took away, in bps of the traded notional. */
  lemma FeeDragIsLostGross(ts: seq<SimulatedTrade>, start: real)
    requires Sum(ts, NotionalOf) > 0.0
    ensures Summary(ts, start).feeDragBps * Sum(ts, NotionalOf) == (Sum(ts, GrossOf) - Sum(ts, NetOf)) * BPS
  {
    CostsAreGrossMinusNet(ts);
    SumEmpty(ts, NotionalOf);
    hide Drawdown, WinningTrades, LosingTrades, Sum;
    BpsShare(Sum(ts, CostOf), Sum(ts, NotionalOf));
  }

  lemma BpsShare(a: real, n: real)
    requires n > 0.0
    ensures a / n * BPS * n == a * BPS
  {
    var x := a / n;
    assert x * n == a;
    assert x * BPS * n == (x * n) * BPS;
  }

  /** With a reward-to-risk ratio r, the expectancy is positive exactly when p * r > 1 - p. */
  lemma RewardToRiskDecides(ts: seq<SimulatedTrade>, start: real)
    requires Summary(ts, start).avgRr.Some?
    ensures var m := Summary(ts, start);
      m.winRate * m.avgWinBps - (1.0 - m.winRate) * m.avgLossBps > 0.0 <==> m.winRate * m.avgRr.value > 1.0 - m.winRate
  {
    var m := Summary(ts, start);
    assert m.avgLossBps > 0.0 && m.avgRr.value == m.avgWinBps / m.avgLossBps;
    hide Summary;
    RatioDecides(m.winRate, m.avgWinBps, m.avgLossBps);
  }

  lemma RatioDecides(p: real, w: real, l: real)
    requires l > 0.0
    ensures p * w - (1.0 - p) * l > 0.0 <==> p * (w / l) > 1.0 - p
  {
    var r := w / l;
    assert r * l == w;
    assert p * w == (p * r) * l;
    ScaleOrder(1.0 - p, p * r, l);
  }

  lemma SumEmpty(ts: seq<SimulatedTrade>, f: SimulatedTrade -> real)
    ensures ts == [] ==> Sum(ts, f) == 0.0
  {
  }

  lemma WeightedMeans(w: nat, l: nat, sw: real, sl: real)
    requires 0 < w + l && (w == 0 ==> sw == 0.0) && (l == 0 ==> sl == 0.0)
    ensures var p := w as real / (w + l) as real;
      p * MeanOrZero(sw, w) - (1.0 - p) * MeanOrZero(-sl, l) == (sw + sl) / (w + l) as real
  {
    var n := (w + l) as real;
    var p, q := w as real / n, l as real / n;
    assert p * n == w as real && q * n == l as real;
    Distribute(p, q, n);
    Cancel(p + q, 1.0, n);
    WeightTimesMean(w, sw, n);
    WeightTimesMean(l, -sl, n);
    DivideTotals(sw, sl, n);
  }

  /** Weighting a mean by its share of the sample gives its total over the sample size. */
  lemma WeightTimesMean(w: nat, total: real, n: real)
    requires n > 0.0 && (w == 0 ==> total == 0.0)
    ensures w as real / n * MeanOrZero(total, w) == total / n
  {
    if w > 0 {
      var p, a := w as real / n, MeanOrZero(total, w);
      assert p * n == w as real && a * w as real == total;
      assert p * a * n == total;
      Cancel(p * a, total / n, n);
    }
  }

  lemma DivideTotals(a: real, b: real, n: real)
    requires n > 0.0
    ensures (a + b) / n == a / n + b / n && (-b) / n == -(b / n)
  {
  }

  lemma RatioAboveOne(a: real, b: real)
    requires b > 0.0
    ensures a / b > 1.0 <==> a > b
  {
    var r := a / b;
    assert r * b == a;
    ScaleOrder(1.0, r, b);
  }
}
