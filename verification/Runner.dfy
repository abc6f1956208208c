/** The single-position backtester: scan for a signal, hold to the first touch, resume after it. */
module Runner {
  import opened Shared
  import opened Fills
  import opened Metrics
  import Funding

  /** A strategy sees the bars up to and including the current one, and nothing else. */
  type Strategy = seq<Kline> -> Option<Signal>

  datatype Config = Config(pair: string, startingEquity: real, riskPerTradeBps: real, barHours: real)

  datatype BacktestReport = BacktestReport(startingEquity: real, metrics: BacktestMetrics,
                                           trades: seq<SimulatedTrade>, optimistic: bool)
  {
    function EndingEquity(): real { startingEquity + Sum(trades, NetOf) }
  }

  /** A position before it is priced: where it was signalled, where and why it closed. */
  datatype Leg = Leg(signalBar: nat, exitBar: nat, side: Side, qty: real, exitRef: real, reason: ExitReason)

  // ---- One position -----------------------------------------------------------------------

  /** The size that loses the risked amount when the stop fires. */
  function QtyFor(cfg: Config, stopDist: real): real
    requires stopDist != 0.0
  {
    cfg.startingEquity * (cfg.riskPerTradeBps / BPS) / stopDist
  }

  /** The signal at bar `i` and its size, if there is a signal that can be sized. */
  function SizedSignal(ks: seq<Kline>, strat: Strategy, cfg: Config, i: nat): Option<(Signal, real)>
    requires i < |ks|
  {
    match strat(ks[..i + 1])
    case None => None
    case Some(sig) =>
      var stopDist := Abs(sig.entry - sig.stopLoss);
      if stopDist <= 0.0 then None
      else
        var qty := QtyFor(cfg, stopDist);
        if qty <= 0.0 then None else Some((sig, qty))
  }

  predicate HitsStop(sig: Signal, bar: Kline) {
    if sig.side == Long then bar.low <= sig.stopLoss else bar.high >= sig.stopLoss
  }

  predicate HitsTarget(sig: Signal, bar: Kline) {
    |sig.takeProfits| > 0 &&
    if sig.side == Long then bar.high >= sig.takeProfits[0] else bar.low <= sig.takeProfits[0]
  }

  predicate Touches(sig: Signal, bar: Kline) { HitsStop(sig, bar) || HitsTarget(sig, bar) }

  /** The first bar from `j` on that touches stop or target, or the length if none does. */
  function FirstTouch(ks: seq<Kline>, sig: Signal, j: nat): (t: nat)
    requires j <= |ks|
    ensures j <= t <= |ks|
    ensures forall b :: j <= b < t ==> !Touches(sig, ks[b])
    ensures t < |ks| ==> Touches(sig, ks[t])
    decreases |ks| - j
  {
    if j == |ks| || Touches(sig, ks[j]) then j else FirstTouch(ks, sig, j + 1)
  }

  /** A bar that touches both closes at the stop. */
  function CloseAt(ks: seq<Kline>, sig: Signal, i: nat, qty: real, t: nat): Leg
    requires i < t <= |ks| && (t < |ks| ==> Touches(sig, ks[t]))
  {
    if t == |ks| then Leg(i, |ks| - 1, sig.side, qty, ks[|ks| - 1].close, ForcedClose)
    else if HitsStop(sig, ks[t]) then Leg(i, t, sig.side, qty, sig.stopLoss, StopLoss)
    else Leg(i, t, sig.side, qty, sig.takeProfits[0], TakeProfit)
  }

  /** The position opened by the signal at bar `i`, if any; it enters at bar `i + 1`. */
  function LegAt(ks: seq<Kline>, strat: Strategy, cfg: Config, i: nat): (leg: Option<Leg>)
    requires i < |ks| - 1
    ensures leg.Some? ==> leg.value.signalBar == i && i + 1 <= leg.value.exitBar < |ks|
  {
    match SizedSignal(ks, strat, cfg, i)
    case None => None
    case Some((sig, qty)) => Some(CloseAt(ks, sig, i, qty, FirstTouch(ks, sig, i + 1)))
  }

  function HeldHours(cfg: Config, bars: int): real { cfg.barHours * bars as real }

  function Notional(price: real, qty: real): real { price * qty }

  function SlippageCost(reference: real, m: FillModel): real { reference * m.CostFraction() }

  function Price(ks: seq<Kline>, cfg: Config, m: FillModel, leg: Leg): SimulatedTrade
    requires m.Usable() && leg.signalBar + 1 <= leg.exitBar < |ks|
  {
    var entryBar := ks[leg.signalBar + 1];
    var entry := EntryPrice(entryBar.open, m, leg.side);
    var exit := ExitPrice(leg.exitRef, m, leg.side);
    var heldHours := HeldHours(cfg, leg.exitBar - leg.signalBar);
    SimulatedTrade(cfg.pair, leg.side, leg.qty, entry, exit,
                   Fee(entry, leg.qty, m.EntryFeeBps()), Fee(exit, leg.qty, m.fees.takerBps),
                   FundingPaid(Notional(entry, leg.qty), heldHours, m), SlippageCost(entryBar.open, m),
                   entryBar.openTime, ks[leg.exitBar].closeTime, leg.reason)
  }

  predicate InBars(legs: seq<Leg>, n: nat) {
    forall k :: 0 <= k < |legs| ==> legs[k].signalBar + 1 <= legs[k].exitBar < n
  }

  function PriceAll(ks: seq<Kline>, cfg: Config, m: FillModel, legs: seq<Leg>): seq<SimulatedTrade>
    requires m.Usable() && InBars(legs, |ks|)
  {
    seq(|legs|, k requires 0 <= k < |legs| => Price(ks, cfg, m, legs[k]))
  }

  // ---- Costs ------------------------------------------------------------------------------

  /** Every cost switched off. */
  const FREE := FillModel(FeeSchedule(0.0, 0.0), 0.0, 0.0, true, 0.0, 8)

  /**
   * The priced trade, from the bars and the fill model alone: both fills are moved against the
   * trader by half the spread plus the slippage, the entry pays taker or maker, the exit taker,
   * and funding is paid per cycle of the hold on the entry notional.
   */
  lemma TradeWrittenOut(ks: seq<Kline>, cfg: Config, m: FillModel, leg: Leg)
    requires m.Usable() && leg.signalBar + 1 <= leg.exitBar < |ks|
    ensures var t, o, c := Price(ks, cfg, m, leg), ks[leg.signalBar + 1].open, m.spreadBps + 2.0 * m.slippageBps;
      && t.pair == cfg.pair && t.side == leg.side && t.qty == leg.qty && t.exitReason == leg.reason
      && t.openedAt == ks[leg.signalBar + 1].openTime && t.closedAt == ks[leg.exitBar].closeTime
      && (t.side == Long ==> (t.entryPrice - o) * 20000.0 == o * c && (leg.exitRef - t.exitPrice) * 20000.0 == leg.exitRef * c)
      && (t.side == Short ==> (o - t.entryPrice) * 20000.0 == o * c && (t.exitPrice - leg.exitRef) * 20000.0 == leg.exitRef * c)
      && t.slippageCost * 20000.0 == o * c
    ensures var t := Price(ks, cfg, m, leg);
      && t.entryFee * 10000.0 == t.entryPrice * t.qty * (if m.takerBothSides then m.fees.takerBps else m.fees.makerBps)
      && t.exitFee * 10000.0 == t.exitPrice * t.qty * m.fees.takerBps
    ensures var t, hours := Price(ks, cfg, m, leg), (leg.exitBar - leg.signalBar) as real * cfg.barHours;
      t.fundingPaid == if m.fundingRate != 0.0 && hours > 0.0 && t.entryPrice * t.qty > 0.0
                       then t.entryPrice * t.qty * m.fundingRate * Funding.Cycles(hours, m.fundingIntervalHours) as real
                       else 0.0
  {
    var t, o := Price(ks, cfg, m, leg), ks[leg.signalBar + 1].open;
    SlipTimes(o, m);
    SlipTimes(leg.exitRef, m);
    FeeTimes(t.entryPrice, t.qty, m.EntryFeeBps());
    FeeTimes(t.exitPrice, t.qty, m.fees.takerBps);
    FundingOfTrade(ks, cfg, m, leg);
    hide Price;
  }

  lemma FundingOfTrade(ks: seq<Kline>, cfg: Config, m: FillModel, leg: Leg)
    requires m.Usable() && leg.signalBar + 1 <= leg.exitBar < |ks|
    ensures var t, hours := Price(ks, cfg, m, leg), (leg.exitBar - leg.signalBar) as real * cfg.barHours;
      t.fundingPaid == if m.fundingRate != 0.0 && hours > 0.0 && t.entryPrice * t.qty > 0.0
                       then t.entryPrice * t.qty * m.fundingRate * Funding.Cycles(hours, m.fundingIntervalHours) as real
                       else 0.0
  {
    hide Fee, EntryPrice, ExitPrice, SlippageCost, FundingPaid, Funding.Cycles;
    var t, hours := Price(ks, cfg, m, leg), (leg.exitBar - leg.signalBar) as real * cfg.barHours;
    assert HeldHours(cfg, leg.exitBar - leg.signalBar) == hours;
    assert Notional(t.entryPrice, t.qty) == t.entryPrice * t.qty;
    assert t.fundingPaid == FundingPaid(t.entryPrice * t.qty, hours, m);
    hide Price;
    FundingPerCycle(t.entryPrice * t.qty, hours, m);
  }

  lemma FundingPerCycle(notional: real, held: real, m: FillModel)
    requires m.Usable()
    ensures FundingPaid(notional, held, m)
         == if m.fundingRate != 0.0 && held > 0.0 && notional > 0.0
            then notional * m.fundingRate * Funding.Cycles(held, m.fundingIntervalHours) as real
            else 0.0
  {
    hide Funding.Cycles;
  }

  lemma SlipTimes(x: real, m: FillModel)
    ensures x * m.CostFraction() * 20000.0 == x * (m.spreadBps + 2.0 * m.slippageBps)
  {
    var c := m.CostFraction();
    assert c * 20000.0 == m.spreadBps + 2.0 * m.slippageBps;
    assert x * c * 20000.0 == x * (c * 20000.0);
  }

  lemma FeeTimes(price: real, qty: real, bps: real)
    ensures Fee(price, qty, bps) * 10000.0 == price * qty * bps
  {
    RiskShare(price * qty, bps);
  }

  /** What one unit gains when the price goes from `o` to `r`. */
  function Move(side: Side, o: real, r: real): real { if side == Long then r - o else o - r }

  /** Spread and slippage on a turnover of `x` per unit. */
  function MoveCost(x: real, c: real, q: real): real { x * c * q }

  /** What a position pays in spread, slippage, fees and funding. */
  function CostPaid(ks: seq<Kline>, cfg: Config, m: FillModel, leg: Leg): real
    requires m.Usable() && leg.signalBar + 1 <= leg.exitBar < |ks|
  {
    var t := Price(ks, cfg, m, leg);
    MoveCost(ks[leg.signalBar + 1].open + leg.exitRef, m.CostFraction(), leg.qty) + t.TotalFees() + t.fundingPaid
  }

  lemma MoveAgainst(o: real, r: real, c: real, q: real)
    ensures ((r - r * c) - (o + o * c)) * q == (r - o) * q - (o + r) * c * q
    ensures ((o - o * c) - (r + r * c)) * q == (o - r) * q - (o + r) * c * q
  {
  }

  /** The net result is the move from the entry bar's open to the exit price, minus the costs. */
  lemma NetIsMoveMinusCosts(ks: seq<Kline>, cfg: Config, m: FillModel, leg: Leg)
    requires m.Usable() && leg.signalBar + 1 <= leg.exitBar < |ks|
    ensures Price(ks, cfg, m, leg).NetPnl()
         == Move(leg.side, ks[leg.signalBar + 1].open, leg.exitRef) * leg.qty - CostPaid(ks, cfg, m, leg)
  {
    hide FundingPaid, Fee;
    MoveAgainst(ks[leg.signalBar + 1].open, leg.exitRef, m.CostFraction(), leg.qty);
  }

  /** Costs account exactly for the difference to the cost-free run, position by position. */
  lemma NetIsFreeNetMinusCosts(ks: seq<Kline>, cfg: Config, m: FillModel, leg: Leg)
    requires m.Usable() && leg.signalBar + 1 <= leg.exitBar < |ks|
    ensures Price(ks, cfg, m, leg).NetPnl() == Price(ks, cfg, FREE, leg).NetPnl() - CostPaid(ks, cfg, m, leg)
  {
    NetIsMoveMinusCosts(ks, cfg, m, leg);
    NetIsMoveMinusCosts(ks, cfg, FREE, leg);
    FreeOfCosts(ks, cfg, leg);
    assert FREE.CostFraction() == 0.0;
    hide Price;
  }

  lemma FreeOfCosts(ks: seq<Kline>, cfg: Config, leg: Leg)
    requires leg.signalBar + 1 <= leg.exitBar < |ks|
    ensures var t := Price(ks, cfg, FREE, leg);
      && t.TotalFees() == 0.0 && t.fundingPaid == 0.0
      && t.entryPrice == ks[leg.signalBar + 1].open && t.exitPrice == leg.exitRef
  {
  }

  // ---- The whole run ----------------------------------------------------------------------

  function Schedule(ks: seq<Kline>, strat: Strategy, cfg: Config, i: nat): (legs: seq<Leg>)
    ensures InBars(legs, |ks|)
    decreases |ks| - i
  {
    if i >= |ks| - 1 then []
    else
      match LegAt(ks, strat, cfg, i)
      case None => Schedule(ks, strat, cfg, i + 1)
      case Some(leg) => [leg] + Schedule(ks, strat, cfg, leg.exitBar + 1)
  }

  /**
   * A signal is sized unless it has no stop distance or nothing is at risk, and the size loses
   * exactly the risked share of the starting equity over the stop distance.
   */
  lemma SizeRisksExactly(ks: seq<Kline>, strat: Strategy, cfg: Config, i: nat)
    requires i < |ks|
    ensures SizedSignal(ks, strat, cfg, i).Some? <==>
      var sig := strat(ks[..i + 1]);
      sig.Some? && sig.value.entry != sig.value.stopLoss && cfg.startingEquity * cfg.riskPerTradeBps > 0.0
    ensures SizedSignal(ks, strat, cfg, i).Some? ==>
      var (sig, qty) := SizedSignal(ks, strat, cfg, i).value;
      && strat(ks[..i + 1]) == Some(sig) && qty > 0.0
      && (sig.stopLoss <= sig.entry ==> qty * (sig.entry - sig.stopLoss) * 10000.0 == cfg.startingEquity * cfg.riskPerTradeBps)
      && (sig.stopLoss >= sig.entry ==> qty * (sig.stopLoss - sig.entry) * 10000.0 == cfg.startingEquity * cfg.riskPerTradeBps)
  {
    var sig := strat(ks[..i + 1]);
    if sig.Some? {
      var d := Abs(sig.value.entry - sig.value.stopLoss);
      if d > 0.0 { QtyLaw(cfg, d); }
      hide QtyFor;
    }
  }

  lemma QtyLaw(cfg: Config, d: real)
    requires d > 0.0
    ensures QtyFor(cfg, d) * d * 10000.0 == cfg.startingEquity * cfg.riskPerTradeBps
    ensures QtyFor(cfg, d) > 0.0 <==> cfg.startingEquity * cfg.riskPerTradeBps > 0.0
  {
    var e, r := cfg.startingEquity, cfg.riskPerTradeBps;
    var q := QtyFor(cfg, d);
    RiskShare(e, r);
    assert q * d == e * (r / BPS);
    SignOfProduct(d, q);
    assert d * q == q * d;
  }

  lemma RiskShare(e: real, r: real)
    ensures e * (r / BPS) * 10000.0 == e * r
    ensures e * (r / BPS) > 0.0 <==> e * r > 0.0
  {
    var x := r / BPS;
    assert x * 10000.0 == r;
    assert e * x * 10000.0 == e * (x * 10000.0);
  }

  /** One step of the schedule. */
  lemma ScheduleStep(ks: seq<Kline>, strat: Strategy, cfg: Config, i: nat)
    ensures Schedule(ks, strat, cfg, i) ==
      if i >= |ks| - 1 then []
      else match LegAt(ks, strat, cfg, i)
           case None => Schedule(ks, strat, cfg, i + 1)
           case Some(leg) => [leg] + Schedule(ks, strat, cfg, leg.exitBar + 1)
  {
    hide LegAt;
  }

  /** Taking the next position moves it from the rest of the schedule to the legs taken. */
  lemma TakeLeg(ks: seq<Kline>, strat: Strategy, cfg: Config, i: nat, legs: seq<Leg>, leg: Leg)
    requires i < |ks| - 1 && LegAt(ks, strat, cfg, i) == Some(leg) && InBars(legs, |ks|)
    ensures (legs + [leg]) + Schedule(ks, strat, cfg, leg.exitBar + 1) == legs + Schedule(ks, strat, cfg, i)
    ensures InBars(legs + [leg], |ks|) && InBars([leg], |ks|)
  {
    ScheduleStep(ks, strat, cfg, i);
    hide Schedule, LegAt;
    var rest := Schedule(ks, strat, cfg, leg.exitBar + 1);
    assert (legs + [leg]) + rest == legs + ([leg] + rest);
  }

  lemma NoSignalNoLeg(ks: seq<Kline>, strat: Strategy, cfg: Config, i: nat)
    requires i < |ks| - 1
    ensures SizedSignal(ks, strat, cfg, i).None? <==> LegAt(ks, strat, cfg, i).None?
  {
    hide SizedSignal;
  }

  lemma LegFromParts(ks: seq<Kline>, strat: Strategy, cfg: Config, i: nat, sig: Signal, qty: real)
    requires i < |ks| - 1 && SizedSignal(ks, strat, cfg, i) == Some((sig, qty))
    ensures LegAt(ks, strat, cfg, i) == Some(CloseAt(ks, sig, i, qty, FirstTouch(ks, sig, i + 1)))
  {
    hide SizedSignal, FirstTouch, CloseAt;
  }

  lemma PriceAllEmpty(ks: seq<Kline>, cfg: Config, m: FillModel)
    requires m.Usable()
    ensures PriceAll(ks, cfg, m, []) == []
  {
  }

  lemma PriceAllAppend(ks: seq<Kline>, cfg: Config, m: FillModel, legs: seq<Leg>, leg: Leg)
    requires m.Usable() && InBars(legs + [leg], |ks|) && InBars(legs, |ks|) && InBars([leg], |ks|)
    ensures leg.signalBar + 1 <= leg.exitBar < |ks|
    ensures PriceAll(ks, cfg, m, legs + [leg]) == PriceAll(ks, cfg, m, legs) + [Price(ks, cfg, m, leg)]
  {
    hide Price;
    assert [leg][0] == leg;
  }

  /** The checks that let a signal open a position: there is one, it has a stop, it has a size. */
  method SizeSignal(strategy: Strategy, klines: seq<Kline>, cfg: Config, i: nat) returns (r: Option<(Signal, real)>)
    requires i < |klines|
    ensures r == SizedSignal(klines, strategy, cfg, i)
  {
    hide QtyFor;
    var sig := strategy(klines[..i + 1]);
    if sig.None? {
      return None;
    }
    var stopDist := Abs(sig.value.entry - sig.value.stopLoss);
    if stopDist <= 0.0 {
      return None;
    }
    var qty := QtyFor(cfg, stopDist);
    if qty <= 0.0 {
      return None;
    }
    r := Some((sig.value, qty));
  }

  /** Fills, fees and funding of one position. */
  method Simulate(klines: seq<Kline>, cfg: Config, m: FillModel, side: Side, qty: real, entryIdx: nat,
                  exitIdx: nat, exitRef: real, exitReason: ExitReason) returns (trade: SimulatedTrade)
    requires m.Usable() && 1 <= entryIdx <= exitIdx < |klines|
    ensures var leg := Leg(entryIdx - 1, exitIdx, side, qty, exitRef, exitReason);
      && trade == Price(klines, cfg, m, leg)
      && trade.NetPnl() == Move(side, klines[entryIdx].open, exitRef) * qty - CostPaid(klines, cfg, m, leg)
  {
    NetIsMoveMinusCosts(klines, cfg, m, Leg(entryIdx - 1, exitIdx, side, qty, exitRef, exitReason));
    hide FundingPaid, Fee, EntryPrice, ExitPrice, HeldHours, Notional, SlippageCost;
    var entryBar := klines[entryIdx];
    var effEntry := EntryPrice(entryBar.open, m, side);
    var entryFee := Fee(effEntry, qty, m.EntryFeeBps());
    var heldHours := HeldHours(cfg, exitIdx - entryIdx + 1);
    var funding := FundingPaid(Notional(effEntry, qty), heldHours, m);
    var effExit := ExitPrice(exitRef, m, side);
    var exitFee := Fee(effExit, qty, m.fees.takerBps);
    trade := SimulatedTrade(cfg.pair, side, qty, effEntry, effExit, entryFee, exitFee, funding,
                            SlippageCost(entryBar.open, m), entryBar.openTime,
                            klines[exitIdx].closeTime, exitReason);
  }

  /** The inner loop: hold from bar `entry` until the stop or the target is touched. */
  method HoldToExit(klines: seq<Kline>, sig: Signal, entry: nat, ghost qty: real)
    returns (exitIdx: nat, exitRef: real, exitReason: ExitReason)
    requires 1 <= entry < |klines|
    ensures Leg(entry - 1, exitIdx, sig.side, qty, exitRef, exitReason)
         == CloseAt(klines, sig, entry - 1, qty, FirstTouch(klines, sig, entry))
  {
    var n, j := |klines|, entry;
    while j < n
      invariant entry <= j <= n
      invariant FirstTouch(klines, sig, entry) == FirstTouch(klines, sig, j)
    {
      var bar := klines[j];
      var hitSl, hitTp;
      if sig.side == Long {
        hitSl := bar.low <= sig.stopLoss;
        hitTp := |sig.takeProfits| > 0 && bar.high >= sig.takeProfits[0];
      } else {
        hitSl := bar.high >= sig.stopLoss;
        hitTp := |sig.takeProfits| > 0 && bar.low <= sig.takeProfits[0];
      }
      if hitSl {
        return j, sig.stopLoss, StopLoss;
      }
      if hitTp {
        return j, sig.takeProfits[0], TakeProfit;
      }
      j := j + 1;
    }
    return n - 1, klines[n - 1].close, ForcedClose;
  }

  /** The report `Run` returns for this fill model. */
  predicate ReportOf(report: BacktestReport, ks: seq<Kline>, strat: Strategy, cfg: Config, m: FillModel)
    requires m.Usable()
  {
    report.trades == PriceAll(ks, cfg, m, Schedule(ks, strat, cfg, 0)) && report.startingEquity == cfg.startingEquity
  }

  /** `Backtester.run`. */
  method Run(strategy: Strategy, klines: seq<Kline>, cfg: Config, m: FillModel) returns (report: BacktestReport)
    requires m.Usable()
    ensures ReportOf(report, klines, strategy, cfg, m)
    ensures report.metrics == Summary(report.trades, cfg.startingEquity) && report.optimistic
  {
    hide SizedSignal, Price, PriceAll, FirstTouch, CloseAt, Schedule, LegAt, Summary, CostPaid, Move;
    var trades: seq<SimulatedTrade> := [];
    ghost var legs: seq<Leg> := [];
    var i := 0;
    var n := |klines|;
    PriceAllEmpty(klines, cfg, m);
    while i < n - 1
      invariant 0 <= i
      invariant legs + Schedule(klines, strategy, cfg, i) == Schedule(klines, strategy, cfg, 0)
      invariant InBars(legs, n) && trades == PriceAll(klines, cfg, m, legs)
      decreases n - i
    {
      var sized := SizeSignal(strategy, klines, cfg, i);
      if sized.None? {
        NoSignalNoLeg(klines, strategy, cfg, i);
        ScheduleStep(klines, strategy, cfg, i);
        i := i + 1;
        continue;
      }
      var (s, qty) := sized.value;
      var exitIdx, exitRef, exitReason := HoldToExit(klines, s, i + 1, qty);
      ghost var leg := Leg(i, exitIdx, s.side, qty, exitRef, exitReason);
      LegFromParts(klines, strategy, cfg, i, s, qty);
      var trade := Simulate(klines, cfg, m, s.side, qty, i + 1, exitIdx, exitRef, exitReason);
      trades := trades + [trade];
      assert LegAt(klines, strategy, cfg, i) == Some(leg);
      TakeLeg(klines, strategy, cfg, i, legs, leg);
      PriceAllAppend(klines, cfg, m, legs, leg);
      legs := legs + [leg];
      i := exitIdx + 1;
    }
    ScheduleStep(klines, strategy, cfg, i);
    assert legs == Schedule(klines, strategy, cfg, 0);
    var metrics := Summarize(trades, cfg.startingEquity);
    report := BacktestReport(cfg.startingEquity, metrics, trades, true);
  }

  // ---- What a schedule is ------------------------------------------------------------------

  /** The bar trades at the stop: at or below it for a long, at or above it for a short. */
  predicate StopReached(sig: Signal, bar: Kline) {
    (sig.side == Long && sig.stopLoss >= bar.low) || (sig.side == Short && sig.stopLoss <= bar.high)
  }

  /** The bar trades at the first target, if there is one. */
  predicate TargetReached(sig: Signal, bar: Kline) {
    sig.takeProfits != [] &&
    ((sig.side == Long && sig.takeProfits[0] <= bar.high) || (sig.side == Short && sig.takeProfits[0] >= bar.low))
  }

  /** Stop and target tests of a closed position, against the bars alone. */
  ghost predicate ClosesCorrectly(ks: seq<Kline>, strat: Strategy, cfg: Config, leg: Leg)
    requires leg.signalBar + 1 <= leg.exitBar < |ks|
  {
    match SizedSignal(ks, strat, cfg, leg.signalBar)
    case None => false
    case Some((sig, qty)) =>
      && leg.side == sig.side && leg.qty == qty
      && (forall b :: leg.signalBar + 1 <= b < leg.exitBar ==> !StopReached(sig, ks[b]) && !TargetReached(sig, ks[b]))
      && match leg.reason
         case StopLoss => StopReached(sig, ks[leg.exitBar]) && leg.exitRef == sig.stopLoss
         case TakeProfit => !StopReached(sig, ks[leg.exitBar]) && TargetReached(sig, ks[leg.exitBar])
                            && leg.exitRef == sig.takeProfits[0]
         case ForcedClose => leg.exitBar == |ks| - 1 && leg.exitRef == ks[leg.exitBar].close
                             && !StopReached(sig, ks[leg.exitBar]) && !TargetReached(sig, ks[leg.exitBar])
  }

  /** Positions inside the bars that do not overlap, the first signalled at `from` or later. */
  predicate Ordered(from: nat, legs: seq<Leg>, n: nat) {
    && InBars(legs, n)
    && (forall k :: 0 <= k < |legs| ==> from <= legs[k].signalBar)
    && (forall a, b :: 0 <= a < b < |legs| ==> legs[a].exitBar < legs[b].signalBar)
  }

  ghost predicate AllCloseCorrectly(ks: seq<Kline>, strat: Strategy, cfg: Config, legs: seq<Leg>)
    requires InBars(legs, |ks|)
  {
    forall k :: 0 <= k < |legs| ==> ClosesCorrectly(ks, strat, cfg, legs[k])
  }

  predicate Covers(legs: seq<Leg>, i: nat) {
    exists k :: 0 <= k < |legs| && legs[k].signalBar <= i <= legs[k].exitBar
  }

  /** Every signal that could be sized is taken, or falls inside a position. */
  ghost predicate Complete(ks: seq<Kline>, strat: Strategy, cfg: Config, from: nat, legs: seq<Leg>) {
    forall i :: from <= i < |ks| - 1 && LegAt(ks, strat, cfg, i).Some? ==> Covers(legs, i)
  }

  /**
   * A correct list of positions from bar `from`: they do not overlap, each closes at its
   * first touch (the stop winning ties), and no usable signal is skipped.
   */
  ghost predicate IsSchedule(ks: seq<Kline>, strat: Strategy, cfg: Config, from: nat, legs: seq<Leg>) {
    Ordered(from, legs, |ks|) && AllCloseCorrectly(ks, strat, cfg, legs) && Complete(ks, strat, cfg, from, legs)
  }

  lemma ClosesCorrectlyIffLeg(ks: seq<Kline>, strat: Strategy, cfg: Config, leg: Leg)
    requires leg.signalBar + 1 <= leg.exitBar < |ks|
    ensures ClosesCorrectly(ks, strat, cfg, leg) <==> LegAt(ks, strat, cfg, leg.signalBar) == Some(leg)
  {
    hide SizedSignal, Touches, HitsStop, HitsTarget, StopReached, TargetReached;
    match SizedSignal(ks, strat, cfg, leg.signalBar)
    case None =>
    case Some((sig, qty)) =>
      var t := FirstTouch(ks, sig, leg.signalBar + 1);
      forall b | 0 <= b < |ks|
        ensures HitsStop(sig, ks[b]) <==> StopReached(sig, ks[b])
        ensures HitsTarget(sig, ks[b]) <==> TargetReached(sig, ks[b])
        ensures Touches(sig, ks[b]) <==> HitsStop(sig, ks[b]) || HitsTarget(sig, ks[b])
      {
        TouchMeaning(sig, ks[b]);
      }
  }

  lemma TouchMeaning(sig: Signal, bar: Kline)
    ensures HitsStop(sig, bar) <==> StopReached(sig, bar)
    ensures HitsTarget(sig, bar) <==> TargetReached(sig, bar)
    ensures Touches(sig, bar) <==> HitsStop(sig, bar) || HitsTarget(sig, bar)
  {
  }

  lemma CoversCons(leg: Leg, rest: seq<Leg>, i: nat)
    ensures Covers([leg] + rest, i) <==> leg.signalBar <= i <= leg.exitBar || Covers(rest, i)
  {
    var legs := [leg] + rest;
    if leg.signalBar <= i <= leg.exitBar {
      assert legs[0] == leg;
    }
    if Covers(rest, i) {
      var k :| 0 <= k < |rest| && rest[k].signalBar <= i <= rest[k].exitBar;
      assert legs[k + 1] == rest[k];
    }
  }

  lemma ScheduleCons(ks: seq<Kline>, strat: Strategy, cfg: Config, from: nat, leg: Leg, rest: seq<Leg>)
    requires from < |ks| - 1 && LegAt(ks, strat, cfg, from) == Some(leg)
    requires IsSchedule(ks, strat, cfg, leg.exitBar + 1, rest)
    ensures IsSchedule(ks, strat, cfg, from, [leg] + rest)
  {
    ClosesCorrectlyIffLeg(ks, strat, cfg, leg);
    hide ClosesCorrectly, LegAt, Covers;
    var legs := [leg] + rest;
    forall i: nat | from <= i < |ks| - 1 && LegAt(ks, strat, cfg, i).Some? ensures Covers(legs, i) {
      CoversCons(leg, rest, i);
    }
  }

  lemma ScheduleSkip(ks: seq<Kline>, strat: Strategy, cfg: Config, from: nat, legs: seq<Leg>)
    requires from < |ks| - 1 && LegAt(ks, strat, cfg, from) == None
    requires IsSchedule(ks, strat, cfg, from + 1, legs)
    ensures IsSchedule(ks, strat, cfg, from, legs)
  {
    hide AllCloseCorrectly, LegAt, Covers;
  }

  lemma EmptyIsSchedule(ks: seq<Kline>, strat: Strategy, cfg: Config, from: nat)
    requires from >= |ks| - 1
    ensures IsSchedule(ks, strat, cfg, from, [])
  {
  }

  /** What the program computes is a correct schedule. */
  lemma {:induction false} ScheduleIsCorrect(ks: seq<Kline>, strat: Strategy, cfg: Config, from: nat)
    ensures IsSchedule(ks, strat, cfg, from, Schedule(ks, strat, cfg, from))
    decreases |ks| - from
  {
    ScheduleStep(ks, strat, cfg, from);
    hide Schedule, IsSchedule, LegAt;
    if from >= |ks| - 1 {
      EmptyIsSchedule(ks, strat, cfg, from);
    } else {
      match LegAt(ks, strat, cfg, from)
      case None =>
        ScheduleIsCorrect(ks, strat, cfg, from + 1);
        ScheduleSkip(ks, strat, cfg, from, Schedule(ks, strat, cfg, from + 1));
      case Some(leg) =>
        ScheduleIsCorrect(ks, strat, cfg, leg.exitBar + 1);
        ScheduleCons(ks, strat, cfg, from, leg, Schedule(ks, strat, cfg, leg.exitBar + 1));
    }
  }

  /** A correct schedule starts with the first position there is, and goes on correctly. */
  lemma ScheduleHead(ks: seq<Kline>, strat: Strategy, cfg: Config, from: nat, legs: seq<Leg>)
    requires IsSchedule(ks, strat, cfg, from, legs) && from < |ks| - 1
    ensures match LegAt(ks, strat, cfg, from)
      case None => IsSchedule(ks, strat, cfg, from + 1, legs)
      case Some(leg) => legs != [] && legs[0] == leg && IsSchedule(ks, strat, cfg, leg.exitBar + 1, legs[1..])
  {
    hide ClosesCorrectly, LegAt;
    forall k | 0 <= k < |legs| ensures LegAt(ks, strat, cfg, legs[k].signalBar) == Some(legs[k]) {
      ClosesCorrectlyIffLeg(ks, strat, cfg, legs[k]);
    }
    match LegAt(ks, strat, cfg, from)
    case None =>
    case Some(leg) =>
      assert Covers(legs, from);
      FirstCovers(from, legs, |ks|);
      ScheduleTail(ks, strat, cfg, from, legs);
  }

  /** Only the first position can cover the bar the schedule starts from. */
  lemma FirstCovers(from: nat, legs: seq<Leg>, n: nat)
    requires Ordered(from, legs, n) && Covers(legs, from)
    ensures legs != [] && legs[0].signalBar == from
  {
  }

  lemma ScheduleTail(ks: seq<Kline>, strat: Strategy, cfg: Config, from: nat, legs: seq<Leg>)
    requires IsSchedule(ks, strat, cfg, from, legs) && legs != []
    ensures IsSchedule(ks, strat, cfg, legs[0].exitBar + 1, legs[1..])
  {
    hide ClosesCorrectly, LegAt, Covers;
    var rest := legs[1..];
    assert legs == [legs[0]] + rest;
    forall i: nat | legs[0].exitBar + 1 <= i < |ks| - 1 && LegAt(ks, strat, cfg, i).Some?
      ensures Covers(rest, i)
    {
      CoversCons(legs[0], rest, i);
    }
  }

  /** The computed schedule is the only correct one. */
  lemma {:induction false} ScheduleIsUnique(ks: seq<Kline>, strat: Strategy, cfg: Config, from: nat, legs: seq<Leg>)
    requires IsSchedule(ks, strat, cfg, from, legs)
    ensures legs == Schedule(ks, strat, cfg, from)
    decreases |ks| - from
  {
    ScheduleStep(ks, strat, cfg, from);
    hide IsSchedule, LegAt, Schedule;
    if from >= |ks| - 1 {
      EmptySchedule(ks, strat, cfg, from, legs);
    } else {
      ScheduleHead(ks, strat, cfg, from, legs);
      match LegAt(ks, strat, cfg, from)
      case None =>
        ScheduleIsUnique(ks, strat, cfg, from + 1, legs);
      case Some(leg) =>
        ScheduleIsUnique(ks, strat, cfg, leg.exitBar + 1, legs[1..]);
        assert legs == [leg] + legs[1..];
    }
  }

  lemma EmptySchedule(ks: seq<Kline>, strat: Strategy, cfg: Config, from: nat, legs: seq<Leg>)
    requires IsSchedule(ks, strat, cfg, from, legs) && from >= |ks| - 1
    ensures legs == []
  {
    if legs != [] { OrderedAt(from, legs, |ks|, 0, 0); }
  }

  lemma OrderedAt(from: nat, legs: seq<Leg>, n: nat, a: nat, b: nat)
    requires Ordered(from, legs, n) && a <= b < |legs|
    ensures from <= legs[a].signalBar && legs[b].signalBar + 1 < n
    ensures a < b ==> legs[a].exitBar < legs[b].signalBar
  {
  }

  /** A forced close can only be the last position. */
  lemma ForcedCloseIsLast(ks: seq<Kline>, strat: Strategy, cfg: Config, k: nat)
    requires k < |Schedule(ks, strat, cfg, 0)| && Schedule(ks, strat, cfg, 0)[k].reason == ForcedClose
    ensures k == |Schedule(ks, strat, cfg, 0)| - 1
  {
    hide Schedule, SizedSignal, Touches, Complete;
    ScheduleIsCorrect(ks, strat, cfg, 0);
    LastBarIsLast(0, Schedule(ks, strat, cfg, 0), |ks|, k);
    assert ClosesCorrectly(ks, strat, cfg, Schedule(ks, strat, cfg, 0)[k]);
  }

  lemma LastBarIsLast(from: nat, legs: seq<Leg>, n: nat, k: nat)
    requires Ordered(from, legs, n) && k < |legs|
    ensures legs[k].exitBar == n - 1 ==> k == |legs| - 1
  {
    if k < |legs| - 1 { OrderedAt(from, legs, n, k, k + 1); }
  }

  // ---- Causality ---------------------------------------------------------------------------

  lemma {:induction false} FirstTouchExtends(ks: seq<Kline>, more: seq<Kline>, sig: Signal, j: nat)
    requires j <= |ks|
    ensures FirstTouch(ks, sig, j) < |ks| ==> FirstTouch(ks + more, sig, j) == FirstTouch(ks, sig, j)
    ensures FirstTouch(ks, sig, j) == |ks| ==> FirstTouch(ks + more, sig, j) >= |ks|
    decreases |ks| - j
  {
    if j == |ks| || Touches(sig, ks[j]) {
    } else {
      FirstTouchExtends(ks, more, sig, j + 1);
    }
  }

  lemma LegExtends(ks: seq<Kline>, more: seq<Kline>, strat: Strategy, cfg: Config, i: nat)
    requires i < |ks| - 1
    ensures var a, b := LegAt(ks, strat, cfg, i), LegAt(ks + more, strat, cfg, i);
      && (a.None? <==> b.None?)
      && (a.Some? && a.value.reason != ForcedClose ==> b == a)
      && (a.Some? && a.value.reason == ForcedClose ==>
            a.value.exitBar == |ks| - 1
            && b.value.side == a.value.side && b.value.qty == a.value.qty
            && (more != [] ==> b.value.exitBar >= |ks|))
  {
    assert (ks + more)[..i + 1] == ks[..i + 1];
    assert SizedSignal(ks + more, strat, cfg, i) == SizedSignal(ks, strat, cfg, i);
    hide SizedSignal, Touches;
    match SizedSignal(ks, strat, cfg, i)
    case None =>
    case Some((sig, qty)) => FirstTouchExtends(ks, more, sig, i + 1);
  }

  /** The schedule without a final forced close. */
  function Settled(legs: seq<Leg>): seq<Leg> {
    if legs != [] && legs[|legs| - 1].reason == ForcedClose then legs[..|legs| - 1] else legs
  }

  /** The settled part of `a` is a prefix of `b`; an unsettled last position is still there in `b`,
      with the same signal, side and size, and held past bar `n` if the series grew. */
  ghost predicate Extends(a: seq<Leg>, b: seq<Leg>, n: nat, grows: bool) {
    && Settled(a) <= b
    && (Settled(a) != a ==>
          var t := |a| - 1;
          && |b| > t && a[t].signalBar == b[t].signalBar && a[t].side == b[t].side && a[t].qty == b[t].qty
          && (grows ==> b[t].exitBar >= n))
  }

  /**
   * Bars that come later change nothing that was settled. The settled positions are a prefix
   * of the longer run; a forced close becomes a position with the same signal, side and size
   * that is held into the new bars.
   */
  lemma {:induction false} ScheduleExtends(ks: seq<Kline>, more: seq<Kline>, strat: Strategy, cfg: Config, i: nat)
    ensures Extends(Schedule(ks, strat, cfg, i), Schedule(ks + more, strat, cfg, i), |ks|, more != [])
    decreases |ks| - i
  {
    ScheduleStep(ks, strat, cfg, i);
    ScheduleStep(ks + more, strat, cfg, i);
    hide LegAt, Schedule, Extends;
    if i >= |ks| - 1 {
      NothingExtends(Schedule(ks + more, strat, cfg, i), |ks|, more != []);
    } else {
      LegExtends(ks, more, strat, cfg, i);
      match LegAt(ks, strat, cfg, i)
      case None =>
        ScheduleExtends(ks, more, strat, cfg, i + 1);
      case Some(leg) =>
        var rest := Schedule(ks + more, strat, cfg, LegAt(ks + more, strat, cfg, i).value.exitBar + 1);
        if leg.reason == ForcedClose {
          ScheduleStep(ks, strat, cfg, leg.exitBar + 1);
          ForcedExtends(leg, LegAt(ks + more, strat, cfg, i).value, rest, |ks|, more != []);
        } else {
          ScheduleExtends(ks, more, strat, cfg, leg.exitBar + 1);
          ConsExtends(leg, Schedule(ks, strat, cfg, leg.exitBar + 1), rest, |ks|, more != []);
        }
    }
  }

  lemma NothingExtends(b: seq<Leg>, n: nat, grows: bool)
    ensures Extends([], b, n, grows)
  {
  }

  lemma ForcedExtends(a: Leg, b: Leg, rest: seq<Leg>, n: nat, grows: bool)
    requires a.reason == ForcedClose
    requires a.signalBar == b.signalBar && a.side == b.side && a.qty == b.qty && (grows ==> b.exitBar >= n)
    ensures Extends([a] + [], [b] + rest, n, grows)
  {
    assert Settled([a] + []) == [];
  }

  lemma ConsExtends(leg: Leg, a: seq<Leg>, b: seq<Leg>, n: nat, grows: bool)
    requires Extends(a, b, n, grows) && leg.reason != ForcedClose
    ensures Extends([leg] + a, [leg] + b, n, grows)
  {
    assert Settled([leg] + a) == [leg] + Settled(a);
    if Settled(a) != a {
      var t := |a| - 1;
      assert ([leg] + a)[t + 1] == a[t] && ([leg] + b)[t + 1] == b[t];
    }
  }

  lemma PricesExtend(ks: seq<Kline>, more: seq<Kline>, strat: Strategy, cfg: Config, m: FillModel)
    requires m.Usable()
    ensures var a := Settled(Schedule(ks, strat, cfg, 0));
      PriceAll(ks, cfg, m, a) <= PriceAll(ks + more, cfg, m, Schedule(ks + more, strat, cfg, 0))
  {
    hide Price, Schedule;
    ScheduleExtends(ks, more, strat, cfg, 0);
    var a, b := Settled(Schedule(ks, strat, cfg, 0)), Schedule(ks + more, strat, cfg, 0);
    forall k | 0 <= k < |a| ensures Price(ks, cfg, m, a[k]) == Price(ks + more, cfg, m, b[k]) {
      assert a[k] == b[k];
      PriceExtends(ks, more, cfg, m, a[k]);
    }
  }

  /** The trades without a final forced close. */
  function SettledTrades(ts: seq<SimulatedTrade>): seq<SimulatedTrade> {
    if ts != [] && ts[|ts| - 1].exitReason == ForcedClose then ts[..|ts| - 1] else ts
  }

  /**
   * Backtest causality: the report on a longer series starts with all trades of the report on the
   * shorter one, every field equal, but for a final forced close.
   */
  lemma TradesExtend(ks: seq<Kline>, more: seq<Kline>, strat: Strategy, cfg: Config, m: FillModel,
                     short: BacktestReport, long: BacktestReport)
    requires m.Usable() && ReportOf(short, ks, strat, cfg, m) && ReportOf(long, ks + more, strat, cfg, m)
    ensures SettledTrades(short.trades) <= long.trades
  {
    PricesExtend(ks, more, strat, cfg, m);
    var legs := Schedule(ks, strat, cfg, 0);
    hide Schedule;
    SettledIsPriced(ks, cfg, m, legs);
  }

  lemma SettledIsPriced(ks: seq<Kline>, cfg: Config, m: FillModel, legs: seq<Leg>)
    requires m.Usable() && InBars(legs, |ks|)
    ensures SettledTrades(PriceAll(ks, cfg, m, legs)) == PriceAll(ks, cfg, m, Settled(legs))
  {
    if legs != [] {
      PricedAlike(ks, cfg, m, m, legs[|legs| - 1]);
      assert Price(ks, cfg, m, legs[|legs| - 1]).exitReason == legs[|legs| - 1].reason;
    }
    hide Price;
  }

  lemma PriceExtends(ks: seq<Kline>, more: seq<Kline>, cfg: Config, m: FillModel, leg: Leg)
    requires m.Usable() && leg.signalBar + 1 <= leg.exitBar < |ks|
    ensures Price(ks + more, cfg, m, leg) == Price(ks, cfg, m, leg)
  {
    hide FundingPaid, Fee, EntryPrice, ExitPrice, HeldHours, Notional, SlippageCost;
    var a, b := leg.signalBar + 1, leg.exitBar;
    assert (ks + more)[a] == ks[a] && (ks + more)[b] == ks[b];
  }

  // ---- Costs ----------------------------------------------------------------------------------

  /** The same trades but for prices, fees and funding. */
  predicate SameTrades(a: seq<SimulatedTrade>, b: seq<SimulatedTrade>) {
    && |a| == |b|
    && forall k :: 0 <= k < |a| ==>
         && a[k].side == b[k].side && a[k].qty == b[k].qty && a[k].exitReason == b[k].exitReason
         && a[k].openedAt == b[k].openedAt && a[k].closedAt == b[k].closedAt
  }

  /** Two runs under different fill models trade the same bars, sides, sizes and exits. */
  lemma ScheduleIgnoresCosts(ks: seq<Kline>, strat: Strategy, cfg: Config, m1: FillModel, m2: FillModel,
                             a: BacktestReport, b: BacktestReport)
    requires m1.Usable() && m2.Usable()
    requires ReportOf(a, ks, strat, cfg, m1) && ReportOf(b, ks, strat, cfg, m2)
    ensures SameTrades(a.trades, b.trades)
  {
    var legs := Schedule(ks, strat, cfg, 0);
    hide Schedule, Price;
    assert |a.trades| == |legs| == |b.trades|;
    forall k | 0 <= k < |legs|
      ensures a.trades[k].side == b.trades[k].side && a.trades[k].qty == b.trades[k].qty
      ensures a.trades[k].exitReason == b.trades[k].exitReason
      ensures a.trades[k].openedAt == b.trades[k].openedAt && a.trades[k].closedAt == b.trades[k].closedAt
    {
      PricedAlike(ks, cfg, m1, m2, legs[k]);
    }
  }

  lemma PricedAlike(ks: seq<Kline>, cfg: Config, m1: FillModel, m2: FillModel, leg: Leg)
    requires m1.Usable() && m2.Usable() && leg.signalBar + 1 <= leg.exitBar < |ks|
    ensures var a, b := Price(ks, cfg, m1, leg), Price(ks, cfg, m2, leg);
      && a.side == b.side && a.qty == b.qty && a.exitReason == b.exitReason
      && a.openedAt == b.openedAt && a.closedAt == b.closedAt
  {
    hide FundingPaid, Fee, EntryPrice, ExitPrice, HeldHours, Notional, SlippageCost;
  }

  predicate PricesNonNegative(ks: seq<Kline>, legs: seq<Leg>)
    requires InBars(legs, |ks|)
  {
    forall k :: 0 <= k < |legs| ==>
      0.0 <= ks[legs[k].signalBar + 1].open && 0.0 <= legs[k].exitRef && 0.0 < legs[k].qty
  }

  lemma CostsAreNonNegative(ks: seq<Kline>, cfg: Config, m: FillModel, leg: Leg)
    requires m.NonNegativeCosts() && leg.signalBar + 1 <= leg.exitBar < |ks|
    requires 0.0 <= ks[leg.signalBar + 1].open && 0.0 <= leg.exitRef && 0.0 < leg.qty
    ensures 0.0 <= CostPaid(ks, cfg, m, leg)
  {
    var o, r, c, q := ks[leg.signalBar + 1].open, leg.exitRef, m.CostFraction(), leg.qty;
    EffectivePricesNonNegative(o, m, leg.side);
    EffectivePricesNonNegative(r, m, leg.side);
    SlippageNonNegative(o + r, c, q);
    hide MoveCost, FundingPaid, Fee, Notional, HeldHours, EntryPrice, ExitPrice, SlippageCost, FillModel.CostFraction;
    var t := Price(ks, cfg, m, leg);
    FeeNonNegative(t.entryPrice, q, m.EntryFeeBps());
    FeeNonNegative(t.exitPrice, q, m.fees.takerBps);
    FundingNonNegative(Notional(t.entryPrice, q), HeldHours(cfg, leg.exitBar - leg.signalBar), m);
  }

  lemma EffectivePricesNonNegative(x: real, m: FillModel, side: Side)
    requires m.NonNegativeCosts() && 0.0 <= x
    ensures 0.0 <= EntryPrice(x, m, side) && 0.0 <= ExitPrice(x, m, side)
  {
    PriceNonNegative(x, m.CostFraction());
  }

  lemma PriceNonNegative(x: real, c: real)
    requires 0.0 <= x && 0.0 <= c <= 1.0
    ensures 0.0 <= x - x * c && 0.0 <= x + x * c
  {
    assert 0.0 <= x * (1.0 - c) && 0.0 <= x * c;
  }

  lemma SlippageNonNegative(x: real, c: real, q: real)
    requires 0.0 <= x && 0.0 <= c && 0.0 <= q
    ensures 0.0 <= MoveCost(x, c, q)
  {
    assert 0.0 <= x * c;
  }

  lemma FeeNonNegative(price: real, qty: real, feeBps: real)
    requires 0.0 <= price && 0.0 <= qty && 0.0 <= feeBps
    ensures 0.0 <= Fee(price, qty, feeBps)
  {
    SlippageNonNegative(price, qty, feeBps / BPS);
  }

  lemma FundingNonNegative(notional: real, held: real, m: FillModel)
    requires 0.0 <= m.fundingRate && 0 < m.fundingIntervalHours
    ensures 0.0 <= FundingPaid(notional, held, m)
  {
    if notional > 0.0 && held > 0.0 {
      Funding.CyclesAreTheCeiling(held, m.fundingIntervalHours);
      SlippageNonNegative(notional, m.fundingRate, Funding.Cycles(held, m.fundingIntervalHours) as real);
    }
  }

  lemma {:induction false} NetBelowFree(ks: seq<Kline>, cfg: Config, m: FillModel, legs: seq<Leg>)
    requires m.NonNegativeCosts() && InBars(legs, |ks|) && PricesNonNegative(ks, legs)
    ensures Sum(PriceAll(ks, cfg, m, legs), NetOf) <= Sum(PriceAll(ks, cfg, FREE, legs), NetOf)
  {
    hide Price, SimulatedTrade.NetPnl, CostPaid;
    if legs == [] {
    } else {
      var init, last := legs[..|legs| - 1], legs[|legs| - 1];
      NetBelowFree(ks, cfg, m, init);
      var a, b := PriceAll(ks, cfg, m, legs), PriceAll(ks, cfg, FREE, legs);
      assert a[..|a| - 1] == PriceAll(ks, cfg, m, init) && b[..|b| - 1] == PriceAll(ks, cfg, FREE, init);
      NetIsFreeNetMinusCosts(ks, cfg, m, last);
      CostsAreNonNegative(ks, cfg, m, last);
    }
  }

  /** With costs that are not negative, no run ends above the cost-free run on the same bars. */
  lemma EndingEquityBelowFree(ks: seq<Kline>, strat: Strategy, cfg: Config, m: FillModel,
                              report: BacktestReport, free: BacktestReport)
    requires m.NonNegativeCosts() && PricesNonNegative(ks, Schedule(ks, strat, cfg, 0))
    requires ReportOf(report, ks, strat, cfg, m) && ReportOf(free, ks, strat, cfg, FREE)
    ensures report.EndingEquity() <= free.EndingEquity()
  {
    hide Schedule, Price;
    NetBelowFree(ks, cfg, m, Schedule(ks, strat, cfg, 0));
  }

  // ---- Runs of strategies that emit strict brackets --------------------------------------------

  /** The signal at bar `i`, if any, is a strict bracket around a positive entry. */
  predicate BracketAt(ks: seq<Kline>, strat: Strategy, i: nat)
    requires i < |ks|
  {
    strat(ks[..i + 1]).Some? ==> StrictBracket(strat(ks[..i + 1]).value) && strat(ks[..i + 1]).value.entry > 0.0
  }

  predicate SignalsAreBrackets(ks: seq<Kline>, strat: Strategy) {
    forall i :: 0 <= i < |ks| ==> BracketAt(ks, strat, i)
  }

  /** On valid candles such a position opens and exits at positive prices, whatever closes it. */
  lemma BracketLegIsPositive(ks: seq<Kline>, strat: Strategy, cfg: Config, leg: Leg)
    requires ValidSeries(ks) && SignalsAreBrackets(ks, strat) && leg.signalBar + 1 <= leg.exitBar < |ks|
    requires ClosesCorrectly(ks, strat, cfg, leg)
    ensures 0.0 < ks[leg.signalBar + 1].open && 0.0 < leg.exitRef && 0.0 < leg.qty
  {
    assert ValidCandle(ks[leg.signalBar + 1]) && ValidCandle(ks[leg.exitBar]);
    assert BracketAt(ks, strat, leg.signalBar);
    hide QtyFor;
  }

  lemma BracketPricesNonNegative(ks: seq<Kline>, strat: Strategy, cfg: Config)
    requires ValidSeries(ks) && SignalsAreBrackets(ks, strat)
    ensures PricesNonNegative(ks, Schedule(ks, strat, cfg, 0))
  {
    ScheduleIsCorrect(ks, strat, cfg, 0);
    var legs := Schedule(ks, strat, cfg, 0);
    hide Schedule, ClosesCorrectly, SignalsAreBrackets, Complete;
    forall k | 0 <= k < |legs|
      ensures 0.0 <= ks[legs[k].signalBar + 1].open && 0.0 <= legs[k].exitRef && 0.0 < legs[k].qty
    {
      BracketLegIsPositive(ks, strat, cfg, legs[k]);
    }
  }

  /** So on valid candles costs never help a strategy of strict brackets. */
  lemma BracketRunBelowFree(ks: seq<Kline>, strat: Strategy, cfg: Config, m: FillModel,
                            report: BacktestReport, free: BacktestReport)
    requires ValidSeries(ks) && SignalsAreBrackets(ks, strat) && m.NonNegativeCosts()
    requires ReportOf(report, ks, strat, cfg, m) && ReportOf(free, ks, strat, cfg, FREE)
    ensures report.EndingEquity() <= free.EndingEquity()
  {
    BracketPricesNonNegative(ks, strat, cfg);
    hide PricesNonNegative, Schedule;
    EndingEquityBelowFree(ks, strat, cfg, m, report, free);
  }

  /** ... and with money at risk no such signal is dropped: it is traded, or falls inside a position. */
  lemma BracketSignalIsTraded(ks: seq<Kline>, strat: Strategy, cfg: Config, i: nat)
    requires SignalsAreBrackets(ks, strat) && i < |ks| - 1 && strat(ks[..i + 1]).Some?
    requires cfg.startingEquity > 0.0 && cfg.riskPerTradeBps > 0.0
    ensures Covers(Schedule(ks, strat, cfg, 0), i)
  {
    ScheduleIsCorrect(ks, strat, cfg, 0);
    assert BracketAt(ks, strat, i);
    var sig := strat(ks[..i + 1]).value;
    SizeRisksExactly(ks, strat, cfg, i);
    SignOfProduct(cfg.startingEquity, cfg.riskPerTradeBps);
    hide QtyFor, SizedSignal, Schedule, Covers, AllCloseCorrectly;
    assert SizedSignal(ks, strat, cfg, i).Some?;
    NoSignalNoLeg(ks, strat, cfg, i);
  }

  /** A stop that fills from the signal's entry loses exactly the risked share of the starting equity. */
  lemma StopLosesRiskedShare(ks: seq<Kline>, strat: Strategy, cfg: Config, k: nat)
    requires k < |Schedule(ks, strat, cfg, 0)|
    requires var leg := Schedule(ks, strat, cfg, 0)[k];
      var sig := strat(ks[..leg.signalBar + 1]);
      leg.reason == StopLoss && sig.Some? && StrictBracket(sig.value) && ks[leg.signalBar + 1].open == sig.value.entry
    ensures var leg := Schedule(ks, strat, cfg, 0)[k];
      Price(ks, cfg, FREE, leg).NetPnl() * 10000.0 == -(cfg.startingEquity * cfg.riskPerTradeBps)
  {
    ScheduleIsCorrect(ks, strat, cfg, 0);
    var leg := Schedule(ks, strat, cfg, 0)[k];
    hide Schedule, ClosesCorrectly, Complete, Price;
    StopLegLosesRiskedShare(ks, strat, cfg, leg, strat(ks[..leg.signalBar + 1]).value);
  }

  lemma StopLegLosesRiskedShare(ks: seq<Kline>, strat: Strategy, cfg: Config, leg: Leg, sig: Signal)
    requires leg.signalBar + 1 <= leg.exitBar < |ks| && ClosesCorrectly(ks, strat, cfg, leg)
    requires strat(ks[..leg.signalBar + 1]) == Some(sig) && leg.reason == StopLoss
    requires StrictBracket(sig) && ks[leg.signalBar + 1].open == sig.entry
    ensures Price(ks, cfg, FREE, leg).NetPnl() * 10000.0 == -(cfg.startingEquity * cfg.riskPerTradeBps)
  {
    StopLegTerms(ks, strat, cfg, leg, sig);
    SizeRisksExactly(ks, strat, cfg, leg.signalBar);
    hide SizedSignal, Price, ClosesCorrectly;
    FreeCostsNothing(ks, cfg, leg);
    NetIsMoveMinusCosts(ks, cfg, FREE, leg);
    hide CostPaid, Move;
    LossAtStop(sig.entry, sig.stopLoss, leg.qty, cfg.startingEquity * cfg.riskPerTradeBps, leg.side);
  }

  lemma StopLegTerms(ks: seq<Kline>, strat: Strategy, cfg: Config, leg: Leg, sig: Signal)
    requires leg.signalBar + 1 <= leg.exitBar < |ks| && ClosesCorrectly(ks, strat, cfg, leg)
    requires strat(ks[..leg.signalBar + 1]) == Some(sig) && leg.reason == StopLoss
    ensures SizedSignal(ks, strat, cfg, leg.signalBar) == Some((sig, leg.qty))
    ensures leg.side == sig.side && leg.exitRef == sig.stopLoss
  {
    hide QtyFor;
  }

  lemma FreeCostsNothing(ks: seq<Kline>, cfg: Config, leg: Leg)
    requires leg.signalBar + 1 <= leg.exitBar < |ks|
    ensures CostPaid(ks, cfg, FREE, leg) == 0.0
  {
    FreeOfCosts(ks, cfg, leg);
    assert FREE.CostFraction() == 0.0;
    hide Price;
  }

  lemma LossAtStop(entry: real, stop: real, qty: real, risk: real, side: Side)
    requires side == Long ==> stop < entry && qty * (entry - stop) * 10000.0 == risk
    requires side == Short ==> entry < stop && qty * (stop - entry) * 10000.0 == risk
    ensures Move(side, entry, stop) * qty * 10000.0 == -risk
  {
    if side == Long {
      assert (stop - entry) * qty == -(qty * (entry - stop));
    } else {
      assert (entry - stop) * qty == -(qty * (stop - entry));
    }
  }

  /** The ending equity is the last point of the equity curve that the drawdown is taken on. */
  lemma EndingEquityIsCurveEnd(report: BacktestReport)
    ensures report.EndingEquity() == Equity(Nets(report.trades), report.startingEquity, |report.trades|)
  {
    SumIsTotal(report.trades, |report.trades|);
    assert report.trades[..|report.trades|] == report.trades;
  }
}
