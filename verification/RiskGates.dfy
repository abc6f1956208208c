/** Records of the risk engine. Instants and durations are in seconds. */
module RiskTypes {
  import opened Shared

  datatype RejectReason =
    | OK | ACCOUNT_PROTECTION_LOCK | PAPER_GATE_UNMET | STALE_PRICE | CONNECTOR_FAILURE
    | DAILY_LOSS_LIMIT | WEEKLY_LOSS_LIMIT | DRAWDOWN_LIMIT | MAX_OPEN_POSITIONS | MAX_TRADES_PER_HOUR
    | MAX_EXPOSURE_PER_ASSET | MAX_TOTAL_EXPOSURE | COOLDOWN_AFTER_LOSS | COOLDOWN_AFTER_VOLATILITY
    | SIZE_BELOW_MIN | SIZE_RISK_UNREACHABLE | MAX_LEVERAGE_EXCEEDED | LIQUIDATION_TOO_CLOSE
    | EV_NEGATIVE_AFTER_COSTS | EV_STATS_UNKNOWN | MIN_RR_NOT_MET | MIN_LIQUIDITY_NOT_MET
    | DUPLICATE_SIGNAL | INVALID_SIGNAL

  datatype StrategyStats = StrategyStats(sampleSize: nat, winRate: real, avgWinBps: real, avgLossBps: real,
                                         minSampleForLive: nat)

  datatype AccountState = AccountState(equity: real, peakEquity: real, dailyRealizedPnl: real, weeklyRealizedPnl: real,
                                       openPositionsCount: nat, totalExposureBps: real, tradesLastHour: nat,
                                       lastLossAt: Option<real>, lastVolatilitySpikeAt: Option<real>,
                                       accountProtectionLock: bool, paperGateUnlocked: bool,
                                       lastTickAt: Option<real>)

  datatype RiskProfile = RiskProfile(maxRiskPerTradeBps: real, maxDailyLossBps: real, maxWeeklyLossBps: real,
                                     maxDrawdownBps: real, maxOpenPositions: nat, maxLeverage: real,
                                     maxExposurePerAssetBps: real, maxTotalExposureBps: real,
                                     maxTradesPerHour: nat, minRr: real, minExpectedProfitAfterFeesBps: real,
                                     minLiquidationDistanceBps: real, stalePriceMaxSeconds: nat,
                                     cooldownAfterLossSeconds: nat, cooldownAfterVolatilitySpikeSeconds: nat)

  predicate Live(mode: Mode) { mode == SemiAuto || mode == FullAuto }
}

/** The six hard guards. */
module Guards {
  import opened Shared
  import opened RiskTypes

  function CheckAccountLock(a: AccountState): RejectReason {
    if a.accountProtectionLock then ACCOUNT_PROTECTION_LOCK else OK
  }

  function CheckPaperGate(a: AccountState, mode: Mode): RejectReason {
    if Live(mode) && !a.paperGateUnlocked then PAPER_GATE_UNMET else OK
  }

  function CheckStalePrice(a: AccountState, now: real, maxSeconds: nat): RejectReason {
    match a.lastTickAt
    case None => STALE_PRICE
    case Some(t) => if now - t > maxSeconds as real then STALE_PRICE else OK
  }

  /** A loss in bps of a positive peak. */
  function LossBps(loss: real, peak: real): real
    requires peak > 0.0
  {
    loss / peak * BPS
  }

  function CheckLossGuards(a: AccountState, p: RiskProfile): RejectReason {
    if a.peakEquity > 0.0 then
      var ddBps := if a.equity < a.peakEquity then LossBps(a.peakEquity - a.equity, a.peakEquity) else 0.0;
      if ddBps >= p.maxDrawdownBps then DRAWDOWN_LIMIT
      else if a.dailyRealizedPnl < 0.0 && LossBps(-a.dailyRealizedPnl, a.peakEquity) >= p.maxDailyLossBps
      then DAILY_LOSS_LIMIT
      else if a.weeklyRealizedPnl < 0.0 && LossBps(-a.weeklyRealizedPnl, a.peakEquity) >= p.maxWeeklyLossBps
      then WEEKLY_LOSS_LIMIT
      else OK
    else OK
  }

  function CheckExposureCaps(a: AccountState, p: RiskProfile): RejectReason {
    if a.openPositionsCount >= p.maxOpenPositions then MAX_OPEN_POSITIONS
    else if a.tradesLastHour >= p.maxTradesPerHour then MAX_TRADES_PER_HOUR
    else OK
  }

  function CheckCooldowns(a: AccountState, p: RiskProfile, now: real): RejectReason {
    if a.lastLossAt.Some? && now - a.lastLossAt.value < p.cooldownAfterLossSeconds as real
    then COOLDOWN_AFTER_LOSS
    else if a.lastVolatilitySpikeAt.Some?
            && now - a.lastVolatilitySpikeAt.value < p.cooldownAfterVolatilitySpikeSeconds as real
    then COOLDOWN_AFTER_VOLATILITY
    else OK
  }

  lemma LossBpsLimit(loss: real, peak: real, limit: real)
    requires peak > 0.0
    ensures LossBps(loss, peak) < limit <==> loss * BPS < limit * peak
  {
    var x := loss / peak;
    assert x * peak == loss;
    assert LossBps(loss, peak) * peak == loss * BPS;
    ScaleOrder(LossBps(loss, peak), limit, peak);
  }

  lemma LossBpsScales(loss: real, peak: real, k: real)
    requires peak > 0.0 && k > 0.0
    ensures Times(k, peak) > 0.0 && LossBps(Times(k, loss), Times(k, peak)) == LossBps(loss, peak)
  {
    TimesKeepsRatio(k, loss, peak);
  }
}

/** Liquidation price of an isolated position and the distance gate. */
module Liquidation {
  import opened Shared

  const DEFAULT_MAINTENANCE_MARGIN_RATE := 0.005

  function LiquidationPrice(side: Side, entry: real, leverage: real, mmRate: real): Option<real> {
    if entry <= 0.0 || leverage <= 0.0 || mmRate < 0.0 then None
    else if side == Long then Some(entry * (1.0 - 1.0 / leverage + mmRate))
    else Some(entry * (1.0 + 1.0 / leverage - mmRate))
  }

  function LiquidationDistanceBps(entry: real, liq: Option<real>): Option<real> {
    if liq.None? || entry <= 0.0 then None else Some(Abs(entry - liq.value) / entry * BPS)
  }

  function PassesMinDistance(side: Side, entry: real, leverage: real, minDistanceBps: real, mmRate: real)
    : (bool, Option<real>, Option<real>)
  {
    var liq := LiquidationPrice(side, entry, leverage, mmRate);
    var dist := LiquidationDistanceBps(entry, liq);
    if liq.None? || dist.None? then (false, liq, dist) else (dist.value >= minDistanceBps, liq, dist)
  }

  /** On both sides the distance is |1/leverage - mm| in bps, whatever the entry price. */
  lemma DistanceIsSideAndPriceFree(side: Side, entry: real, leverage: real, mmRate: real)
    requires entry > 0.0 && leverage > 0.0 && mmRate >= 0.0
    ensures var liq := LiquidationPrice(side, entry, leverage, mmRate);
      liq.Some? && LiquidationDistanceBps(entry, liq) == Some(Abs(1.0 / leverage - mmRate) * BPS)
  {
    var d := 1.0 / leverage - mmRate;
    var liq := LiquidationPrice(side, entry, leverage, mmRate).value;
    Offset(entry, 1.0 / leverage, mmRate);
    RelativeDistance(entry, liq, d);
  }

  lemma RelativeDistance(e: real, liq: real, d: real)
    requires e > 0.0 && (e - liq == e * d || e - liq == -(e * d))
    ensures Abs(e - liq) / e == Abs(d)
  {
    AbsScales(e, d);
    Cancel(Abs(e - liq) / e, Abs(d), e);
  }

  lemma Offset(e: real, inv: real, mm: real)
    ensures e - e * (1.0 - inv + mm) == e * (inv - mm)
    ensures e - e * (1.0 + inv - mm) == -(e * (inv - mm))
  {
  }

  lemma AbsScales(e: real, d: real)
    requires e > 0.0
    ensures Abs(e * d) == e * Abs(d) && Abs(-(e * d)) == e * Abs(d)
  {
    ScaleOrder(d, 0.0, e);
  }

  /**
   * The distance gate is a leverage cap: when the minimum distance exceeds the maintenance
   * margin, passing means leverage <= 10^4 / (minimum + mm * 10^4), and the liquidation price
   * lies strictly on the losing side of the entry.
   */
  lemma GateBoundsLeverage(side: Side, entry: real, leverage: real, minBps: real, mmRate: real)
    requires PassesMinDistance(side, entry, leverage, minBps, mmRate).0
    requires minBps > mmRate * BPS
    ensures leverage * (minBps + mmRate * BPS) <= BPS
    ensures var liq := PassesMinDistance(side, entry, leverage, minBps, mmRate).1;
      liq.Some? && (side == Long ==> liq.value < entry) && (side == Short ==> liq.value > entry)
  {
    DistanceIsSideAndPriceFree(side, entry, leverage, mmRate);
    var inv := 1.0 / leverage;
    var d := inv - mmRate;
    assert inv > 0.0 && inv * leverage == 1.0;
    assert d < 0.0 ==> Abs(d) == mmRate - inv;
    assert inv * BPS >= minBps + mmRate * BPS;
    ScaleOrder(minBps + mmRate * BPS, inv * BPS, leverage);
    assert d > 0.0;
    ScaleOrder(0.0, d, entry);
    Offset(entry, inv, mmRate);
  }
}

/** Position sizing: lose the risked share of equity if the stop fires, within the caps. */
module Sizing {
  import opened Shared
  import opened RiskTypes

  datatype SizeIntent = SizeIntent(qty: real, notional: real, leverage: real, marginRequired: real, reject: RejectReason)
  {
    predicate Approved() { reject == OK }
  }

  function Reject(r: RejectReason): SizeIntent { SizeIntent(0.0, 0.0, 0.0, 0.0, r) }

  function TargetDistance(s: Signal): real
    requires |s.takeProfits| > 0
  {
    if s.side == Long then s.takeProfits[0] - s.entry else s.entry - s.takeProfits[0]
  }

  function RawQty(equity: real, riskBps: real, stopDist: real): real
    requires stopDist != 0.0
  {
    equity * (riskBps / BPS) / stopDist
  }

  function Margin(qty: real, entry: real, lev: real): real
    requires lev != 0.0
  {
    qty * entry / lev
  }

  /** Margin of a position, in bps of equity. */
  function MarginBps(qty: real, entry: real, lev: real, equity: real): real
    requires lev != 0.0 && equity != 0.0
  {
    Margin(qty, entry, lev) / equity * BPS
  }

  function StopDist(s: Signal): real { Abs(s.entry - s.stopLoss) }

  /** The leverage that sizing and the liquidation gate use. */
  function Leverage(s: Signal, p: RiskProfile): real { Min(s.leverage, p.maxLeverage) }

  function Qty(s: Signal, a: AccountState, p: RiskProfile): real
    requires StopDist(s) != 0.0
  {
    RawQty(a.equity, p.maxRiskPerTradeBps, StopDist(s))
  }

  predicate RrFails(s: Signal, p: RiskProfile)
    requires StopDist(s) != 0.0
  {
    |s.takeProfits| > 0 && (TargetDistance(s) <= 0.0 || TargetDistance(s) / StopDist(s) < p.minRr)
  }

  function AssetBps(s: Signal, a: AccountState, p: RiskProfile): real
    requires StopDist(s) != 0.0 && Leverage(s, p) != 0.0 && a.equity != 0.0
  {
    MarginBps(Qty(s, a, p), s.entry, Leverage(s, p), a.equity)
  }

  function SizePosition(s: Signal, a: AccountState, p: RiskProfile, minQty: real): SizeIntent {
    if StopDist(s) <= 0.0 then Reject(INVALID_SIGNAL)
    else if a.equity <= 0.0 then Reject(ACCOUNT_PROTECTION_LOCK)
    else if RrFails(s, p) then Reject(MIN_RR_NOT_MET)
    else if Leverage(s, p) <= 0.0 then Reject(INVALID_SIGNAL)
    else if AssetBps(s, a, p) > p.maxExposurePerAssetBps then Reject(MAX_EXPOSURE_PER_ASSET)
    else if a.totalExposureBps + AssetBps(s, a, p) > p.maxTotalExposureBps then Reject(MAX_TOTAL_EXPOSURE)
    else if Qty(s, a, p) < minQty then Reject(SIZE_BELOW_MIN)
    else if Qty(s, a, p) <= 0.0 then Reject(SIZE_RISK_UNREACHABLE)
    else SizeIntent(Qty(s, a, p), Qty(s, a, p) * s.entry, Leverage(s, p),
                    Margin(Qty(s, a, p), s.entry, Leverage(s, p)), OK)
  }

  lemma RawQtyLaw(equity: real, riskBps: real, stopDist: real)
    requires stopDist > 0.0
    ensures RawQty(equity, riskBps, stopDist) * stopDist * BPS == equity * riskBps
    ensures equity > 0.0 ==> (RawQty(equity, riskBps, stopDist) > 0.0 <==> riskBps > 0.0)
    ensures equity > 0.0 ==> (RawQty(equity, riskBps, stopDist) < 0.0 <==> riskBps < 0.0)
  {
    var q, r := RawQty(equity, riskBps, stopDist), riskBps / BPS;
    assert r * BPS == riskBps;
    assert q * stopDist == equity * r;
    assert equity * r * BPS == equity * riskBps by { Assoc(equity, r, BPS); }
    if equity > 0.0 {
      SignOfProduct(equity, r);
      SignOfProduct(stopDist, q);
    }
  }

  lemma Assoc(a: real, b: real, c: real)
    ensures a * b * c == a * (b * c)
  {
  }

  /** The margin share does not depend on equity: it is risk * entry / (stop distance * leverage). */
  lemma MarginBpsLaw(equity: real, riskBps: real, stopDist: real, entry: real, lev: real)
    requires equity > 0.0 && stopDist > 0.0 && lev > 0.0
    ensures MarginBps(RawQty(equity, riskBps, stopDist), entry, lev, equity) * (stopDist * lev) == riskBps * entry
  {
    var q := RawQty(equity, riskBps, stopDist);
    RawQtyLaw(equity, riskBps, stopDist);
    var n := q * entry;
    var m := n / lev;
    var x := m / equity;
    assert m * lev == n && x * equity == m;
    MarginAlgebra(x, equity, lev, stopDist, q, entry, riskBps);
  }

  lemma MarginAlgebra(x: real, equity: real, lev: real, stop: real, q: real, entry: real, risk: real)
    requires equity > 0.0 && x * equity * lev == q * entry && q * stop * BPS == equity * risk
    ensures x * BPS * (stop * lev) == risk * entry
  {
    assert x * BPS * (stop * lev) * equity == (x * equity * lev) * (stop * BPS) by { Shuffle5(x, equity, lev, stop); }
    assert (q * entry) * (stop * BPS) == (q * stop * BPS) * entry by { Shuffle3(q, entry, stop); }
    assert (equity * risk) * entry == (risk * entry) * equity by { Shuffle2(equity, risk, entry); }
    Cancel(x * BPS * (stop * lev), risk * entry, equity);
  }

  lemma Shuffle5(x: real, e: real, l: real, s: real)
    ensures x * BPS * (s * l) * e == (x * e * l) * (s * BPS)
  {
  }

  lemma Shuffle3(q: real, n: real, s: real)
    ensures (q * n) * (s * BPS) == (q * s * BPS) * n
  {
  }

  lemma Shuffle2(e: real, r: real, n: real)
    ensures (e * r) * n == (r * n) * e
  {
  }

  /**
   * An approved size loses exactly the risked share of equity at the stop, and its target
   * pays at least the minimum ratio.
   */
  lemma ApprovedSizeRisksExactly(s: Signal, a: AccountState, p: RiskProfile, minQty: real)
    requires SizePosition(s, a, p, minQty).Approved()
    ensures var z := SizePosition(s, a, p, minQty);
      && z.qty > 0.0 && z.qty >= minQty && z.qty * StopDist(s) * BPS == a.equity * p.maxRiskPerTradeBps
      && (|s.takeProfits| > 0 ==> TargetDistance(s) > 0.0 && TargetDistance(s) >= p.minRr * StopDist(s))
  {
    RawQtyLaw(a.equity, p.maxRiskPerTradeBps, StopDist(s));
    hide RawQty, AssetBps, Margin, TargetDistance, StopDist;
    if |s.takeProfits| > 0 {
      RatioLimit(TargetDistance(s), StopDist(s), p.minRr);
    }
  }

  /** ... it respects both leverage caps, and its margin fits the per-asset and total caps. */
  lemma ApprovedSizeFitsCaps(s: Signal, a: AccountState, p: RiskProfile, minQty: real)
    requires SizePosition(s, a, p, minQty).Approved()
    ensures var z := SizePosition(s, a, p, minQty);
      && 0.0 < z.leverage <= s.leverage && z.leverage <= p.maxLeverage
      && (z.leverage == s.leverage || z.leverage == p.maxLeverage)
      && z.marginRequired * z.leverage == z.qty * s.entry == z.notional
      && z.marginRequired * BPS <= p.maxExposurePerAssetBps * a.equity
      && z.marginRequired * BPS <= (p.maxTotalExposureBps - a.totalExposureBps) * a.equity
  {
    hide Qty, MarginBps, Margin, RrFails, StopDist;
    var z := SizePosition(s, a, p, minQty);
    MarginCap(z.qty, s.entry, z.leverage, a.equity, p.maxExposurePerAssetBps);
    MarginCap(z.qty, s.entry, z.leverage, a.equity, p.maxTotalExposureBps - a.totalExposureBps);
  }

  lemma MarginCap(qty: real, entry: real, lev: real, equity: real, cap: real)
    requires equity > 0.0 && lev > 0.0
    ensures MarginBps(qty, entry, lev, equity) <= cap <==> Margin(qty, entry, lev) * BPS <= cap * equity
    ensures Margin(qty, entry, lev) * lev == qty * entry
  {
    var margin := Margin(qty, entry, lev);
    var x := margin / equity;
    assert x * equity == margin;
    assert x * BPS * equity == margin * BPS;
    ScaleOrder(x * BPS, cap, equity);
  }

  lemma RatioLimit(a: real, b: real, limit: real)
    requires b > 0.0
    ensures a / b < limit <==> a < limit * b
  {
    var x := a / b;
    assert x * b == a;
    ScaleOrder(x, limit, b);
  }
}

/** Expected value after costs, in bps of notional. */
module Ev {
  import opened Shared
  import opened RiskTypes
  import opened Funding
  import Fills
  import Metrics

  datatype EvInputs = EvInputs(fees: FeeSchedule, takerBothSides: bool, spreadBps: real, slippageBps: real,
                               holdHours: real, fundingRate: real, fundingIntervalHours: int)
  {
    /** The division by the interval is defined, or not needed. */
    predicate Usable() { holdHours <= 0.0 || fundingRate == 0.0 || fundingIntervalHours != 0 }
  }

  function RoundTripFeesBps(i: EvInputs): real {
    if i.takerBothSides then i.fees.takerBps * 2.0 else i.fees.takerBps + i.fees.makerBps
  }

  function ExpectedFundingBps(i: EvInputs): real
    requires i.Usable()
  {
    if i.holdHours <= 0.0 || i.fundingRate == 0.0 then 0.0
    else i.fundingRate * BPS * Cycles(i.holdHours, i.fundingIntervalHours) as real
  }

  function CostsBps(i: EvInputs): real
    requires i.Usable()
  {
    RoundTripFeesBps(i) + i.spreadBps + i.slippageBps + ExpectedFundingBps(i)
  }

  function EvNetBps(s: StrategyStats, i: EvInputs): real
    requires i.Usable()
  {
    s.winRate * s.avgWinBps - (1.0 - s.winRate) * s.avgLossBps - CostsBps(i)
  }

  predicate StatsUnknown(s: Option<StrategyStats>) {
    s.None? || s.value.sampleSize < s.value.minSampleForLive
  }

  function EvPasses(s: Option<StrategyStats>, i: EvInputs, mode: Mode, minBps: real): (bool, RejectReason, Option<real>)
    requires StatsUnknown(s) || i.Usable()
  {
    if StatsUnknown(s) then
      if Live(mode) then (false, EV_STATS_UNKNOWN, None) else (true, OK, None)
    else
      var ev := EvNetBps(s.value, i);
      if ev <= minBps then (false, EV_NEGATIVE_AFTER_COSTS, Some(ev)) else (true, OK, Some(ev))
  }

  /**
   * The EV gate and the backtester charge the same funding: for every hold, what is paid on a
   * positive notional, in bps of it, is what the gate expected at the same rate and interval.
   */
  lemma FundingAgrees(i: EvInputs, m: Fills.FillModel, notional: real)
    requires notional > 0.0 && i.Usable() && m.Usable()
    requires i.fundingRate == m.fundingRate && i.fundingIntervalHours == m.fundingIntervalHours
    ensures Fills.FundingPaid(notional, i.holdHours, m) / notional * BPS == ExpectedFundingBps(i)
  {
    if i.holdHours > 0.0 && i.fundingRate != 0.0 {
      var c := Cycles(i.holdHours, i.fundingIntervalHours) as real;
      hide Cycles;
      PerNotional(notional, i.fundingRate, c);
    }
  }

  lemma PerNotional(n: real, r: real, c: real)
    requires n > 0.0
    ensures n * r * c / n * BPS == r * BPS * c
  {
    assert n * r * c == r * c * n;
    Cancel(n * r * c / n, r * c, n);
  }

  /**
   * The EV gate and the backtester charge the same fees: entry fee plus exit fee of a position at an
   * unchanged price, in bps of its notional, are the gate's round-trip fees at the same schedule.
   */
  lemma FeesAgree(i: EvInputs, m: Fills.FillModel, price: real, qty: real)
    requires price * qty > 0.0 && m.fees == i.fees && m.takerBothSides == i.takerBothSides
    ensures (Fills.Fee(price, qty, m.EntryFeeBps()) + Fills.Fee(price, qty, m.fees.takerBps)) / (price * qty) * 10000.0
         == RoundTripFeesBps(i)
  {
    var n, a, b := price * qty, m.EntryFeeBps(), m.fees.takerBps;
    FeeShare(n, a, b);
  }

  lemma FeeShare(n: real, a: real, b: real)
    requires n > 0.0
    ensures (n * (a / BPS) + n * (b / BPS)) / n * 10000.0 == a + b
  {
    var x := a / BPS + b / BPS;
    assert n * (a / BPS) + n * (b / BPS) == x * n;
    Cancel(x * n / n, x, n);
  }

  /** The costs of the EV gate, each at its value. */
  lemma CostsWrittenOut(i: EvInputs)
    requires i.Usable()
    ensures var fees := if i.takerBothSides then i.fees.takerBps + i.fees.takerBps else i.fees.makerBps + i.fees.takerBps;
      var funding := if i.holdHours > 0.0 && i.fundingRate != 0.0
                     then i.fundingRate * 10000.0 * Cycles(i.holdHours, i.fundingIntervalHours) as real else 0.0;
      CostsBps(i) == fees + i.spreadBps + i.slippageBps + funding
  {
    hide Cycles;
  }

  /**
   * Fed with the statistics of a backtest, the EV gate computes the mean net result per trade
   * minus the modelled costs.
   */
  lemma EvOfBacktest(ts: seq<Fills.SimulatedTrade>, start: real, s: StrategyStats, i: EvInputs)
    requires ts != [] && i.Usable()
    requires var m := Metrics.Summary(ts, start);
      s.winRate == m.winRate && s.avgWinBps == m.avgWinBps && s.avgLossBps == m.avgLossBps
    ensures EvNetBps(s, i) == Metrics.Sum(ts, Fills.NetShare) / |ts| as real - CostsBps(i)
  {
    hide Metrics.Summary, CostsBps;
    Metrics.ExpectancyIsMeanResult(ts, start);
  }
}
