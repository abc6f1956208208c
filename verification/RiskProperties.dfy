/** What approval means, and what the verdict does not depend on. */
module RiskProperties {
  import opened Shared
  import opened RiskTypes
  import opened Guards
  import opened Liquidation
  import opened Sizing
  import opened Ev
  import opened Idempotency
  import opened RiskEngine
  import Funding

  // ---- The ten gates, said without the program's divisions -----------------------------------

  predicate NotLocked(e: Entry) { !e.account.accountProtectionLock }

  predicate PaperGateMet(e: Entry) {
    e.mode == SemiAuto || e.mode == FullAuto ==> e.account.paperGateUnlocked
  }

  predicate PriceFresh(e: Entry) {
    e.account.lastTickAt.Some? && e.now <= e.account.lastTickAt.value + e.profile.stalePriceMaxSeconds as real
  }

  predicate CooledDown(e: Entry) {
    && (e.account.lastLossAt.Some? ==>
          e.account.lastLossAt.value + e.profile.cooldownAfterLossSeconds as real <= e.now)
    && (e.account.lastVolatilitySpikeAt.Some? ==>
          e.account.lastVolatilitySpikeAt.value + e.profile.cooldownAfterVolatilitySpikeSeconds as real <= e.now)
  }

  predicate DrawdownWithinLimit(e: Entry) {
    && 0.0 < e.profile.maxDrawdownBps
    && (e.account.peakEquity - e.account.equity) * 10000.0 < e.profile.maxDrawdownBps * e.account.peakEquity
  }

  predicate LossWithinLimit(realized: real, limitBps: real, peak: real) {
    realized < 0.0 ==> -realized * 10000.0 < limitBps * peak
  }

  predicate LossesWithinLimits(e: Entry) {
    var a, p := e.account, e.profile;
    a.peakEquity > 0.0 ==>
      && DrawdownWithinLimit(e)
      && LossWithinLimit(a.dailyRealizedPnl, p.maxDailyLossBps, a.peakEquity)
      && LossWithinLimit(a.weeklyRealizedPnl, p.maxWeeklyLossBps, a.peakEquity)
  }

  predicate RoomForOneMore(e: Entry) {
    e.account.openPositionsCount < e.profile.maxOpenPositions && e.account.tradesLastHour < e.profile.maxTradesPerHour
  }

  /** The smaller of the two leverages. */
  function CappedLeverage(e: Entry): real {
    if e.signal.leverage <= e.profile.maxLeverage then e.signal.leverage else e.profile.maxLeverage
  }

  /** From entry to stop, on whichever side it lies. */
  function RiskPerUnit(e: Entry): real {
    if e.signal.entry < e.signal.stopLoss then e.signal.stopLoss - e.signal.entry else e.signal.entry - e.signal.stopLoss
  }

  /** With 0.5 % maintenance margin, the leverage leaves the minimum distance, above or below the margin. */
  predicate FarFromLiquidation(e: Entry) {
    var lev := CappedLeverage(e);
    && e.signal.entry > 0.0 && lev > 0.0
    && ((1.0 - 0.005 * lev) * 10000.0 >= e.profile.minLiquidationDistanceBps * lev
        || (0.005 * lev - 1.0) * 10000.0 >= e.profile.minLiquidationDistanceBps * lev)
  }

  /** The first target, if there is one, lies on the winning side and pays the minimum ratio. */
  predicate TargetPays(e: Entry) {
    |e.signal.takeProfits| > 0 ==>
      var gain := if e.signal.side == Short then e.signal.entry - e.signal.takeProfits[0]
                  else e.signal.takeProfits[0] - e.signal.entry;
      gain > 0.0 && gain >= e.profile.minRr * RiskPerUnit(e)
  }

  /** The position's margin, as a share of equity, fits a cap. */
  predicate MarginFits(e: Entry, capBps: real) {
    e.profile.maxRiskPerTradeBps * e.signal.entry <= capBps * (RiskPerUnit(e) * CappedLeverage(e))
  }

  predicate Sizable(e: Entry) {
    var a, p := e.account, e.profile;
    && e.signal.entry != e.signal.stopLoss && a.equity > 0.0 && CappedLeverage(e) > 0.0 && p.maxRiskPerTradeBps > 0.0
    && TargetPays(e)
    && MarginFits(e, p.maxExposurePerAssetBps)
    && MarginFits(e, p.maxTotalExposureBps - a.totalExposureBps)
  }

  /** Enough trades to judge the strategy by. */
  predicate StatisticsKnown(e: Entry) {
    e.stats.Some? && e.stats.value.sampleSize >= e.stats.value.minSampleForLive
  }

  /** What the strategy wins on average, less both fees, spread, slippage and funding. */
  function EdgeAfterCosts(t: StrategyStats, i: EvInputs): real
    requires i.Usable()
  {
    var edge := t.winRate * t.avgWinBps - (1.0 - t.winRate) * t.avgLossBps;
    var fees := i.fees.takerBps + (if i.takerBothSides then i.fees.takerBps else i.fees.makerBps);
    var funding := if i.holdHours > 0.0 && i.fundingRate != 0.0
                   then i.fundingRate * 10000.0 * Funding.Cycles(i.holdHours, i.fundingIntervalHours) as real else 0.0;
    edge - fees - i.spreadBps - i.slippageBps - funding
  }

  predicate WorthItsCosts(e: Entry) {
    if StatisticsKnown(e)
    then e.ev.Usable() && EdgeAfterCosts(e.stats.value, e.ev) > e.profile.minExpectedProfitAfterFeesBps
    else e.mode != SemiAuto && e.mode != FullAuto
  }

  predicate GateHolds(e: Entry, keys: map<string, real>, clock: real, g: int) {
    if g == 1 then NotLocked(e)
    else if g == 2 then PaperGateMet(e)
    else if g == 3 then PriceFresh(e)
    else if g == 4 then CooledDown(e)
    else if g == 5 then LossesWithinLimits(e)
    else if g == 6 then RoomForOneMore(e)
    else if g == 7 then FarFromLiquidation(e)
    else if g == 8 then Sizable(e)
    else if g == 9 then WorthItsCosts(e)
    else e.signal.dedupHash !in keys || keys[e.signal.dedupHash] <= clock
  }

  /** The reason for which gate `g` refuses: that of its first part that does not hold. */
  function Refusal(e: Entry, g: int): RejectReason {
    var s, a, p := e.signal, e.account, e.profile;
    match g
    case 1 => ACCOUNT_PROTECTION_LOCK
    case 2 => PAPER_GATE_UNMET
    case 3 => STALE_PRICE
    case 4 => if a.lastLossAt.Some? && e.now < a.lastLossAt.value + p.cooldownAfterLossSeconds as real
              then COOLDOWN_AFTER_LOSS else COOLDOWN_AFTER_VOLATILITY
    case 5 => if !DrawdownWithinLimit(e) then DRAWDOWN_LIMIT
              else if !LossWithinLimit(a.dailyRealizedPnl, p.maxDailyLossBps, a.peakEquity) then DAILY_LOSS_LIMIT
              else WEEKLY_LOSS_LIMIT
    case 6 => if a.openPositionsCount >= p.maxOpenPositions then MAX_OPEN_POSITIONS else MAX_TRADES_PER_HOUR
    case 7 => LIQUIDATION_TOO_CLOSE
    case 8 => if s.entry == s.stopLoss then INVALID_SIGNAL
              else if a.equity <= 0.0 then ACCOUNT_PROTECTION_LOCK
              else if !TargetPays(e) then MIN_RR_NOT_MET
              else if CappedLeverage(e) <= 0.0 then INVALID_SIGNAL
              else if !MarginFits(e, p.maxExposurePerAssetBps) then MAX_EXPOSURE_PER_ASSET
              else if !MarginFits(e, p.maxTotalExposureBps - a.totalExposureBps) then MAX_TOTAL_EXPOSURE
              else if p.maxRiskPerTradeBps < 0.0 then SIZE_BELOW_MIN
              else SIZE_RISK_UNREACHABLE
    case 9 => if StatisticsKnown(e) then EV_NEGATIVE_AFTER_COSTS else EV_STATS_UNKNOWN
    case _ => DUPLICATE_SIGNAL
  }

  lemma LossGuardMeaning(e: Entry)
    ensures CheckLossGuards(e.account, e.profile) == if LossesWithinLimits(e) then OK else Refusal(e, 5)
  {
    var a, p := e.account, e.profile;
    if a.peakEquity > 0.0 {
      LossBpsLimit(a.peakEquity - a.equity, a.peakEquity, p.maxDrawdownBps);
      LossBpsLimit(-a.dailyRealizedPnl, a.peakEquity, p.maxDailyLossBps);
      LossBpsLimit(-a.weeklyRealizedPnl, a.peakEquity, p.maxWeeklyLossBps);
      ScaleOrder(0.0, p.maxDrawdownBps, a.peakEquity);
      hide LossBps;
    }
  }

  lemma LiquidationGateMeaning(e: Entry)
    ensures LiquidationCheck(e).0 <==> FarFromLiquidation(e)
  {
    var lev, mm, min := Leverage(e.signal, e.profile), DEFAULT_MAINTENANCE_MARGIN_RATE, e.profile.minLiquidationDistanceBps;
    if e.signal.entry > 0.0 && lev > 0.0 {
      DistanceIsSideAndPriceFree(e.signal.side, e.signal.entry, lev, mm);
      InverseDistance(lev, mm, min);
    }
  }

  lemma InverseDistance(lev: real, mm: real, min: real)
    requires lev > 0.0
    ensures Abs(1.0 / lev - mm) * BPS >= min <==> Abs(1.0 - mm * lev) * BPS >= min * lev
  {
    var inv := 1.0 / lev;
    assert inv * lev == 1.0;
    Distribute(inv, -mm, lev);
    AbsScales(lev, inv - mm);
    assert Abs(inv - mm) * lev == Abs(1.0 - mm * lev);
    assert Abs(inv - mm) * BPS * lev == Abs(1.0 - mm * lev) * BPS;
    ScaleOrder(min, Abs(inv - mm) * BPS, lev);
  }

  lemma SizingGateMeaning(e: Entry)
    ensures Size(e).reject == if Sizable(e) then OK else Refusal(e, 8)
  {
    hide Qty, AssetBps, RrFails, StopDist, Leverage, RiskPerUnit, CappedLeverage, TargetPays, MarginFits, Margin;
    var s, a, p := e.signal, e.account, e.profile;
    SameTerms(e);
    if StopDist(s) > 0.0 { RrMeaning(e); }
    if StopDist(s) > 0.0 && a.equity > 0.0 && Leverage(s, p) > 0.0 {
      SizingFacts(s, a, p);
      CapMeaning(e, p.maxExposurePerAssetBps);
      CapMeaning(e, p.maxTotalExposureBps - a.totalExposureBps);
    }
  }

  lemma SameTerms(e: Entry)
    ensures StopDist(e.signal) == RiskPerUnit(e) && Leverage(e.signal, e.profile) == CappedLeverage(e)
    ensures StopDist(e.signal) > 0.0 <==> e.signal.entry != e.signal.stopLoss
  {
  }

  /** The sign of the size and the margin share, without division. */
  lemma SizingFacts(s: Signal, a: AccountState, p: RiskProfile)
    requires StopDist(s) > 0.0 && a.equity > 0.0 && Leverage(s, p) > 0.0
    ensures Qty(s, a, p) * StopDist(s) * BPS == a.equity * p.maxRiskPerTradeBps
    ensures (Qty(s, a, p) > 0.0 <==> p.maxRiskPerTradeBps > 0.0) && (Qty(s, a, p) < 0.0 <==> p.maxRiskPerTradeBps < 0.0)
    ensures AssetBps(s, a, p) * (StopDist(s) * Leverage(s, p)) == p.maxRiskPerTradeBps * s.entry
  {
    RawQtyLaw(a.equity, p.maxRiskPerTradeBps, StopDist(s));
    MarginBpsLaw(a.equity, p.maxRiskPerTradeBps, StopDist(s), s.entry, Leverage(s, p));
  }

  lemma RrMeaning(e: Entry)
    requires StopDist(e.signal) > 0.0
    ensures RrFails(e.signal, e.profile) <==> !TargetPays(e)
  {
    assert StopDist(e.signal) == RiskPerUnit(e);
    if |e.signal.takeProfits| > 0 {
      RatioLimit(TargetDistance(e.signal), StopDist(e.signal), e.profile.minRr);
    }
    hide StopDist, RiskPerUnit;
  }

  lemma CapMeaning(e: Entry, cap: real)
    requires StopDist(e.signal) > 0.0 && e.account.equity > 0.0 && Leverage(e.signal, e.profile) > 0.0
    ensures AssetBps(e.signal, e.account, e.profile) <= cap <==> MarginFits(e, cap)
  {
    hide AssetBps, StopDist, Leverage, RiskPerUnit, CappedLeverage;
    var stopDist, lev := StopDist(e.signal), Leverage(e.signal, e.profile);
    SameTerms(e);
    SizingFacts(e.signal, e.account, e.profile);
    ScaleOrder(0.0, lev, stopDist);
    ScaleOrder(AssetBps(e.signal, e.account, e.profile), cap, stopDist * lev);
  }

  lemma EvGateMeaning(e: Entry)
    requires e.Computable()
    ensures EvCheck(e).0 <==> WorthItsCosts(e)
    ensures !EvCheck(e).0 ==> EvCheck(e).1 == Refusal(e, 9)
    ensures EvCheck(e).2 == if StatisticsKnown(e) then Some(EdgeAfterCosts(e.stats.value, e.ev)) else None
  {
    if StatisticsKnown(e) { EdgeMeaning(e.stats.value, e.ev); }
    hide EvNetBps, EdgeAfterCosts;
  }

  lemma EdgeMeaning(t: StrategyStats, i: EvInputs)
    requires i.Usable()
    ensures EvNetBps(t, i) == EdgeAfterCosts(t, i)
  {
    CostsWrittenOut(i);
    hide CostsBps, Funding.Cycles;
  }

  /** A gate stops exactly when its condition does not hold, and then for the stated reason. */
  lemma GateMeaning(e: Entry, keys: map<string, real>, clock: real, g: int)
    requires 1 <= g <= 10
    ensures Stops(e, keys, clock, g) <==> !GateHolds(e, keys, clock, g)
    ensures Stops(e, keys, clock, g) && (g == 9 ==> e.Computable()) ==> GateReason(e, keys, clock, g) == Refusal(e, g)
  {
    hide CheckLossGuards, LossesWithinLimits, LiquidationCheck, FarFromLiquidation, Size, Sizable, EvCheck, WorthItsCosts;
    hide DrawdownWithinLimit, LossWithinLimit, MarginFits, TargetPays, RiskPerUnit, CappedLeverage;
    if g == 5 { LossGuardMeaning(e); RefusalIsNotOk(e, 5); }
    if g == 7 { LiquidationGateMeaning(e); }
    if g == 8 { SizingGateMeaning(e); RefusalIsNotOk(e, 8); }
    if g == 9 && e.Computable() { EvGateMeaning(e); RefusalIsNotOk(e, 9); }
    if g == 9 && !e.Computable() { NotComputableNotWorth(e); }
    if 5 <= g <= 9 { hide Refusal; }
  }

  lemma RefusalIsNotOk(e: Entry, g: int)
    ensures Refusal(e, g) != OK
  {
    hide DrawdownWithinLimit, LossWithinLimit, MarginFits, TargetPays, RiskPerUnit, CappedLeverage;
  }

  lemma NotComputableNotWorth(e: Entry)
    requires !e.Computable()
    ensures !WorthItsCosts(e)
  {
    hide EdgeAfterCosts;
  }

  /**
   * Approval if and only if all ten gates hold; otherwise the reason is that of the first gate
   * that does not. The call raises exactly when gates 1 to 8 hold and gate 9 divides by zero.
   */
  lemma ApprovesIffAllGatesHold(e: Entry, keys: map<string, real>, clock: real)
    ensures Raises(e, keys, clock) <==> !e.Computable() && forall g :: 1 <= g <= 8 ==> GateHolds(e, keys, clock, g)
    ensures !Raises(e, keys, clock) ==>
      (Decide(e, keys, clock).approved <==> forall g :: 1 <= g <= 10 ==> GateHolds(e, keys, clock, g))
    ensures !Raises(e, keys, clock) && !Decide(e, keys, clock).approved ==>
      exists g :: IsFirstFailure(e, keys, clock, g) && Decide(e, keys, clock).reason == Refusal(e, g)
  {
    forall g | 1 <= g <= 10 ensures Stops(e, keys, clock, g) <==> !GateHolds(e, keys, clock, g) {
      GateMeaning(e, keys, clock, g);
    }
    assert !e.Computable() ==> Stops(e, keys, clock, 9);
    if !Raises(e, keys, clock) { DecideFollowsFirstFailure(e, keys, clock); }
    hide Stops, GateReason, GateHolds, Decide, Refusal;
    var f := FirstFailing(e, keys, clock);
    if 1 <= f <= 10 { GateMeaning(e, keys, clock, f); }
    if f <= 10 {
      assert !GateHolds(e, keys, clock, f);
    }
    if f <= 10 && !Raises(e, keys, clock) {
      assert IsFirstFailure(e, keys, clock, f);
    }
  }

  /** `g` is the first gate that does not hold, and it has an answer. */
  predicate IsFirstFailure(e: Entry, keys: map<string, real>, clock: real, g: int) {
    && 1 <= g <= 10 && (g == 9 ==> e.Computable()) && !GateHolds(e, keys, clock, g)
    && forall h :: 1 <= h < g ==> GateHolds(e, keys, clock, h)
  }

  lemma DecideFollowsFirstFailure(e: Entry, keys: map<string, real>, clock: real)
    requires !Raises(e, keys, clock)
    ensures var f, d := FirstFailing(e, keys, clock), Decide(e, keys, clock);
      (d.approved <==> f == 11) && (f <= 10 ==> d.reason == GateReason(e, keys, clock, f))
  {
    hide Stops, GateReason, LiquidationCheck, EvCheck, Size;
  }

  /** An approved decision records what the sizing and liquidation gates computed. */
  lemma ApprovedRecords(e: Entry, keys: map<string, real>, clock: real)
    requires !Raises(e, keys, clock)
    ensures var d := Decide(e, keys, clock);
      d.approved ==>
        && Size(e).reject == OK && LiquidationCheck(e).0 && Free(keys, e.signal.dedupHash, clock)
        && d.qty == Some(Size(e).qty) && d.leverage == Some(Size(e).leverage)
        && d.liquidationPrice == LiquidationCheck(e).1 && d.liquidationDistanceBps == LiquidationCheck(e).2
  {
    if FirstFailing(e, keys, clock) == 11 {
      assert !Stops(e, keys, clock, 7) && !Stops(e, keys, clock, 8) && !Stops(e, keys, clock, 10);
    }
    hide Size, LiquidationCheck, EvCheck, Free;
  }

  /** What an approved decision says, in the terms of the entry. */
  lemma ApprovedMeaning(e: Entry, keys: map<string, real>, clock: real)
    requires !Raises(e, keys, clock) && Decide(e, keys, clock).approved
    ensures var d := Decide(e, keys, clock);
      && d.mode == e.mode && d.reason == OK && d.orderType == Some(Market) && d.decidedAt == e.now
      && d.entry == Some(e.signal.entry) && d.stopLoss == Some(e.signal.stopLoss)
      && d.takeProfits == e.signal.takeProfits && d.idempotencyKey == e.signal.dedupHash
      && d.leverage == Some(CappedLeverage(e))
      && d.qty.Some? && d.qty.value * RiskPerUnit(e) * 10000.0 == e.account.equity * e.profile.maxRiskPerTradeBps
    ensures var d := Decide(e, keys, clock);
      && d.feesRoundTripBps == Some(e.ev.fees.takerBps + if e.ev.takerBothSides then e.ev.fees.takerBps else e.ev.fees.makerBps)
      && (StatisticsKnown(e) ==> e.ev.Usable() && d.evNetBps == Some(EdgeAfterCosts(e.stats.value, e.ev)))
      && (!StatisticsKnown(e) ==> d.evNetBps == None)
    ensures LiquidationRecorded(e, Decide(e, keys, clock))
  {
    hide Size, LiquidationCheck, EvCheck, StopDist, RiskPerUnit, CappedLeverage, EdgeAfterCosts, LiquidationRecorded;
    assert !Stops(e, keys, clock, 7) && !Stops(e, keys, clock, 8);
    assert LiquidationCheck(e).0 && Size(e).reject == OK;
    assert Decide(e, keys, clock) == ApprovedDecision(e);
    hide Decide, Raises, Stops;
    EvGateMeaning(e);
    LiquidationMeaning(e, Decide(e, keys, clock));
    SizeMeaning(e);
  }

  lemma SizeMeaning(e: Entry)
    requires Size(e).reject == OK
    ensures Size(e).leverage == CappedLeverage(e)
    ensures Size(e).qty * RiskPerUnit(e) * 10000.0 == e.account.equity * e.profile.maxRiskPerTradeBps
  {
    hide Qty, AssetBps, Margin, RrFails, StopDist, RiskPerUnit, Leverage, CappedLeverage;
    SameTerms(e);
    ApprovedSizeRisksExactly(e.signal, e.account, e.profile, 0.0);
  }

  /** At the recorded price the move from the entry, with the leverage, has used the margin up to 0.5 %. */
  predicate LiquidationRecorded(e: Entry, d: TradeDecision) {
    && d.liquidationPrice.Some? && d.liquidationDistanceBps.Some?
    && var liq, entry, lev := d.liquidationPrice.value, e.signal.entry, CappedLeverage(e);
    && (e.signal.side == Long ==> (entry - liq) * lev == entry * (1.0 - 0.005 * lev))
    && (e.signal.side == Short ==> (liq - entry) * lev == entry * (1.0 - 0.005 * lev))
    && d.liquidationDistanceBps.value * entry == (if liq < entry then entry - liq else liq - entry) * 10000.0
    && d.liquidationDistanceBps.value >= e.profile.minLiquidationDistanceBps
  }

  lemma LiquidationMeaning(e: Entry, d: TradeDecision)
    requires LiquidationCheck(e).0
    requires d.liquidationPrice == LiquidationCheck(e).1 && d.liquidationDistanceBps == LiquidationCheck(e).2
    ensures LiquidationRecorded(e, d)
  {
    hide Leverage, CappedLeverage, LiquidationPrice;
    var entry, lev := e.signal.entry, Leverage(e.signal, e.profile);
    SameTerms(e);
    HasLiquidationPrice(e);
    LiquidationPriceLaw(e.signal.side, entry, lev, 0.005);
    BpsOfEntry(Abs(entry - d.liquidationPrice.value), entry);
  }

  lemma HasLiquidationPrice(e: Entry)
    requires LiquidationCheck(e).0
    ensures e.signal.entry > 0.0 && Leverage(e.signal, e.profile) > 0.0
  {
    LiquidationGateMeaning(e);
    SameTerms(e);
  }

  lemma LiquidationPriceLaw(side: Side, entry: real, lev: real, mm: real)
    requires entry > 0.0 && lev > 0.0 && mm >= 0.0
    ensures LiquidationPrice(side, entry, lev, mm).Some?
    ensures var liq := LiquidationPrice(side, entry, lev, mm).value;
      && (side == Long ==> (entry - liq) * lev == entry * (1.0 - mm * lev))
      && (side == Short ==> (liq - entry) * lev == entry * (1.0 - mm * lev))
  {
    var inv := 1.0 / lev;
    assert inv * lev == 1.0;
    Offset(entry, inv, mm);
    assert entry * (inv - mm) * lev == entry * (inv * lev - mm * lev);
  }

  lemma BpsOfEntry(x: real, entry: real)
    requires entry > 0.0
    ensures x / entry * BPS * entry == x * 10000.0
  {
    assert x / entry * entry == x;
  }

  /** What a rejection says: nothing to trade, and a key of its own. */
  lemma RejectedMeaning(e: Entry, keys: map<string, real>, clock: real)
    requires !Raises(e, keys, clock) && !Decide(e, keys, clock).approved
    ensures var d := Decide(e, keys, clock);
      && d.mode == e.mode && d.reason != OK && d.decidedAt == e.now
      && d.orderType.None? && d.qty.None? && d.entry.None? && d.stopLoss.None? && d.takeProfits == []
      && d.leverage.None? && d.feesRoundTripBps.None?
      && d.idempotencyKey == e.signal.dedupHash + "|" + ReasonText(d.reason)
    ensures exists g :: IsFirstFailure(e, keys, clock, g) && KnownAt(e, g, Decide(e, keys, clock))
  {
    var f := FirstFailing(e, keys, clock);
    FirstStopIsFailure(e, keys, clock);
    if f == 9 { EvGateMeaning(e); }
    assert KnownAt(e, f, Decide(e, keys, clock)) by { hide ReasonText, EdgeAfterCosts, GateReason, LiquidationCheck, EvCheck, Size, FirstFailing; }
    assert GateReason(e, keys, clock, f) != OK;
    KeyOfTwo(e.signal.dedupHash, ReasonText(Decide(e, keys, clock).reason));
    hide GateReason, LiquidationCheck, EvCheck, Size, ReasonText, FirstFailing;
  }

  /** A rejection at gate `g` records the liquidation price and distance from gate 7 to 9, and the edge at gate 9. */
  predicate KnownAt(e: Entry, g: int, d: TradeDecision) {
    && d.liquidationPrice == (if 7 <= g <= 9 then LiquidationCheck(e).1 else None)
    && d.liquidationDistanceBps == (if 7 <= g <= 9 then LiquidationCheck(e).2 else None)
    && (if g == 9 && StatisticsKnown(e) then e.ev.Usable() && d.evNetBps == Some(EdgeAfterCosts(e.stats.value, e.ev))
        else d.evNetBps == None)
  }

  lemma FirstStopIsFailure(e: Entry, keys: map<string, real>, clock: real)
    requires !Raises(e, keys, clock) && FirstFailing(e, keys, clock) <= 10
    ensures IsFirstFailure(e, keys, clock, FirstFailing(e, keys, clock))
  {
    forall g | 1 <= g <= 10 ensures Stops(e, keys, clock, g) <==> !GateHolds(e, keys, clock, g) {
      GateMeaning(e, keys, clock, g);
    }
    hide Stops, GateHolds;
  }

  lemma KeyOfTwo(a: string, b: string)
    ensures DedupHash([a, b]) == a + "|" + b
  {
    assert [a, b][1..] == [b];
    assert DedupHash([b]) == b;
  }

  /** The leverage bound and the liquidation side, for every approved decision. */
  lemma ApprovedLeverageIsBounded(e: Entry, keys: map<string, real>, clock: real)
    requires !Raises(e, keys, clock) && Decide(e, keys, clock).approved
    requires e.profile.minLiquidationDistanceBps > DEFAULT_MAINTENANCE_MARGIN_RATE * BPS
    ensures var d := Decide(e, keys, clock); var min := e.profile.minLiquidationDistanceBps;
      && d.leverage.Some? && d.leverage.value * (min + DEFAULT_MAINTENANCE_MARGIN_RATE * BPS) <= BPS
      && d.liquidationPrice.Some?
      && (if e.signal.side == Long then d.liquidationPrice.value < e.signal.entry
          else d.liquidationPrice.value > e.signal.entry)
  {
    hide Decide, PassesMinDistance, StopDist, RrFails, AssetBps, Qty, Margin;
    ApprovedRecords(e, keys, clock);
    GateBoundsLeverage(e.signal.side, e.signal.entry, Leverage(e.signal, e.profile), e.profile.minLiquidationDistanceBps,
                       DEFAULT_MAINTENANCE_MARGIN_RATE);
  }

  // ---- Invariance of the verdict ---------------------------------------------------------------

  /** The same account in another currency unit. */
  function ScaleAccount(e: Entry, k: real): Entry {
    e.(account := e.account.(equity := Times(k, e.account.equity), peakEquity := Times(k, e.account.peakEquity),
                             dailyRealizedPnl := Times(k, e.account.dailyRealizedPnl),
                             weeklyRealizedPnl := Times(k, e.account.weeklyRealizedPnl)))
  }

  function TimesAll(k: real, xs: seq<real>): seq<real> {
    seq(|xs|, i requires 0 <= i < |xs| => Times(k, xs[i]))
  }

  function ScaleSignal(s: Signal, k: real): Signal {
    s.(entry := Times(k, s.entry), stopLoss := Times(k, s.stopLoss), takeProfits := TimesAll(k, s.takeProfits))
  }

  /** The same signal with all its prices in another unit. */
  function ScalePrices(e: Entry, k: real): Entry { e.(signal := ScaleSignal(e.signal, k)) }

  /** The entry under another key: strategies hash entry and side into the key of a signal. */
  function Rekey(e: Entry, key: string): Entry { e.(signal := e.signal.(dedupHash := key)) }

  function ReflectAll(top: real, xs: seq<real>): seq<real> {
    seq(|xs|, i requires 0 <= i < |xs| => top - xs[i])
  }

  /** The opposite signal: stop and targets reflected around the entry. */
  function Mirror(e: Entry): Entry {
    var s := e.signal;
    e.(signal := s.(side := Opposite(s.side), stopLoss := 2.0 * s.entry - s.stopLoss,
                    takeProfits := ReflectAll(2.0 * s.entry, s.takeProfits)))
  }

  predicate SameAnswer(e: Entry, f: Entry, keys: map<string, real>, clock: real, g: int) {
    && (Stops(e, keys, clock, g) <==> Stops(f, keys, clock, g))
    && ((g == 9 ==> e.Computable() && f.Computable()) ==> GateReason(e, keys, clock, g) == GateReason(f, keys, clock, g))
  }

  /** Two entries that every gate answers alike get the same verdict for the same reason. */
  lemma SameGatesSameVerdict(e: Entry, f: Entry, keys: map<string, real>, clock: real)
    requires e.Computable() == f.Computable()
    requires forall g :: 1 <= g <= 10 ==> SameAnswer(e, f, keys, clock, g)
    ensures Raises(e, keys, clock) == Raises(f, keys, clock)
    ensures !Raises(e, keys, clock) ==> Decide(e, keys, clock).approved == Decide(f, keys, clock).approved
    ensures !Raises(e, keys, clock) ==> Decide(e, keys, clock).reason == Decide(f, keys, clock).reason
  {
    var first := FirstFailing(e, keys, clock);
    forall g | 1 <= g <= 10 ensures Stops(e, keys, clock, g) <==> Stops(f, keys, clock, g) {
      assert SameAnswer(e, f, keys, clock, g);
    }
    hide Stops, GateReason, LiquidationCheck, EvCheck, Size, Decide;
    FailsAt(f, keys, clock, first);
    if !Raises(e, keys, clock) {
      DecideFollowsFirstFailure(e, keys, clock);
      DecideFollowsFirstFailure(f, keys, clock);
      if first <= 10 { assert SameAnswer(e, f, keys, clock, first); }
    }
  }

  /** Sizing rejects alike what it sees alike. */
  lemma SameViewSameReject(s: Signal, a: AccountState, s': Signal, a': AccountState, p: RiskProfile)
    requires StopDist(s) > 0.0 <==> StopDist(s') > 0.0
    requires a.equity > 0.0 <==> a'.equity > 0.0
    requires Leverage(s, p) == Leverage(s', p) && a.totalExposureBps == a'.totalExposureBps
    requires StopDist(s) > 0.0 ==> (RrFails(s, p) <==> RrFails(s', p))
    requires StopDist(s) > 0.0 && a.equity > 0.0 && Leverage(s, p) > 0.0 ==> AssetBps(s, a, p) == AssetBps(s', a', p)
    ensures SizePosition(s, a, p, 0.0).reject == SizePosition(s', a', p, 0.0).reject
    ensures SizePosition(s, a, p, 0.0).leverage == SizePosition(s', a', p, 0.0).leverage
  {
    if StopDist(s) > 0.0 && a.equity > 0.0 && Leverage(s, p) > 0.0 {
      SizingFacts(s, a, p);
      SizingFacts(s', a', p);
    }
    hide Qty, AssetBps, RrFails, StopDist, Margin, Leverage;
  }

  lemma SameMargin(s: Signal, a: AccountState, s': Signal, a': AccountState, p: RiskProfile)
    requires StopDist(s) > 0.0 && a.equity > 0.0 && StopDist(s') > 0.0 && a'.equity > 0.0
    requires Leverage(s, p) == Leverage(s', p) > 0.0
    requires s'.entry * StopDist(s) == s.entry * StopDist(s')
    ensures AssetBps(s, a, p) == AssetBps(s', a', p)
  {
    hide AssetBps, Qty, StopDist, Leverage;
    SizingFacts(s, a, p);
    SizingFacts(s', a', p);
    EqualMargins(AssetBps(s, a, p), AssetBps(s', a', p), StopDist(s), StopDist(s'), Leverage(s, p),
                 p.maxRiskPerTradeBps, s.entry, s'.entry);
  }

  lemma EqualMargins(m: real, m': real, d: real, d': real, lev: real, r: real, n: real, n': real)
    requires d > 0.0 && d' > 0.0 && lev > 0.0 && n' * d == n * d'
    requires m * (d * lev) == r * n && m' * (d' * lev) == r * n'
    ensures m == m'
  {
    var q := d * d' * lev;
    ScaleOrder(0.0, d, d');
    ScaleOrder(0.0, d * d', lev);
    assert m * q == (m * (d * lev)) * d' by { Regroup(m, d, d', lev); }
    assert m' * q == (m' * (d' * lev)) * d by { Regroup(m', d', d, lev); }
    assert (r * n) * d' == r * (n * d') && (r * n') * d == r * (n' * d);
    Cancel(m, m', q);
  }

  lemma Regroup(m: real, d: real, d': real, lev: real)
    ensures m * (d * d' * lev) == (m * (d * lev)) * d'
    ensures d * d' == d' * d
  {
  }

  // ---- Account unit

  /** Scaling equity, peak and realised PnL leaves the verdict alone and scales the size. */
  lemma VerdictIgnoresAccountUnit(e: Entry, k: real, keys: map<string, real>, clock: real)
    requires k > 0.0
    ensures Raises(ScaleAccount(e, k), keys, clock) == Raises(e, keys, clock)
    ensures !Raises(e, keys, clock) ==> var d, d' := Decide(e, keys, clock), Decide(ScaleAccount(e, k), keys, clock);
      && d.approved == d'.approved && d.reason == d'.reason
      && (d.approved ==> d'.qty == Some(Times(k, d.qty.value)) && d'.leverage == d.leverage)
  {
    hide Decide, GateReason, SameAnswer, Raises, Size, LiquidationCheck, Times;
    var f := ScaleAccount(e, k);
    LossGuardIgnoresUnit(e, k);
    SizeIgnoresAccountUnit(e, k);
    GatesAfterAccountScale(e, k, keys, clock);
    SameGatesSameVerdict(e, f, keys, clock);
    if !Raises(e, keys, clock) {
      ApprovedRecords(e, keys, clock);
      ApprovedRecords(f, keys, clock);
    }
  }

  lemma GatesAfterAccountScale(e: Entry, k: real, keys: map<string, real>, clock: real)
    requires CheckLossGuards(ScaleAccount(e, k).account, e.profile) == CheckLossGuards(e.account, e.profile)
    requires Size(ScaleAccount(e, k)).reject == Size(e).reject
    ensures forall g :: 1 <= g <= 10 ==> SameAnswer(e, ScaleAccount(e, k), keys, clock, g)
  {
    hide CheckLossGuards, Size, PassesMinDistance, EvPasses, Free, Times;
    var f := ScaleAccount(e, k);
    assert GateReason(e, keys, clock, 3) == GateReason(f, keys, clock, 3);
    assert GateReason(e, keys, clock, 4) == GateReason(f, keys, clock, 4);
  }

  lemma LossGuardIgnoresUnit(e: Entry, k: real)
    requires k > 0.0
    ensures CheckLossGuards(ScaleAccount(e, k).account, e.profile) == CheckLossGuards(e.account, e.profile)
  {
    var a := e.account;
    TimesKeepsOrder(k, a.peakEquity, a.equity);
    TimesKeepsOrder(k, a.equity, a.peakEquity);
    TimesKeepsOrder(k, a.dailyRealizedPnl, 0.0);
    TimesKeepsOrder(k, a.weeklyRealizedPnl, 0.0);
    hide Times, LossBps;
    if a.peakEquity > 0.0 {
      LossBpsScales(a.peakEquity - a.equity, a.peakEquity, k);
      LossBpsScales(-a.dailyRealizedPnl, a.peakEquity, k);
      LossBpsScales(-a.weeklyRealizedPnl, a.peakEquity, k);
    }
  }

  lemma SizeIgnoresAccountUnit(e: Entry, k: real)
    requires k > 0.0
    ensures var z, z' := Size(e), Size(ScaleAccount(e, k));
      z'.reject == z.reject && z'.leverage == z.leverage && (z.reject == OK ==> z'.qty == Times(k, z.qty))
  {
    var s, a, p, a' := e.signal, e.account, e.profile, ScaleAccount(e, k).account;
    TimesKeepsOrder(k, a.equity, 0.0);
    if StopDist(s) > 0.0 && a.equity > 0.0 && Leverage(s, p) > 0.0 {
      SameMargin(s, a, s, a', p);
      QtyScales(a.equity, p.maxRiskPerTradeBps, StopDist(s), k);
    }
    hide Times, AssetBps, RrFails, StopDist, Margin, Leverage, RawQty;
    SameViewSameReject(s, a, s, a', p);
  }

  lemma QtyScales(equity: real, risk: real, stop: real, k: real)
    requires stop > 0.0
    ensures RawQty(Times(k, equity), risk, stop) == Times(k, RawQty(equity, risk, stop))
  {
    var r := equity * (risk / BPS);
    assert (k * equity) * (risk / BPS) == k * r;
    assert k * (r / stop) * stop == k * r;
    Cancel((k * r) / stop, k * (r / stop), stop);
  }

  // ---- Price unit

  /**
   * Scaling all prices of the signal leaves the verdict alone and scales the size inversely,
   * under any key that is as free as the first.
   */
  lemma VerdictIgnoresPriceUnit(e: Entry, k: real, key: string, keys: map<string, real>, clock: real)
    requires k > 0.0 && Free(keys, key, clock) == Free(keys, e.signal.dedupHash, clock)
    ensures Raises(Rekey(ScalePrices(e, k), key), keys, clock) == Raises(e, keys, clock)
    ensures !Raises(e, keys, clock) ==>
      var d, d' := Decide(e, keys, clock), Decide(Rekey(ScalePrices(e, k), key), keys, clock);
      && d.approved == d'.approved && d.reason == d'.reason
      && (d.approved ==> d'.qty.value * k == d.qty.value && d'.leverage == d.leverage
                         && d'.liquidationDistanceBps == d.liquidationDistanceBps)
  {
    hide Decide, Size, LiquidationCheck, GateReason, Times, Raises, SameAnswer, ScaleSignal;
    var f := Rekey(ScalePrices(e, k), key);
    LiquidationIgnoresPriceUnit(e, k);
    SizeIgnoresPriceUnit(e, k);
    GatesIgnoreKey(ScalePrices(e, k), key);
    GatesAfterSignalChange(e, f, keys, clock);
    SameGatesSameVerdict(e, f, keys, clock);
    if !Raises(e, keys, clock) {
      ApprovedRecords(e, keys, clock);
      ApprovedRecords(f, keys, clock);
    }
  }

  /** Sizing and the liquidation gate do not read the key. */
  lemma GatesIgnoreKey(e: Entry, key: string)
    ensures Size(Rekey(e, key)) == Size(e) && LiquidationCheck(Rekey(e, key)) == LiquidationCheck(e)
  {
    hide RawQty, MarginBps, Margin, PassesMinDistance;
  }

  lemma GatesAfterSignalChange(e: Entry, f: Entry, keys: map<string, real>, clock: real)
    requires f == e.(signal := f.signal)
    requires Free(keys, f.signal.dedupHash, clock) == Free(keys, e.signal.dedupHash, clock)
    requires LiquidationCheck(f).0 == LiquidationCheck(e).0 && Size(f).reject == Size(e).reject
    ensures forall g :: 1 <= g <= 10 ==> SameAnswer(e, f, keys, clock, g)
  {
    hide CheckLossGuards, CheckExposureCaps, CheckCooldowns, CheckStalePrice, Size, LiquidationCheck, EvPasses, Free;
  }

  /** The distance gate sees only the leverage, if the entry stays on the same side of zero. */
  lemma DistanceNeedsOnlyLeverage(e: Entry, f: Entry)
    requires f.profile == e.profile && Leverage(f.signal, f.profile) == Leverage(e.signal, e.profile)
    requires e.signal.entry > 0.0 <==> f.signal.entry > 0.0
    ensures LiquidationCheck(f).0 == LiquidationCheck(e).0 && LiquidationCheck(f).2 == LiquidationCheck(e).2
  {
    var lev := Leverage(e.signal, e.profile);
    if e.signal.entry > 0.0 && lev > 0.0 {
      DistanceIsSideAndPriceFree(e.signal.side, e.signal.entry, lev, DEFAULT_MAINTENANCE_MARGIN_RATE);
      DistanceIsSideAndPriceFree(f.signal.side, f.signal.entry, lev, DEFAULT_MAINTENANCE_MARGIN_RATE);
      hide LiquidationPrice, LiquidationDistanceBps;
    } else {
      UnknownLiquidation(e);
      UnknownLiquidation(f);
    }
  }

  lemma UnknownLiquidation(e: Entry)
    requires e.signal.entry <= 0.0 || Leverage(e.signal, e.profile) <= 0.0
    ensures LiquidationCheck(e) == (false, None, None)
  {
  }

  lemma LiquidationIgnoresPriceUnit(e: Entry, k: real)
    requires k > 0.0
    ensures LiquidationCheck(ScalePrices(e, k)).0 == LiquidationCheck(e).0
    ensures LiquidationCheck(ScalePrices(e, k)).2 == LiquidationCheck(e).2
  {
    TimesKeepsOrder(k, e.signal.entry, 0.0);
    hide Times;
    DistanceNeedsOnlyLeverage(e, ScalePrices(e, k));
  }

  lemma SizeIgnoresPriceUnit(e: Entry, k: real)
    requires k > 0.0
    ensures var z, z' := Size(e), Size(ScalePrices(e, k));
      z'.reject == z.reject && z'.leverage == z.leverage && (z.reject == OK ==> z'.qty * k == z.qty)
  {
    var s, a, p, s' := e.signal, e.account, e.profile, ScaleSignal(e.signal, k);
    StopDistScales(s, k);
    if StopDist(s) > 0.0 {
      RrScales(s, p, k);
      if a.equity > 0.0 && Leverage(s, p) > 0.0 {
        CrossEntry(k, s.entry, StopDist(s));
        SameMargin(s, a, s', a, p);
        QtyShrinks(a.equity, p.maxRiskPerTradeBps, StopDist(s), k);
      }
    }
    hide Times, AssetBps, RrFails, StopDist, Margin, RawQty;
    SameViewSameReject(s, a, s', a, p);
  }

  lemma StopDistScales(s: Signal, k: real)
    requires k > 0.0
    ensures StopDist(ScaleSignal(s, k)) == Times(k, StopDist(s))
    ensures Times(k, StopDist(s)) > 0.0 <==> StopDist(s) > 0.0
  {
    TimesKeepsOrder(k, s.entry, s.stopLoss);
    TimesKeepsOrder(k, s.entry - s.stopLoss, 0.0);
    TimesKeepsOrder(k, Abs(s.entry - s.stopLoss), 0.0);
    hide Times;
  }

  lemma CrossEntry(k: real, n: real, d: real)
    ensures Times(k, n) * d == n * Times(k, d)
  {
  }

  lemma RrScales(s: Signal, p: RiskProfile, k: real)
    requires k > 0.0 && StopDist(s) > 0.0
    ensures StopDist(ScaleSignal(s, k)) > 0.0
    ensures RrFails(ScaleSignal(s, k), p) <==> RrFails(s, p)
  {
    StopDistScales(s, k);
    if |s.takeProfits| > 0 {
      TimesKeepsOrder(k, s.takeProfits[0], s.entry);
      TimesKeepsOrder(k, s.entry, s.takeProfits[0]);
      var t := TargetDistance(s);
      assert TargetDistance(ScaleSignal(s, k)) == Times(k, t) by { hide Times; }
      TimesKeepsOrder(k, t, 0.0);
      TimesKeepsRatio(k, t, StopDist(s));
    }
    hide Times, StopDist, TargetDistance;
  }

  lemma QtyShrinks(equity: real, risk: real, stop: real, k: real)
    requires stop > 0.0 && k > 0.0
    ensures Times(k, stop) > 0.0 && RawQty(equity, risk, Times(k, stop)) * k == RawQty(equity, risk, stop)
  {
    ScaleOrder(0.0, stop, k);
    var r := equity * (risk / BPS);
    var t := r / (k * stop);
    assert t * (k * stop) == r;
    assert t * k * stop == r;
    Cancel(t * k, r / stop, stop);
  }

  // ---- Direction

  /**
   * Mirroring the signal around its entry leaves verdict, size and distance alone, under any
   * key that is as free as the first.
   */
  lemma VerdictIgnoresDirection(e: Entry, key: string, keys: map<string, real>, clock: real)
    requires Free(keys, key, clock) == Free(keys, e.signal.dedupHash, clock)
    ensures Raises(Rekey(Mirror(e), key), keys, clock) == Raises(e, keys, clock)
    ensures !Raises(e, keys, clock) ==>
      var d, d' := Decide(e, keys, clock), Decide(Rekey(Mirror(e), key), keys, clock);
      && d.approved == d'.approved && d.reason == d'.reason
      && (d.approved ==> d'.qty == d.qty && d'.leverage == d.leverage
                         && d'.liquidationDistanceBps == d.liquidationDistanceBps)
  {
    hide Decide, Size, LiquidationCheck, GateReason, Raises, SameAnswer;
    var f := Rekey(Mirror(e), key);
    DistanceNeedsOnlyLeverage(e, Mirror(e));
    MirrorKeepsSize(e);
    GatesIgnoreKey(Mirror(e), key);
    GatesAfterSignalChange(e, f, keys, clock);
    SameGatesSameVerdict(e, f, keys, clock);
    if !Raises(e, keys, clock) {
      ApprovedRecords(e, keys, clock);
      ApprovedRecords(f, keys, clock);
    }
  }

  lemma MirrorKeepsSize(e: Entry)
    ensures Size(Mirror(e)) == Size(e)
  {
    hide RawQty, MarginBps, Margin;
    var s := e.signal;
    assert StopDist(Mirror(e).signal) == StopDist(s);
    if |s.takeProfits| > 0 {
      assert TargetDistance(Mirror(e).signal) == TargetDistance(s);
    }
  }
}
