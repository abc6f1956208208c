/** The final authority on every entry: ten ordered gates, the last of which claims the key. */
module RiskEngine {
  import opened Shared
  import opened RiskTypes
  import opened Guards
  import opened Liquidation
  import opened Sizing
  import opened Ev
  import opened Idempotency

  const IDEMPOTENCY_TTL_SECONDS := 60
  const DIVISION_BY_ZERO := "division by zero"

  /** Everything the engine is asked about one entry, except the claim map. */
  datatype Entry = Entry(signal: Signal, account: AccountState, profile: RiskProfile, ev: EvInputs,
                         stats: Option<StrategyStats>, mode: Mode, now: real)
  {
    /** Gate 9 has an answer: statistics are missing, or the costs can be computed. */
    predicate Computable() { StatsUnknown(stats) || ev.Usable() }
  }

  datatype TradeDecision = TradeDecision(mode: Mode, approved: bool, reason: RejectReason,
                                         orderType: Option<OrderType>, qty: Option<real>, entry: Option<real>,
                                         stopLoss: Option<real>, takeProfits: seq<real>, leverage: Option<real>,
                                         evNetBps: Option<real>, liquidationPrice: Option<real>,
                                         liquidationDistanceBps: Option<real>, feesRoundTripBps: Option<real>,
                                         idempotencyKey: string, decidedAt: real)

  function ReasonText(r: RejectReason): string {
    match r
    case OK => "ok"
    case ACCOUNT_PROTECTION_LOCK => "account_protection_lock"
    case PAPER_GATE_UNMET => "paper_gate_unmet"
    case STALE_PRICE => "stale_price"
    case CONNECTOR_FAILURE => "connector_failure"
    case DAILY_LOSS_LIMIT => "daily_loss_limit"
    case WEEKLY_LOSS_LIMIT => "weekly_loss_limit"
    case DRAWDOWN_LIMIT => "drawdown_limit"
    case MAX_OPEN_POSITIONS => "max_open_positions"
    case MAX_TRADES_PER_HOUR => "max_trades_per_hour"
    case MAX_EXPOSURE_PER_ASSET => "max_exposure_per_asset"
    case MAX_TOTAL_EXPOSURE => "max_total_exposure"
    case COOLDOWN_AFTER_LOSS => "cooldown_after_loss"
    case COOLDOWN_AFTER_VOLATILITY => "cooldown_after_volatility"
    case SIZE_BELOW_MIN => "size_below_min"
    case SIZE_RISK_UNREACHABLE => "size_risk_unreachable"
    case MAX_LEVERAGE_EXCEEDED => "max_leverage_exceeded"
    case LIQUIDATION_TOO_CLOSE => "liquidation_too_close"
    case EV_NEGATIVE_AFTER_COSTS => "ev_negative_after_costs"
    case EV_STATS_UNKNOWN => "ev_stats_unknown"
    case MIN_RR_NOT_MET => "min_rr_not_met"
    case MIN_LIQUIDITY_NOT_MET => "min_liquidity_not_met"
    case DUPLICATE_SIGNAL => "duplicate_signal"
    case INVALID_SIGNAL => "invalid_signal"
  }

  // ---- The gates, one by one ----------------------------------------------------------------

  function LiquidationCheck(e: Entry): (bool, Option<real>, Option<real>) {
    PassesMinDistance(e.signal.side, e.signal.entry, Leverage(e.signal, e.profile), e.profile.minLiquidationDistanceBps,
                      DEFAULT_MAINTENANCE_MARGIN_RATE)
  }

  function Size(e: Entry): SizeIntent { SizePosition(e.signal, e.account, e.profile, 0.0) }

  function EvCheck(e: Entry): (bool, RejectReason, Option<real>)
    requires e.Computable()
  {
    EvPasses(e.stats, e.ev, e.mode, e.profile.minExpectedProfitAfterFeesBps)
  }

  /** What gate `g` answers; `OK` lets the entry through. */
  function GateReason(e: Entry, keys: map<string, real>, clock: real, g: int): RejectReason
    requires g == 9 ==> e.Computable()
  {
    if g == 1 then CheckAccountLock(e.account)
    else if g == 2 then CheckPaperGate(e.account, e.mode)
    else if g == 3 then CheckStalePrice(e.account, e.now, e.profile.stalePriceMaxSeconds)
    else if g == 4 then CheckCooldowns(e.account, e.profile, e.now)
    else if g == 5 then CheckLossGuards(e.account, e.profile)
    else if g == 6 then CheckExposureCaps(e.account, e.profile)
    else if g == 7 then (if LiquidationCheck(e).0 then OK else LIQUIDATION_TOO_CLOSE)
    else if g == 8 then Size(e).reject
    else if g == 9 then (if EvCheck(e).0 then OK else EvCheck(e).1)
    else if Free(keys, e.signal.dedupHash, clock) then OK else DUPLICATE_SIGNAL
  }

  /** Gate `g` rejects, or cannot be evaluated. */
  predicate Stops(e: Entry, keys: map<string, real>, clock: real, g: int) {
    (g == 9 && !e.Computable()) || GateReason(e, keys, clock, g) != OK
  }

  /** The first gate from `g` on that stops the entry; 11 if none does. */
  function FirstFailingFrom(e: Entry, keys: map<string, real>, clock: real, g: int): (f: int)
    requires 1 <= g <= 11
    ensures g <= f <= 11
    ensures forall h :: g <= h < f ==> !Stops(e, keys, clock, h)
    ensures f <= 10 ==> Stops(e, keys, clock, f)
    decreases 11 - g
  {
    if g == 11 || Stops(e, keys, clock, g) then g else FirstFailingFrom(e, keys, clock, g + 1)
  }

  function FirstFailing(e: Entry, keys: map<string, real>, clock: real): int {
    FirstFailingFrom(e, keys, clock, 1)
  }

  /** The entry reaches gate 9 and its costs divide by a zero funding interval. */
  predicate Raises(e: Entry, keys: map<string, real>, clock: real) {
    FirstFailing(e, keys, clock) == 9 && !e.Computable()
  }

  function Rejection(e: Entry, reason: RejectReason, ev: Option<real>, liq: Option<real>, dist: Option<real>)
    : TradeDecision
  {
    TradeDecision(e.mode, false, reason, None, None, None, None, [], None, ev, liq, dist, None,
                  DedupHash([e.signal.dedupHash, ReasonText(reason)]), e.now)
  }

  function ApprovedDecision(e: Entry): TradeDecision
    requires e.Computable()
  {
    var (_, liq, dist) := LiquidationCheck(e);
    TradeDecision(e.mode, true, OK, Some(Market), Some(Size(e).qty), Some(e.signal.entry), Some(e.signal.stopLoss),
                  e.signal.takeProfits, Some(Size(e).leverage), EvCheck(e).2, liq, dist,
                  Some(RoundTripFeesBps(e.ev)), e.signal.dedupHash, e.now)
  }

  /** The decision is settled by the first gate that rejects, and records what was known there. */
  function Decide(e: Entry, keys: map<string, real>, clock: real): TradeDecision
    requires !Raises(e, keys, clock)
  {
    var g := FirstFailing(e, keys, clock);
    if g == 11 then
      assert !Stops(e, keys, clock, 9);
      ApprovedDecision(e)
    else
      var (_, liq, dist) := LiquidationCheck(e);
      var reason := GateReason(e, keys, clock, g);
      if g <= 6 || g == 10 then Rejection(e, reason, None, None, None)
      else Rejection(e, reason, if g == 9 then EvCheck(e).2 else None, liq, dist)
  }

  lemma EvReasonIsNotOk(e: Entry)
    requires e.Computable()
    ensures !EvCheck(e).0 ==> EvCheck(e).1 != OK
  {
  }

  /** If the gates before `f` pass and `f` does not (or is past the end), `f` is the first. */
  lemma FailsAt(e: Entry, keys: map<string, real>, clock: real, f: int)
    requires 1 <= f <= 11
    requires forall h :: 1 <= h < f ==> !Stops(e, keys, clock, h)
    requires f <= 10 ==> Stops(e, keys, clock, f)
    ensures FirstFailing(e, keys, clock) == f
  {
    FailsAtFrom(e, keys, clock, 1, f);
  }

  lemma {:induction false} FailsAtFrom(e: Entry, keys: map<string, real>, clock: real, g: int, f: int)
    requires 1 <= g <= f <= 11
    requires forall h :: g <= h < f ==> !Stops(e, keys, clock, h)
    requires f <= 10 ==> Stops(e, keys, clock, f)
    ensures FirstFailingFrom(e, keys, clock, g) == f
    decreases f - g
  {
    hide Stops;
    if g == f {
    } else {
      FailsAtFrom(e, keys, clock, g + 1, f);
    }
  }

  /**
   * `authorize_new_entry`: the gates in order, stopping at the first that rejects, or raising
   * at gate 9. The claim map changes only on approval, and then only at the signal's key.
   */
  method AuthorizeNewEntry(e: Entry, store: InMemoryIdempotencyStore, clock: real) returns (r: Result<TradeDecision>)
    modifies store
    ensures Raises(e, old(store.keys), clock) ==> r == Err(DIVISION_BY_ZERO) && store.keys == old(store.keys)
    ensures !Raises(e, old(store.keys), clock) ==>
      var d := Decide(e, old(store.keys), clock);
      && r == Ok(d)
      && store.keys == if d.approved
                       then old(store.keys)[e.signal.dedupHash := clock + 60.0]
                       else old(store.keys)
  {
    hide CheckLossGuards, CheckCooldowns, CheckExposureCaps, CheckStalePrice, PassesMinDistance, SizePosition, EvPasses;
    var keys := store.keys;
    var reason := CheckAccountLock(e.account);
    if reason != OK {
      assert FirstFailing(e, keys, clock) == 1;
      return Ok(Rejection(e, reason, None, None, None));
    }
    reason := CheckPaperGate(e.account, e.mode);
    if reason != OK {
      FailsAt(e, keys, clock, 2);
      return Ok(Rejection(e, reason, None, None, None));
    }
    reason := CheckStalePrice(e.account, e.now, e.profile.stalePriceMaxSeconds);
    if reason != OK {
      FailsAt(e, keys, clock, 3);
      return Ok(Rejection(e, reason, None, None, None));
    }
    reason := CheckCooldowns(e.account, e.profile, e.now);
    if reason != OK {
      FailsAt(e, keys, clock, 4);
      return Ok(Rejection(e, reason, None, None, None));
    }
    reason := CheckLossGuards(e.account, e.profile);
    if reason != OK {
      FailsAt(e, keys, clock, 5);
      return Ok(Rejection(e, reason, None, None, None));
    }
    reason := CheckExposureCaps(e.account, e.profile);
    if reason != OK {
      FailsAt(e, keys, clock, 6);
      return Ok(Rejection(e, reason, None, None, None));
    }
    var (liqOk, liqPrice, liqDist) := LiquidationCheck(e);
    if !liqOk {
      FailsAt(e, keys, clock, 7);
      return Ok(Rejection(e, LIQUIDATION_TOO_CLOSE, None, liqPrice, liqDist));
    }
    var size := Size(e);
    if !size.Approved() {
      FailsAt(e, keys, clock, 8);
      return Ok(Rejection(e, size.reject, None, liqPrice, liqDist));
    }
    if !e.Computable() {
      FailsAt(e, keys, clock, 9);
      return Err(DIVISION_BY_ZERO);
    }
    var (evOk, evReason, evBps) := EvCheck(e);
    if !evOk {
      EvReasonIsNotOk(e);
      FailsAt(e, keys, clock, 9);
      return Ok(Rejection(e, evReason, evBps, liqPrice, liqDist));
    }
    var acquired := store.TryAcquire(e.signal.dedupHash, IDEMPOTENCY_TTL_SECONDS, clock);
    if !acquired {
      FailsAt(e, keys, clock, 10);
      return Ok(Rejection(e, DUPLICATE_SIGNAL, None, None, None));
    }
    FailsAt(e, keys, clock, 11);
    r := Ok(ApprovedDecision(e));
  }
}
