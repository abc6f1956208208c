/** Breakeven stop and ratcheting protected-profit floor of an open position. */
module Protected {
  import opened Shared

  datatype Position = Position(side: Side, qty: real, entryPrice: real)

  datatype ProtectedState = ProtectedState(peakGainNet: real, protectedFloorNet: real)

  function GrossUnrealizedPnl(p: Position, mark: real): real {
    if p.side == Long then (mark - p.entryPrice) * p.qty else (p.entryPrice - mark) * p.qty
  }

  /** Net of the exit fee on the current notional and of the funding accrued so far. */
  function NetUnrealizedPnl(p: Position, mark: real, exitTakerBps: real, accruedFunding: real): real {
    GrossUnrealizedPnl(p, mark) - mark * p.qty * (exitTakerBps / BPS) - accruedFunding
  }

  /** The share of the peak that is not given back. */
  function Kept(peak: real, giveback: real): real { peak * (1.0 - giveback) }

  function AdvanceProtectedFloor(current: real, priorPeak: real, priorFloor: Option<real>, giveback: real)
    : (r: Result<ProtectedState>)
    ensures r.Ok? <==> 0.0 < giveback <= 1.0
    ensures r.Ok? ==> r.value.peakGainNet >= priorPeak && (priorFloor.Some? ==> r.value.protectedFloorNet >= priorFloor.value)
  {
    if giveback <= 0.0 || giveback > 1.0 then Err("giveback must be in (0, 1]")
    else
      var peak := Max(priorPeak, current);
      var candidate := Kept(peak, giveback);
      Ok(ProtectedState(peak, if priorFloor.None? then candidate else Max(priorFloor.value, candidate)))
  }

  predicate ShouldTriggerExit(current: real, floor: Option<real>) {
    floor.Some? && floor.value > 0.0 && current <= floor.value
  }

  function BreakevenStopPrice(p: Position, exitTakerBps: real): real {
    var buffer := p.entryPrice * (exitTakerBps / BPS);
    if p.side == Long then p.entryPrice + buffer else p.entryPrice - buffer
  }

  // ---- The ratchet over a run of ticks ---------------------------------------------------------

  /** One tick: the net PnL seen and the giveback configured at that moment. */
  datatype ProfitTick = ProfitTick(net: real, giveback: real)

  predicate ValidTicks(ts: seq<ProfitTick>) {
    forall i :: 0 <= i < |ts| ==> 0.0 < ts[i].giveback <= 1.0
  }

  /** Peak and floor after the first `k` ticks; before the first there is no floor. */
  function Ratchet(ts: seq<ProfitTick>, peak0: real, k: nat): (real, Option<real>)
    requires ValidTicks(ts) && k <= |ts|
  {
    if k == 0 then (peak0, None)
    else
      var (peak, floor) := Ratchet(ts, peak0, k - 1);
      var s := AdvanceProtectedFloor(ts[k - 1].net, peak, floor, ts[k - 1].giveback).value;
      (s.peakGainNet, Some(s.protectedFloorNet))
  }

  function PeakAt(ts: seq<ProfitTick>, peak0: real, k: nat): real
    requires ValidTicks(ts) && k <= |ts|
  {
    Ratchet(ts, peak0, k).0
  }

  function FloorAt(ts: seq<ProfitTick>, peak0: real, k: nat): real
    requires ValidTicks(ts) && 1 <= k <= |ts|
  {
    Ratchet(ts, peak0, k).1.value
  }

  /** The exit decision at tick `k`, taken with the floor that tick produced. */
  predicate ExitsAt(ts: seq<ProfitTick>, peak0: real, k: nat)
    requires ValidTicks(ts) && 1 <= k <= |ts|
  {
    ShouldTriggerExit(ts[k - 1].net, Ratchet(ts, peak0, k).1)
  }

  lemma KeptIsBelow(peak: real, g: real)
    requires 0.0 <= peak && 0.0 < g <= 1.0
    ensures 0.0 <= Kept(peak, g) <= peak && (peak > 0.0 ==> Kept(peak, g) < peak)
  {
    assert 0.0 <= peak * g && 0.0 <= peak * (1.0 - g);
    if peak > 0.0 { ScaleOrder(0.0, g, peak); }
  }

  lemma KeptIsShare(peak: real, g: real)
    ensures Kept(peak, g) == (1.0 - g) * peak
  {
  }

  lemma KeptGrows(p: real, q: real, g: real)
    requires p <= q && g <= 1.0
    ensures Kept(p, g) <= Kept(q, g)
  {
    ScaleBetween(p, q, q, 1.0 - g);
  }

  lemma RatchetStep(ts: seq<ProfitTick>, peak0: real, k: nat)
    requires ValidTicks(ts) && 1 <= k <= |ts|
    ensures PeakAt(ts, peak0, k) == Max(PeakAt(ts, peak0, k - 1), ts[k - 1].net)
    ensures var kept := Kept(PeakAt(ts, peak0, k), ts[k - 1].giveback);
      FloorAt(ts, peak0, k) == if k == 1 then kept else Max(FloorAt(ts, peak0, k - 1), kept)
  {
    hide Kept;
  }

  /** The peak is the running maximum of the start and every net PnL seen. */
  lemma {:induction false} PeakIsRunningMaximum(ts: seq<ProfitTick>, peak0: real, k: nat)
    requires ValidTicks(ts) && k <= |ts|
    ensures peak0 <= PeakAt(ts, peak0, k)
    ensures forall i :: 0 <= i < k ==> ts[i].net <= PeakAt(ts, peak0, k)
    ensures PeakAt(ts, peak0, k) == peak0 || exists i :: 0 <= i < k && ts[i].net == PeakAt(ts, peak0, k)
  {
    if k == 0 {
    } else {
      RatchetStep(ts, peak0, k);
      hide PeakAt;
      PeakIsRunningMaximum(ts, peak0, k - 1);
    }
  }

  /**
   * The floor never falls, even if the giveback changes from tick to tick; it is never
   * negative, never above the peak, and strictly below a positive peak.
   */
  lemma {:induction false} FloorOnlyRises(ts: seq<ProfitTick>, peak0: real, k: nat)
    requires ValidTicks(ts) && 1 <= k <= |ts| && 0.0 <= peak0
    ensures 0.0 <= FloorAt(ts, peak0, k) <= PeakAt(ts, peak0, k)
    ensures PeakAt(ts, peak0, k) > 0.0 ==> FloorAt(ts, peak0, k) < PeakAt(ts, peak0, k)
    ensures k >= 2 ==> FloorAt(ts, peak0, k - 1) <= FloorAt(ts, peak0, k)
  {
    RatchetStep(ts, peak0, k);
    hide PeakAt, FloorAt, Kept;
    PeakIsRunningMaximum(ts, peak0, k);
    KeptIsBelow(PeakAt(ts, peak0, k), ts[k - 1].giveback);
    if k == 1 {
    } else {
      FloorOnlyRises(ts, peak0, k - 1);
    }
  }

  /** With a constant giveback the floor is exactly that share of the peak. */
  lemma {:induction false} ConstantGivebackFloor(ts: seq<ProfitTick>, peak0: real, g: real, k: nat)
    requires ValidTicks(ts) && 1 <= k <= |ts| && 0.0 <= peak0
    requires forall i :: 0 <= i < |ts| ==> ts[i].giveback == g
    ensures FloorAt(ts, peak0, k) == (1.0 - g) * PeakAt(ts, peak0, k)
  {
    RatchetStep(ts, peak0, k);
    KeptIsShare(PeakAt(ts, peak0, k), g);
    hide PeakAt, FloorAt, Kept;
    if k == 1 {
    } else {
      KeptIsShare(PeakAt(ts, peak0, k - 1), g);
      ConstantGivebackFloor(ts, peak0, g, k - 1);
      KeptGrows(PeakAt(ts, peak0, k - 1), PeakAt(ts, peak0, k), g);
    }
  }

  /**
   * The exit fires exactly when the floor is positive and the net PnL is at or below it, and
   * never on a tick that sets a new peak.
   */
  lemma ExitRule(ts: seq<ProfitTick>, peak0: real, k: nat)
    requires ValidTicks(ts) && 1 <= k <= |ts| && 0.0 <= peak0
    ensures ExitsAt(ts, peak0, k) <==> 0.0 < FloorAt(ts, peak0, k) && ts[k - 1].net <= FloorAt(ts, peak0, k)
    ensures ts[k - 1].net > PeakAt(ts, peak0, k - 1) ==> !ExitsAt(ts, peak0, k)
  {
    PeakIsRunningMaximum(ts, peak0, k - 1);
    FloorOnlyRises(ts, peak0, k);
  }

  // ---- Breakeven -------------------------------------------------------------------------------

  /** Net is the move times the size, less the exit fee at the mark and the funding accrued. */
  lemma NetMeaning(p: Position, mark: real, exitTakerBps: real, accruedFunding: real)
    ensures var gain := if p.side == Short then p.entryPrice * p.qty - mark * p.qty else mark * p.qty - p.entryPrice * p.qty;
      (NetUnrealizedPnl(p, mark, exitTakerBps, accruedFunding) - gain + accruedFunding) * 10000.0
        == -(mark * p.qty * exitTakerBps)
  {
    var n, f := mark * p.qty, exitTakerBps / BPS;
    Distribute(mark, -p.entryPrice, p.qty);
    assert f * 10000.0 == exitTakerBps;
    assert n * f * 10000.0 == n * (f * 10000.0);
  }

  /**
   * At the breakeven stop the net PnL, before the funding accrued, is exactly -entry*qty*f^2 for a
   * long and +entry*qty*f^2 for a short, with f the exit fee fraction.
   */
  lemma NetAtBreakevenStop(p: Position, exitTakerBps: real, accruedFunding: real)
    ensures var f := exitTakerBps / 10000.0;
      NetUnrealizedPnl(p, BreakevenStopPrice(p, exitTakerBps), exitTakerBps, accruedFunding)
        == (if p.side == Long then -((p.entryPrice * f) * (p.qty * f)) else (p.entryPrice * f) * (p.qty * f)) - accruedFunding
  {
    BreakevenAlgebra(p.entryPrice, p.qty, exitTakerBps / BPS);
  }

  lemma BreakevenAlgebra(e: real, q: real, f: real)
    ensures ((e + e * f) - e) * q - (e + e * f) * q * f == -((e * f) * (q * f))
    ensures (e - (e - e * f)) * q - (e - e * f) * q * f == (e * f) * (q * f)
  {
    assert (e + e * f) * q * f == e * q * f + (e * f) * (q * f);
    assert (e - e * f) * q * f == e * q * f - (e * f) * (q * f);
  }

  /** So the stop nets zero, as its documentation says, if and only if the exit fee is zero. */
  lemma BreakevenIsExactIffNoFee(p: Position, exitTakerBps: real)
    requires p.entryPrice > 0.0 && p.qty > 0.0
    ensures NetUnrealizedPnl(p, BreakevenStopPrice(p, exitTakerBps), exitTakerBps, 0.0) == 0.0 <==> exitTakerBps == 0.0
  {
    var f := exitTakerBps / BPS;
    NetAtBreakevenStop(p, exitTakerBps, 0.0);
    SignOfProduct(p.entryPrice, f);
    SignOfProduct(p.qty, f);
    hide NetUnrealizedPnl, BreakevenStopPrice;
    ProductZero(p.entryPrice * f, p.qty * f);
  }

  lemma ProductZero(u: real, v: real)
    ensures u * v == 0.0 <==> u == 0.0 || v == 0.0
  {
  }
}
