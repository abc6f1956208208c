/** The funding rule that the backtester and the EV gate share. */
module Funding {
  import opened Shared

  /** Python's `int(x)`: truncation toward zero. */
  function Truncate(x: real): int {
    if x >= 0.0 then x.Floor else -((-x).Floor)
  }

  /** `int(raw)`, plus one if that cut something off. */
  function RoundedUp(raw: real): int {
    var whole := Truncate(raw);
    if raw > whole as real then whole + 1 else whole
  }

  function Cycles(heldHours: real, intervalHours: int): int
    requires intervalHours != 0
  {
    var whole := RoundedUp(heldHours / intervalHours as real);
    if whole == 0 then 1 else whole
  }

  lemma RoundedUpBrackets(raw: real)
    requires raw > 0.0
    ensures RoundedUp(raw) >= 1 && RoundedUp(raw) as real - 1.0 < raw <= RoundedUp(raw) as real
  {
  }

  /**
   * Any positive hold pays exactly ceil(hold / interval) cycles. The rounded count is never
   * zero, so the branch that raises it to one is never taken.
   */
  lemma CyclesAreTheCeiling(held: real, interval: int)
    requires held > 0.0 && interval > 0
    ensures RoundedUp(held / interval as real) >= 1
    ensures Cycles(held, interval) == RoundedUp(held / interval as real)
    ensures (Cycles(held, interval) as real - 1.0) * interval as real < held <= Cycles(held, interval) as real * interval as real
  {
    hide RoundedUp;
    var n := interval as real;
    var raw := held / n;
    assert raw * n == held;
    ScaleOrder(0.0, raw, n);
    RoundedUpBrackets(raw);
    var c := RoundedUp(raw);
    assert Cycles(held, interval) == c;
    CeilingScaled(c as real - 1.0, raw, c as real, n);
    assert (Cycles(held, interval) as real - 1.0) * n < held;
    assert held <= Cycles(held, interval) as real * n;
  }

  lemma CeilingScaled(lo: real, raw: real, hi: real, n: real)
    requires n > 0.0 && lo < raw <= hi
    ensures lo * n < raw * n <= hi * n
  {
    ScaleOrder(lo, raw, n);
    ScaleOrder(raw, hi, n);
  }

  /**
   * "Full intervals crossed", as the header of `fills.py` puts it, and the ceiling that is charged
   * agree exactly on holds that are a whole number of intervals.
   */
  lemma CeilingIsFullIntervalsIffWhole(held: real, interval: int)
    requires held > 0.0 && interval > 0
    ensures var full := (held / interval as real).Floor;
      Cycles(held, interval) == full <==> held == full as real * interval as real
  {
    CyclesAreTheCeiling(held, interval);
    var n := interval as real;
    var raw := held / n;
    var full := raw.Floor;
    assert raw * n == held;
    ScaleOrder(0.0, raw, n);
    hide Cycles;
    if held == full as real * n { Cancel(raw, full as real, n); }
    if raw == full as real {
      assert RoundedUp(raw) == full;
    } else {
      assert RoundedUp(raw) == full + 1;
    }
  }

  /** One hour at an eight-hour interval crosses no full interval and pays one cycle. */
  lemma ShortHoldPaysOneCycle()
    ensures (1.0 / 8.0).Floor == 0 && Cycles(1.0, 8) == 1
  {
  }

  /**
   * Where the branch that raises zero to one is taken: for a positive hold it needs a negative
   * interval longer than the hold.
   */
  lemma ZeroBranchIffLongNegativeInterval(held: real, interval: int)
    requires held > 0.0 && interval != 0
    ensures RoundedUp(held / interval as real) == 0 <==> interval < 0 && held < -(interval as real)
    ensures interval < 0 && held < -(interval as real) ==> Cycles(held, interval) == 1
  {
    if interval > 0 {
      CyclesAreTheCeiling(held, interval);
    } else {
      assert held / interval as real * interval as real == held;
      NegativeQuotient(held, interval as real, held / interval as real);
      RoundedUpBelowZero(held / interval as real);
    }
    hide RoundedUp;
  }

  lemma NegativeQuotient(x: real, n: real, q: real)
    requires x > 0.0 && n < 0.0 && q * n == x
    ensures q < 0.0 && (-q < 1.0 <==> x < -n)
  {
    assert (-q) * (-n) == x;
    PositiveQuotient(x, -n, -q);
  }

  lemma PositiveQuotient(x: real, n: real, q: real)
    requires n > 0.0 && q * n == x
    ensures (q > 0.0 <==> x > 0.0) && (q < 1.0 <==> x < n)
  {
    SignOfScaled(q, n, x);
    GapScaled(q, n, x);
  }

  lemma SignOfScaled(g: real, n: real, d: real)
    requires n > 0.0 && g * n == d
    ensures g > 0.0 <==> d > 0.0
  {
    if g > 0.0 {
      assert g * n > 0.0;
    } else {
      assert g * n <= 0.0;
    }
  }

  lemma GapScaled(q: real, n: real, x: real)
    requires n > 0.0 && q * n == x
    ensures q < 1.0 <==> x < n
  {
    var g := 1.0 - q;
    assert g * n == n - q * n;
    SignOfScaled(g, n, n - x);
  }

  lemma RoundedUpBelowZero(raw: real)
    requires raw < 0.0
    ensures RoundedUp(raw) == 0 <==> -raw < 1.0
  {
  }

  /** Splitting a hold never makes funding cheaper. */
  lemma CyclesSubadditive(h1: real, h2: real, interval: int)
    requires h1 > 0.0 && h2 > 0.0 && interval > 0
    ensures Cycles(h1 + h2, interval) <= Cycles(h1, interval) + Cycles(h2, interval)
  {
    hide Cycles, RoundedUp;
    CyclesAreTheCeiling(h1, interval);
    CyclesAreTheCeiling(h2, interval);
    CyclesAreTheCeiling(h1 + h2, interval);
    CeilingsAdd(interval as real, h1, h2, Cycles(h1, interval) as real, Cycles(h2, interval) as real,
                Cycles(h1 + h2, interval) as real);
  }

  lemma CeilingsAdd(n: real, h1: real, h2: real, a: real, b: real, c: real)
    requires n > 0.0 && h1 <= a * n && h2 <= b * n && (c - 1.0) * n < h1 + h2
    ensures c - 1.0 < a + b
  {
    Distribute(a, b, n);
    ScaleOrder(c - 1.0, a + b, n);
  }
}

/** The conservative fill simulator: every cost moves against the trader. */
module Fills {
  import opened Shared
  import opened Funding

  datatype FillModel = FillModel(fees: FeeSchedule, spreadBps: real, slippageBps: real, takerBothSides: bool,
                                 fundingRate: real, fundingIntervalHours: int)
  {
    /** Half the spread plus the slippage, as a fraction of the price. */
    function CostFraction(): real { (spreadBps / 2.0 + slippageBps) / BPS }

    function EntryFeeBps(): real { if takerBothSides then fees.takerBps else fees.makerBps }

    /** The program divides by the interval only when funding is charged. */
    predicate Usable() { fundingRate == 0.0 || fundingIntervalHours != 0 }

    predicate NonNegativeCosts() {
      && 0.0 <= fees.takerBps && 0.0 <= fees.makerBps && 0.0 <= spreadBps && 0.0 <= slippageBps
      && CostFraction() <= 1.0 && 0.0 <= fundingRate && 0 < fundingIntervalHours
    }
  }

  /** The source's fourth tag, a time stop, is never produced. */
  datatype ExitReason = TakeProfit | StopLoss | ForcedClose

  datatype SimulatedTrade = SimulatedTrade(pair: string, side: Side, qty: real, entryPrice: real, exitPrice: real,
                                           entryFee: real, exitFee: real, fundingPaid: real, slippageCost: real,
                                           openedAt: int, closedAt: int, exitReason: ExitReason)
  {
    function GrossPnl(): real {
      if side == Long then (exitPrice - entryPrice) * qty else (entryPrice - exitPrice) * qty
    }

    function TotalFees(): real { entryFee + exitFee }

    function NetPnl(): real { GrossPnl() - TotalFees() - fundingPaid }

    function EntryNotional(): real { entryPrice * qty }

    function NetPnlBps(): real {
      if EntryNotional() > 0.0 then NetPnl() / EntryNotional() * BPS else 0.0
    }
  }

  function EntryPrice(reference: real, m: FillModel, side: Side): real {
    var delta := reference * m.CostFraction();
    if side == Long then reference + delta else reference - delta
  }

  /** Leaving a long sells, leaving a short buys. */
  function ExitPrice(reference: real, m: FillModel, side: Side): real {
    var delta := reference * m.CostFraction();
    if side == Long then reference - delta else reference + delta
  }

  function Fee(price: real, qty: real, feeBps: real): real { price * qty * (feeBps / BPS) }

  function FundingPaid(notional: real, heldHours: real, m: FillModel): real
    requires m.Usable()
  {
    if m.fundingRate == 0.0 || heldHours <= 0.0 || notional <= 0.0 then 0.0
    else notional * m.fundingRate * Cycles(heldHours, m.fundingIntervalHours) as real
  }

  // ---- Results, written out -------------------------------------------------------------------

  /** Net is the price move times the size, less both fees and the funding. */
  lemma NetWrittenOut(t: SimulatedTrade)
    ensures t.side == Long ==> t.NetPnl() == t.exitPrice * t.qty - t.entryPrice * t.qty - t.entryFee - t.exitFee - t.fundingPaid
    ensures t.side == Short ==> t.NetPnl() == t.entryPrice * t.qty - t.exitPrice * t.qty - t.entryFee - t.exitFee - t.fundingPaid
  {
    Distribute(t.exitPrice, -t.entryPrice, t.qty);
  }

  /** The net result of a trade per unit of money it moved, in bps; 0 if it moved none. */
  function NetShare(t: SimulatedTrade): real {
    var spent, got := t.entryPrice * t.qty, t.exitPrice * t.qty;
    var kept := (if t.side == Short then spent - got else got - spent) - (t.entryFee + t.exitFee + t.fundingPaid);
    if spent <= 0.0 then 0.0 else 10000.0 * kept / spent
  }

  lemma NetBpsIsNetShare(t: SimulatedTrade)
    ensures t.NetPnlBps() == NetShare(t)
    ensures t.entryPrice * t.qty > 0.0 ==> t.NetPnlBps() * (t.entryPrice * t.qty) == t.NetPnl() * 10000.0
  {
    NetWrittenOut(t);
    var n := t.entryPrice * t.qty;
    if n > 0.0 { BpsOfWhole(t.NetPnl(), n); }
  }

  lemma BpsOfWhole(x: real, n: real)
    requires n > 0.0
    ensures x / n * BPS == 10000.0 * x / n && x / n * BPS * n == x * 10000.0
  {
    var q := x / n;
    assert q * n == x;
    assert q * BPS * n == 10000.0 * x;
    Cancel(q * BPS, 10000.0 * x / n, n);
  }

  /** For a non-negative rate the charge is at least pro rata to the time held. */
  lemma FundingAtLeastProRata(notional: real, held: real, m: FillModel)
    requires 0.0 < notional && 0.0 < held && 0.0 <= m.fundingRate && 0 < m.fundingIntervalHours
    ensures FundingPaid(notional, held, m) * m.fundingIntervalHours as real >= notional * m.fundingRate * held
  {
    CyclesAreTheCeiling(held, m.fundingIntervalHours);
    var n, c := m.fundingIntervalHours as real, Cycles(held, m.fundingIntervalHours) as real;
    var x := notional * m.fundingRate;
    assert x >= 0.0;
    ScaleBetween(held, c * n, c * n, x);
    assert x * c * n == x * (c * n);
  }

  /** ... and splitting a hold in two never lowers it. */
  lemma FundingSubadditive(notional: real, h1: real, h2: real, m: FillModel)
    requires 0.0 < notional && 0.0 < h1 && 0.0 < h2 && 0.0 <= m.fundingRate && 0 < m.fundingIntervalHours
    ensures FundingPaid(notional, h1 + h2, m) <= FundingPaid(notional, h1, m) + FundingPaid(notional, h2, m)
  {
    hide Cycles, FundingPaid;
    CyclesSubadditive(h1, h2, m.fundingIntervalHours);
    assert notional * m.fundingRate >= 0.0;
    var n := m.fundingIntervalHours;
    FundingIsRateTimesCycles(notional, h1, m);
    FundingIsRateTimesCycles(notional, h2, m);
    FundingIsRateTimesCycles(notional, h1 + h2, m);
    ScaleSubadditive(notional * m.fundingRate, Cycles(h1, n) as real, Cycles(h2, n) as real, Cycles(h1 + h2, n) as real);
  }

  lemma FundingIsRateTimesCycles(notional: real, held: real, m: FillModel)
    requires 0.0 < notional && 0.0 < held && 0 < m.fundingIntervalHours
    ensures FundingPaid(notional, held, m) == (notional * m.fundingRate) * Cycles(held, m.fundingIntervalHours) as real
  {
    hide Cycles;
    if m.fundingRate == 0.0 {
      assert notional * m.fundingRate == 0.0;
    }
  }

  lemma ScaleSubadditive(x: real, a: real, b: real, c: real)
    requires 0.0 <= x && c <= a + b
    ensures x * c <= x * a + x * b
  {
    ScaleBetween(c, a + b, a + b, x);
  }
}
