/** Where every order at the venue comes from, over every run. */
module ApprovalProvenance {
  import opened Shared
  import opened RiskTypes
  import opened RiskEngine
  import opened RiskProperties
  import opened Sizing
  import opened Store
  import opened Executor
  import opened Approvals
  import opened ApprovalSafety
  import opened ApprovalLedger

  // ---- Mode: full auto is unreachable, semi-auto implies the paper gate -----------------------

  predicate ModesAreSafe(st: State) {
    forall u :: u in st.mode ==> st.mode[u].mode != FullAuto && (st.mode[u].mode == SemiAuto ==> st.mode[u].liveUnlocked)
  }

  lemma StepKeepsModes(s: System, c: Call, answer: VenueAnswer)
    ensures Next(s, c, answer).0.store.mode == s.store.mode
  {
    hide Find, RequestOf, ShouldExecute, Connected, HasQty;
  }

  lemma ApplyKeepsModes(w: World, ev: Event)
    requires ModesAreSafe(w.sys.store)
    ensures ModesAreSafe(Apply(w, ev).sys.store)
  {
    match ev
    case Step(r, answer) =>
      if r < |w.calls| { StepKeepsModes(w.sys, w.calls[r], answer); }
      hide Next;
    case _ => hide RiskEngine.Decide, Find, RowFor;
  }

  /** In every reachable state nobody is in full auto, and semi-auto means the paper gate was met. */
  lemma {:induction false} FullAutoIsUnreachable(events: seq<Event>, user: UserId)
    ensures var m := ModeOf(Run(events).sys.store, user); m.mode != FullAuto && (m.mode == SemiAuto ==> m.liveUnlocked)
  {
    ModesStaySafe(events);
    hide Run;
  }

  lemma {:induction false} ModesStaySafe(events: seq<Event>)
    ensures ModesAreSafe(Run(events).sys.store)
  {
    if events == [] {
    } else {
      ModesStaySafe(events[..|events| - 1]);
      hide ModesAreSafe;
      ApplyKeepsModes(Run(events[..|events| - 1]), events[|events| - 1]);
    }
  }

  // ---- Every queued entry was authorized -------------------------------------------------------

  /** One answer of the risk engine: what it was asked, and its claim map and clock then. */
  datatype Ruling = Ruling(entry: Entry, keys: map<string, real>, clock: real)
  {
    predicate Approved() {
      !Raises(entry, keys, clock) && entry.mode == SemiAuto && RiskEngine.Decide(entry, keys, clock).approved
    }

    function Decision(): TradeDecision
      requires !Raises(entry, keys, clock)
    {
      RiskEngine.Decide(entry, keys, clock)
    }
  }

  predicate Carries(row: Approval, ruling: Ruling) {
    ruling.Approved() && SameEntry(row, RowFor(row.id, row.user, ruling.entry.signal, ruling.Decision()))
  }

  /** Event `k` of the run queued this row, for its user and at its position, on this ruling. */
  predicate RuledAt(events: seq<Event>, k: nat, row: Approval, ruling: Ruling) {
    && k < |events| && events[k] == Event.Queue(row.user, ruling.entry, ruling.keys, ruling.clock)
    && |Run(events[..k]).sys.store.approvals| == row.id && Carries(row, ruling)
  }

  lemma RuledOnPrefix(events: seq<Event>, m: nat, k: nat, row: Approval, ruling: Ruling)
    requires m <= |events| && RuledAt(events[..m], k, row, ruling)
    ensures k < m && RuledAt(events, k, row, ruling)
  {
    hide Run, Carries;
    assert events[..m][..k] == events[..k];
  }

  lemma SameEntrySameRuling(a: Approval, b: Approval, ruling: Ruling)
    requires SameEntry(a, b) && Carries(b, ruling)
    ensures Carries(a, ruling) && a.id == b.id && a.user == b.user
  {
    hide RiskEngine.Decide, Raises;
  }

  /** Only the queue event adds a row, and the row carries the terms of that event's ruling. */
  lemma OnlyQueueAddsRows(w: World, ev: Event)
    requires IdsArePositions(w.sys.store) && |Apply(w, ev).sys.store.approvals| > |w.sys.store.approvals|
    ensures ev.Queue? && |Apply(w, ev).sys.store.approvals| == |w.sys.store.approvals| + 1
    ensures var row := Apply(w, ev).sys.store.approvals[|w.sys.store.approvals|];
      row.id == |w.sys.store.approvals| && row.user == ev.user && Carries(row, Ruling(ev.entry, ev.scanKeys, ev.scanClock))
  {
    hide RiskEngine.Decide, Raises;
    match ev
    case Queue(_, _, _, _) =>
    case Step(r, answer) =>
      if r < |w.calls| { StepAddsNoRow(w.sys, w.calls[r], answer); }
      hide Next;
      assert false;
    case _ =>
  }

  lemma StepAddsNoRow(s: System, c: Call, answer: VenueAnswer)
    ensures |Next(s, c, answer).0.store.approvals| == |s.store.approvals|
  {
    hide Find, RequestOf, ShouldExecute, Connected, TradeRowOf, OrderRowOf, AuditRowOf;
  }

  /** Every row of the queue was put there by a decision taken in this run. */
  lemma {:induction false} QueueIsAuthorized(events: seq<Event>, i: nat) returns (k: nat, ruling: Ruling)
    requires i < |Run(events).sys.store.approvals|
    ensures RuledAt(events, k, Run(events).sys.store.approvals[i], ruling)
  {
    hide Apply, Carries, SameEntry;
    var n := |events| - 1;
    var init, ev := events[..n], events[n];
    var w := Run(init);
    InvariantHolds(init);
    assert events == init + [ev];
    RunAppend(init, ev);
    ApplyMovesForward(w, ev);
    var a, b := w.sys.store.approvals, Run(events).sys.store.approvals;
    hide Run;
    if i < |a| {
      k, ruling := QueueIsAuthorized(init, i);
      RuledOnPrefix(events, n, k, a[i], ruling);
      SameEntrySameRuling(b[i], a[i], ruling);
    } else {
      OnlyQueueAddsRows(w, ev);
      k, ruling := n, Ruling(ev.entry, ev.scanKeys, ev.scanClock);
    }
  }

  // ---- From decision to row to order: nothing is lost --------------------------------------------

  /**
   * Storing an approved decision as a queue row and rebuilding the order from that row gives
   * exactly the order the engine would build from the decision itself.
   */
  lemma RowRoundTrip(row: Approval, ruling: Ruling)
    requires Carries(row, ruling)
    ensures HasQty(row)
    ensures OrderRequestFromDecision(ruling.Decision(), ruling.entry.signal.pair, ruling.entry.signal.side) == Ok(RequestOf(row))
  {
    var e := ruling.entry;
    ApprovedRecords(e, ruling.keys, ruling.clock);
    ApprovedShape(e, ruling.keys, ruling.clock);
    ApprovedSizeRisksExactly(e.signal, e.account, e.profile, 0.0);
    ApprovedSizeFitsCaps(e.signal, e.account, e.profile, 0.0);
    hide RiskEngine.Decide, SizePosition, LiquidationCheck;
  }

  lemma ApprovedShape(e: Entry, keys: map<string, real>, clock: real)
    requires !Raises(e, keys, clock)
    ensures var d := RiskEngine.Decide(e, keys, clock);
      d.approved ==>
        && d.orderType == Some(Market) && d.stopLoss == Some(e.signal.stopLoss) && d.takeProfits == e.signal.takeProfits
        && d.idempotencyKey == e.signal.dedupHash && d.mode == e.mode
  {
    hide FirstFailing, GateReason, LiquidationCheck, RiskEngine.Size, EvCheck;
  }

  /** What the ruling's entry looks like at the venue. */
  predicate OrderOf(req: OrderRequest, ruling: Ruling) {
    var e := ruling.entry;
    && ruling.Approved()
    && (forall g :: 1 <= g <= 10 ==> GateHolds(e, ruling.keys, ruling.clock, g))
    && OrderRequestFromDecision(ruling.Decision(), e.signal.pair, e.signal.side) == Ok(req)
    && req.pair == e.signal.pair && req.side == e.signal.side && req.orderType == Market && !req.reduceOnly
    && req.qty > 0.0 && req.qty * RiskPerUnit(e) * 10000.0 == e.account.equity * e.profile.maxRiskPerTradeBps
    && req.leverage == Some(CappedLeverage(e)) && req.idempotencyKey == e.signal.dedupHash
    && req.stopLossPrice == Some(e.signal.stopLoss)
    && req.takeProfitPrice == if e.signal.takeProfits == [] then None else Some(e.signal.takeProfits[0])
  }

  lemma RowGivesOrder(row: Approval, ruling: Ruling)
    requires Carries(row, ruling)
    ensures HasQty(row) && OrderOf(RequestOf(row), ruling)
  {
    hide RiskEngine.Decide, GateHolds, RiskPerUnit, CappedLeverage, LiquidationRecorded, EdgeAfterCosts, Raises;
    var e := ruling.entry;
    RowRoundTrip(row, ruling);
    ApprovesIffAllGatesHold(e, ruling.keys, ruling.clock);
    ApprovedMeaning(e, ruling.keys, ruling.clock);
  }

  // ---- Status and mode were really read, before the send -------------------------------------------

  /** At event `k` request `r` found `row` pending in the queue of its own user. */
  predicate ReadStatusAt(events: seq<Event>, r: nat, k: nat, row: Approval) {
    && k < |events| && events[k].Step? && events[k].call == r
    && var w := Run(events[..k]);
      && r < |w.calls| && w.calls[r].phase == ReadStatus && w.calls[r].user == row.user && w.calls[r].approvalId == row.id
      && row.id < |w.sys.store.approvals| && w.sys.store.approvals[row.id] == row && row.status == PENDING
  }

  /** At event `k` request `r` read the stored mode of its user, to decide about `row`. */
  predicate ReadModeAt(events: seq<Event>, r: nat, k: nat, row: Approval, m: ModeState) {
    && k < |events| && events[k].Step? && events[k].call == r
    && var w := Run(events[..k]);
      && r < |w.calls| && w.calls[r].phase == ReadMode && w.calls[r].row == row
      && w.calls[r].user in w.sys.store.mode && w.sys.store.mode[w.calls[r].user] == m
  }

  lemma ReadsOnPrefix(events: seq<Event>, m: nat, r: nat, k: nat, row: Approval)
    requires m <= |events|
    ensures ReadStatusAt(events[..m], r, k, row) ==> k < m && ReadStatusAt(events, r, k, row)
    ensures forall mode: ModeState :: ReadModeAt(events[..m], r, k, row, mode) ==> k < m && ReadModeAt(events, r, k, row, mode)
  {
    hide Run, ShouldExecute;
    if k < m { assert events[..m][..k] == events[..k]; }
  }

  /** A request keeps the row it was admitted with. */
  lemma RowIsKept(s: System, c: Call, answer: VenueAnswer)
    requires CallOk(s, c) && c.phase != ReadStatus
    ensures var c' := Next(s, c, answer).1; c'.row == c.row && c'.user == c.user && (Admitted(c') ==> Admitted(c))
  {
    if BeforeClaim(c) || c.phase == PlaceOrder {
      hide Connected, HasQty, RequestOf, SameEntry, ShouldExecute;
    } else {
      WriteShape(s, c, answer);
      hide Next;
    }
  }

  lemma AdmissionReadsRow(s: System, c: Call)
    requires IdsArePositions(s.store) && c.phase == ReadStatus && Admitted(ReadStatusStep(s, c))
    ensures var row := ReadStatusStep(s, c).row;
      && row.id < |s.store.approvals| && s.store.approvals[row.id] == row && row.status == PENDING
      && row.id == c.approvalId && row.user == c.user
  {
    FindIsPosition(s.store.approvals, c.user, c.approvalId);
    hide Find;
  }

  lemma OntoLivePath(s: System, c: Call, answer: VenueAnswer)
    requires CallOk(s, c) && OnLivePath(Next(s, c, answer).1)
    ensures OnLivePath(c) || (c.phase == ReadMode && ShouldExecute(ModeOf(s.store, c.user)))
  {
    if BeforeClaim(c) || c.phase == PlaceOrder || c.phase == ReadStatus {
      hide Find, Connected, HasQty, RequestOf, SameEntry;
    } else {
      WriteShape(s, c, answer);
      hide Next;
    }
  }

  /** An event that is not a step of request `r` leaves its record alone. */
  lemma NotItsStep(w: World, ev: Event, r: nat)
    requires r < |Apply(w, ev).calls| && !(ev.Step? && ev.call == r && r < |w.calls|)
    ensures if r < |w.calls| then Apply(w, ev).calls[r] == w.calls[r] else Apply(w, ev).calls[r].phase == ReadStatus
  {
    hide Next;
    if !ev.Step? && !ev.Arrive? {
      OtherEventsTouchNoRequest(w, ev);
      hide Apply;
    }
  }

  /** An admitted request read its row, pending, at some event of the run. */
  lemma {:induction false} StatusWasRead(events: seq<Event>, r: nat) returns (k: nat)
    requires r < |Run(events).calls| && Admitted(Run(events).calls[r])
    ensures ReadStatusAt(events, r, k, Run(events).calls[r].row)
  {
    hide Apply, Next, CallOk;
    var n := |events| - 1;
    var init, ev := events[..n], events[n];
    var w := Run(init);
    InvariantHolds(init);
    assert events == init + [ev];
    RunAppend(init, ev);
    hide Run;
    if ev.Step? && ev.call == r && r < |w.calls| {
      var c := w.calls[r];
      StepEvent(w, r, ev.answer);
      if c.phase == ReadStatus {
        assert Next(w.sys, c, ev.answer).1 == ReadStatusStep(w.sys, c) by { AdmitIsNext(w.sys, c, ev.answer); }
        AdmissionReadsRow(w.sys, c);
        hide Admitted, IdsArePositions, ReadStatusStep;
        k := n;
      } else {
        RowIsKept(w.sys, c, ev.answer);
        k := StatusWasRead(init, r);
        ReadsOnPrefix(events, n, r, k, c.row);
      }
    } else {
      NotItsStep(w, ev, r);
      k := StatusWasRead(init, r);
      ReadsOnPrefix(events, n, r, k, w.calls[r].row);
    }
  }

  lemma AdmitIsNext(s: System, c: Call, answer: VenueAnswer)
    requires c.phase == ReadStatus
    ensures Next(s, c, answer) == (s, ReadStatusStep(s, c))
  {
  }

  /** A request on the live path read a mode that allows execution, at some event of the run. */
  lemma {:induction false} ModeWasRead(events: seq<Event>, r: nat) returns (k: nat, m: ModeState)
    requires r < |Run(events).calls| && OnLivePath(Run(events).calls[r])
    ensures ReadModeAt(events, r, k, Run(events).calls[r].row, m)
    ensures m.mode == SemiAuto && m.liveUnlocked && !m.protectionLock
  {
    hide Apply, Next, CallOk, ShouldExecute;
    var n := |events| - 1;
    var init, ev := events[..n], events[n];
    var w := Run(init);
    InvariantHolds(init);
    assert events == init + [ev];
    RunAppend(init, ev);
    hide Run;
    if ev.Step? && ev.call == r && r < |w.calls| {
      var c := w.calls[r];
      StepEvent(w, r, ev.answer);
      OntoLivePath(w.sys, c, ev.answer);
      LiveIsAdmitted(w.sys, c);
      RowIsKept(w.sys, c, ev.answer);
      if OnLivePath(c) {
        k, m := ModeWasRead(init, r);
        ReadsOnPrefix(events, n, r, k, c.row);
      } else {
        k, m := n, ModeOf(w.sys.store, c.user);
        StoredModeExecutes(w.sys.store, c.user);
      }
    } else {
      NotItsStep(w, ev, r);
      assert r < |w.calls| by { InvariantHolds(events); NewIsNotLive(Run(events).sys, Run(events).calls[r]); }
      k, m := ModeWasRead(init, r);
      ReadsOnPrefix(events, n, r, k, w.calls[r].row);
    }
  }

  /** Only a mode that was stored can allow execution: the default is paper. */
  lemma StoredModeExecutes(st: State, user: UserId)
    requires ShouldExecute(ModeOf(st, user))
    ensures user in st.mode && ModeOf(st, user) == st.mode[user]
    ensures var m := st.mode[user]; m.mode == SemiAuto && m.liveUnlocked && !m.protectionLock
  {
  }

  lemma LiveIsAdmitted(s: System, c: Call)
    requires CallOk(s, c) && (OnLivePath(c) || c.phase == ReadMode)
    ensures c.phase != ReadStatus && Admitted(c)
  {
  }

  lemma NewIsNotLive(s: System, c: Call)
    requires CallOk(s, c) && OnLivePath(c)
    ensures c.phase != ReadStatus
  {
  }

  // ---- Provenance ------------------------------------------------------------------------------

  /** Event `m` is the step that put order `j` in the venue log. */
  predicate PlacedAt(events: seq<Event>, m: nat, j: nat) {
    && m < |events| && events[m].Step?
    && var w := Run(events[..m]);
      && events[m].call < |w.calls| && w.calls[events[m].call].phase == PlaceOrder && |w.sys.venue| == j
  }

  lemma VenueGrowth(w: World, ev: Event)
    requires Invariant(w)
    ensures w.sys.venue <= Apply(w, ev).sys.venue && |Apply(w, ev).sys.venue| <= |w.sys.venue| + 1
    ensures |Apply(w, ev).sys.venue| > |w.sys.venue| ==>
      && ev.Step? && ev.call < |w.calls| && w.calls[ev.call].phase == PlaceOrder && HasQty(w.calls[ev.call].row)
      && Apply(w, ev).sys.venue[|w.sys.venue|].req == RequestOf(w.calls[ev.call].row)
  {
    if ev.Step? && ev.call < |w.calls| {
      var c := w.calls[ev.call];
      assert CallOk(w.sys, c);
      if c.phase != PlaceOrder { VenueElsewhere(w.sys, c, ev.answer); hide Next; }
      hide Invariant, CallOk, RequestOf;
    } else {
      hide Next, ApplyToStore, Invariant;
    }
  }

  /** Every order in the log was put there by one send, and stays as it was sent. */
  lemma {:induction false} WhenPlaced(events: seq<Event>, j: nat) returns (m: nat)
    requires j < |Run(events).sys.venue|
    ensures PlacedAt(events, m, j)
    ensures var c := Run(events[..m]).calls[events[m].call];
      HasQty(c.row) && Run(events).sys.venue[j].req == RequestOf(c.row)
  {
    var n := |events| - 1;
    var w := Run(events[..n]);
    InvariantHolds(events[..n]);
    VenueGrowth(w, events[n]);
    hide Apply, Invariant, RequestOf;
    if j < |w.sys.venue| {
      m := WhenPlaced(events[..n], j);
      assert events[..n][..m] == events[..m];
    } else {
      m := n;
    }
  }

  /**
   * Where order `j` comes from: queued at event `k` on `ruling`, found pending by the sending
   * request at event `s`, let through by the mode read at event `p`, and sent at event `m`.
   */
  predicate Provenance(events: seq<Event>, j: nat, k: nat, s: nat, p: nat, m: nat, ruling: Ruling, mode: ModeState)
    requires j < |Run(events).sys.venue|
  {
    && k < s < p < m && PlacedAt(events, m, j)
    && var r := events[m].call; var row := Run(events[..m]).calls[r].row;
      && RuledAt(events, k, row, ruling) && ReadStatusAt(events, r, s, row) && ReadModeAt(events, r, p, row, mode)
      && OrderOf(Run(events).sys.venue[j].req, ruling)
  }

  /**
   * Every order the venue ever received, in every run, has this history: the engine's own order
   * for a decision taken earlier in this run, for the sending user and on the sender's queue row,
   * that passed all ten gates in semi-auto mode; and between that decision and the send the same
   * request found the row pending and read semi-auto, live-unlocked and no protection lock.
   */
  lemma PlacementProvenance(events: seq<Event>, j: nat)
    requires j < |Run(events).sys.venue|
    ensures exists k: nat, s: nat, p: nat, m: nat, ruling: Ruling, mode: ModeState ::
      (Provenance(events, j, k, s, p, m, ruling, mode) && mode.mode == SemiAuto && mode.liveUnlocked && !mode.protectionLock)
  {
    hide Apply, Next, CallOk, OrderOf, RequestOf, Carries, ShouldExecute;
    var m := WhenPlaced(events, j);
    var r := events[m].call;
    var row := Run(events[..m]).calls[r].row;
    var p, mode := ModeWasRead(events[..m], r);
    ReadsOnPrefix(events, m, r, p, row);
    InvariantHolds(events[..p]);
    LiveIsAdmitted(Run(events[..p]).sys, Run(events[..p]).calls[r]);
    var s := StatusWasRead(events[..p], r);
    ReadsOnPrefix(events, p, r, s, row);
    var k, ruling := QueueIsAuthorized(events[..s], row.id);
    RuledOnPrefix(events, s, k, row, ruling);
    RowGivesOrder(row, ruling);
    hide Run;
    assert Provenance(events, j, k, s, p, m, ruling, mode);
  }
}
