/**
 * The 60 second window is sharp: approvals fill at most once under every interleaving exactly
 * when the two waits add up to less than the window.
 */
module ApprovalWindow {
  import opened Shared
  import opened RiskTypes
  import opened Ev
  import opened RiskEngine
  import opened RiskProperties
  import opened Idempotency
  import opened Store
  import opened Executor
  import opened Approvals
  import opened ApprovalSafety
  import opened ApprovalProvenance

  ghost predicate NeverFillsTwice(read: real, hold: real) {
    forall events: seq<Event>, r: nat, q: nat ::
      (AlwaysPrompt(events, read, hold) && BothFill(Run(events), r, q)) ==> r == q
  }

  /** Requests `r` and `q` both placed an order for the same approval. */
  predicate BothFill(w: World, r: nat, q: nat) {
    && r < |w.calls| && q < |w.calls| && w.calls[r].verdict == Executed && w.calls[q].verdict == Executed
    && w.calls[r].row.id == w.calls[q].row.id
  }

  /** In every run with claim-to-send waits of at most `delay`, sends of one key are `sep` apart. */
  ghost predicate SendsNeverClose(delay: real, sep: real) {
    forall events: seq<Event>, r: nat, q: nat ::
      (AlwaysSendsWithin(events, delay) && SameKeySends(Run(events), r, q)) ==>
        SendsApart(Run(events).calls[r], Run(events).calls[q], sep)
  }

  /** Two requests sent orders with one key. */
  predicate SameKeySends(w: World, r: nat, q: nat) {
    && r < |w.calls| && q < |w.calls| && r != q && HasSent(w.calls[r]) && HasSent(w.calls[q])
    && w.calls[r].row.idempotencyKey == w.calls[q].row.idempotencyKey
  }

  predicate SendsApart(c: Call, d: Call, sep: real) { c.sentAt + sep <= d.sentAt || d.sentAt + sep <= c.sentAt }

  // ---- Runs under given limits --------------------------------------------------------------------

  /** The longest waits: status read to claim, claim to resolve, claim to send. */
  datatype Limits = Limits(read: real, hold: real, send: real)

  predicate OnTime(c: Call, clock: real, l: Limits) {
    && (BeforeClaim(c) ==> clock - c.readAt <= l.read)
    && (Holding(c) ==> clock - c.claimedAt <= l.hold)
    && (c.phase == PlaceOrder ==> clock - c.claimedAt <= l.send)
  }

  predicate Within(w: World, l: Limits) { forall r :: 0 <= r < |w.calls| ==> OnTime(w.calls[r], w.sys.clock, l) }

  predicate AlwaysWithin(events: seq<Event>, l: Limits) {
    forall k :: 0 <= k <= |events| ==> Within(Run(events[..k]), l)
  }

  ghost predicate Reachable(w: World, l: Limits) {
    exists events :: Run(events) == w && AlwaysWithin(events, l)
  }

  lemma WithinIsPrompt(events: seq<Event>, l: Limits)
    requires AlwaysWithin(events, l)
    ensures AlwaysPrompt(events, l.read, l.hold) && AlwaysSendsWithin(events, l.send)
  {
    hide Run, BeforeClaim, Holding;
    forall k | 0 <= k <= |events| ensures Prompt(Run(events[..k]), l.read, l.hold) && SendsWithin(Run(events[..k]), l.send) {
      assert Within(Run(events[..k]), l);
    }
  }

  lemma Go(w: World, ev: Event, l: Limits)
    requires Reachable(w, l) && Within(Apply(w, ev), l)
    ensures Reachable(Apply(w, ev), l)
  {
    var events :| Run(events) == w && AlwaysWithin(events, l);
    var more := events + [ev];
    RunAppend(events, ev);
    hide Run, Within, Apply;
    forall k | 0 <= k <= |more| ensures Within(Run(more[..k]), l) {
      if k <= |events| {
        assert more[..k] == events[..k];
      } else {
        assert more[..k] == more;
      }
    }
    assert Run(more) == Apply(w, ev);
  }

  lemma ReachableIsWithin(w: World, l: Limits)
    requires Reachable(w, l)
    ensures Within(w, l)
  {
    hide Run, Within;
    var events :| Run(events) == w && AlwaysWithin(events, l);
    assert events[..|events|] == events;
  }

  /** A step that leaves the request on time. */
  lemma TakeAnsweredStep(w: World, r: nat, answer: VenueAnswer, s': System, c': Call, l: Limits)
    requires Reachable(w, l) && r < |w.calls| && Next(w.sys, w.calls[r], answer) == (s', c')
    requires s'.clock == w.sys.clock && OnTime(c', s'.clock, l)
    ensures Reachable(World(s', w.calls[r := c']), l)
  {
    ReachableIsWithin(w, l);
    StepEvent(w, r, answer);
    hide Next, Reachable, OnTime, Apply;
    Go(w, Step(r, answer), l);
  }

  /** ... with a venue that accepts. */
  lemma TakeStep(w: World, r: nat, s': System, c': Call, l: Limits)
    requires Reachable(w, l) && r < |w.calls| && Next(w.sys, w.calls[r], Accepted("")) == (s', c')
    requires s'.clock == w.sys.clock && OnTime(c', s'.clock, l)
    ensures Reachable(World(s', w.calls[r := c']), l)
  {
    hide Next, Reachable, OnTime;
    TakeAnsweredStep(w, r, Accepted(""), s', c', l);
  }

  lemma TakeThreeSteps(w: World, r: nat, s1: System, c1: Call, s2: System, c2: Call, s3: System, c3: Call, l: Limits)
    requires Reachable(w, l) && r < |w.calls|
    requires Next(w.sys, w.calls[r], Accepted("")) == (s1, c1) && Next(s1, c1, Accepted("")) == (s2, c2)
    requires Next(s2, c2, Accepted("")) == (s3, c3)
    requires s1.clock == s2.clock == s3.clock == w.sys.clock
    requires OnTime(c1, s1.clock, l) && OnTime(c2, s2.clock, l) && OnTime(c3, s3.clock, l)
    ensures Reachable(World(s3, w.calls[r := c3]), l)
  {
    hide Next, Reachable, OnTime;
    TakeStep(w, r, s1, c1, l);
    TakeStep(World(s1, w.calls[r := c1]), r, s2, c2, l);
    assert w.calls[r := c1][r := c2] == w.calls[r := c2];
    TakeStep(World(s2, w.calls[r := c2]), r, s3, c3, l);
    assert w.calls[r := c2][r := c3] == w.calls[r := c3];
  }

  /** The store of one semi-auto user with a connection and one pending row. */
  predicate Ready(st: State, row: Approval) {
    && st.approvals == [row] && row.id == 0 && row.user == 0 && row.status == PENDING && HasQty(row)
    && ShouldExecute(ModeOf(st, 0)) && Connected(st, 0, VENUE)
  }

  /** Request `r` takes the three reads, at one instant. */
  lemma ReadAll(w: World, r: nat, row: Approval, l: Limits) returns (w': World)
    requires Reachable(w, l) && Ready(w.sys.store, row) && 0.0 <= l.read
    requires r < |w.calls| && w.calls[r] == NewCall(0, 0)
    ensures Reachable(w', l) && w'.sys == w.sys && |w'.calls| == |w.calls| && w'.calls == w.calls[r := w'.calls[r]]
    ensures var c := w'.calls[r];
      c.phase == ClaimKey && c.verdict == Undecided && c.row == row && c.readAt == w.sys.clock && c.user == 0
  {
    var s := w.sys;
    var c1 := ReadStatusStep(s, w.calls[r]);
    assert c1 == w.calls[r].(phase := ReadMode, row := row, readAt := s.clock);
    var c2 := ReadModeStep(s, c1);
    var c3 := ReadConnectionStep(s, c2);
    hide Reachable, Find, Ready, Connected, ModeOf;
    TakeThreeSteps(w, r, s, c1, s, c2, s, c3, l);
    w' := World(s, w.calls[r := c3]);
  }

  /** ... claims, and the key was free. */
  lemma ClaimFree(w: World, r: nat, l: Limits) returns (w': World)
    requires Reachable(w, l) && 0.0 <= l.hold && 0.0 <= l.send && r < |w.calls| && w.calls[r].phase == ClaimKey
    requires Free(w.sys.keys, w.calls[r].row.idempotencyKey, w.sys.clock)
    ensures Reachable(w', l)
    ensures w'.calls == w.calls[r := w.calls[r].(phase := PlaceOrder, claimedAt := w.sys.clock)]
    ensures w'.sys == w.sys.(keys := w.sys.keys[w.calls[r].row.idempotencyKey := w.sys.clock + TTL])
  {
    var (s, c) := ClaimStep(w.sys, w.calls[r]);
    assert c == w.calls[r].(phase := PlaceOrder, claimedAt := w.sys.clock);
    assert s == w.sys.(keys := w.sys.keys[w.calls[r].row.idempotencyKey := w.sys.clock + TTL]);
    hide Reachable, ClaimStep, Free;
    TakeStep(w, r, s, c, l);
    w' := World(s, w.calls[r := c]);
  }

  /** ... sends, and the venue accepts. */
  lemma Send(w: World, r: nat, l: Limits) returns (w': World)
    requires Reachable(w, l) && r < |w.calls| && w.calls[r].phase == PlaceOrder && HasQty(w.calls[r].row)
    ensures Reachable(w', l) && |w'.calls| == |w.calls| && w'.calls == w.calls[r := w'.calls[r]]
    ensures w'.sys == w.sys.(venue := w'.sys.venue)
    ensures var c := w'.calls[r];
      c == w.calls[r].(phase := AddTrade, verdict := Executed, sentAt := w.sys.clock, send := c.send, exchangeOrderId := "")
  {
    ReachableIsWithin(w, l);
    assert OnTime(w.calls[r], w.sys.clock, l);
    var (s, c) := SendStep(w.sys, w.calls[r], Accepted(""));
    assert c == w.calls[r].(phase := AddTrade, verdict := Executed, sentAt := w.sys.clock, send := c.send, exchangeOrderId := "");
    assert s == w.sys.(venue := s.venue);
    hide Reachable, HasQty, SendStep, Within;
    TakeStep(w, r, s, c, l);
    w' := World(s, w.calls[r := c]);
  }

  /** ... writes both ledgers and resolves. */
  lemma RecordAndResolve(w: World, r: nat, l: Limits) returns (w': World)
    requires Reachable(w, l) && r < |w.calls| && w.calls[r].phase == AddTrade && HasQty(w.calls[r].row)
    ensures Reachable(w', l) && |w'.calls| == |w.calls| && w'.calls == w.calls[r := w'.calls[r]]
    ensures w'.sys.clock == w.sys.clock && w'.sys.keys == w.sys.keys
    ensures var c := w'.calls[r];
      c.phase == AuditFilled && c.verdict == w.calls[r].verdict && c.row == w.calls[r].row
  {
    ReachableIsWithin(w, l);
    assert OnTime(w.calls[r], w.sys.clock, l) && Holding(w.calls[r]);
    var (s1, c1) := TradeStep(w.sys, w.calls[r]);
    var (s2, c2) := OrderStep(s1, c1);
    var s3, c3 := ResolveStep(s2, c2), c2.(phase := AuditFilled);
    ResolveStepKeepsTime(s2, c2);
    hide Reachable, ResolveStep, TradeRowOf, OrderRowOf, Append, RowsOf, HasQty, Within;
    TakeThreeSteps(w, r, s1, c1, s2, c2, s3, c3, l);
    w' := World(s3, w.calls[r := c3]);
  }

  lemma ResolveStepKeepsTime(s: System, c: Call)
    ensures ResolveStep(s, c).clock == s.clock && ResolveStep(s, c).keys == s.keys
  {
    hide Find;
  }

  /** Time passes; nobody waits too long. */
  lemma Wait(w: World, dt: real, l: Limits)
    requires Reachable(w, l) && dt >= 0.0
    requires forall r :: 0 <= r < |w.calls| ==> OnTime(w.calls[r], w.sys.clock + dt, l)
    ensures Reachable(w.(sys := w.sys.(clock := w.sys.clock + dt)), l)
  {
    hide Reachable, OnTime, ApplyToStore;
    Go(w, Tick(dt), l);
  }

  /** An entry every gate lets through. */
  const SAMPLE := Entry(
    Signal("", Long, "", 100.0, 90.0, [120.0], 2.0, ""),
    AccountState(1000.0, 1000.0, 0.0, 0.0, 0, 0.0, 0, None, None, false, true, Some(0.0)),
    RiskProfile(100.0, 10000.0, 10000.0, 10000.0, 1, 2.0, 10000.0, 10000.0, 1, 1.0, 0.0, 0.0, 60, 0, 0),
    NO_COSTS, Some(WINNER), SemiAuto, 0.0)

  const NO_COSTS := EvInputs(FeeSchedule(0.0, 0.0), true, 0.0, 0.0, 0.0, 0.0, 8)
  const WINNER := StrategyStats(1, 1.0, 100.0, 0.0, 1)

  lemma WinnerBeatsFreeCosts()
    ensures EvNetBps(WINNER, NO_COSTS) == 100.0
  {
    assert ExpectedFundingBps(NO_COSTS) == 0.0 && RoundTripFeesBps(NO_COSTS) == 0.0;
  }

  lemma SampleIsWorthItsCosts()
    ensures WorthItsCosts(SAMPLE)
  {
    WinnerBeatsFreeCosts();
    hide EvNetBps;
  }

  lemma SampleIsSizable()
    ensures FarFromLiquidation(SAMPLE) && Sizable(SAMPLE)
  {
  }

  lemma SampleHoldsAtGate(g: int)
    requires 1 <= g <= 10
    ensures GateHolds(SAMPLE, map[], 0.0, g)
  {
    SampleIsWorthItsCosts();
    SampleIsSizable();
    hide WorthItsCosts, FarFromLiquidation, Sizable, EvNetBps;
  }

  lemma SampleIsApproved()
    ensures Ruling(SAMPLE, map[], 0.0).Approved()
  {
    hide RiskEngine.Decide, GateHolds, GateReason;
    ApprovesIffAllGatesHold(SAMPLE, map[], 0.0);
    forall g | 1 <= g <= 10 ensures GateHolds(SAMPLE, map[], 0.0, g) {
      SampleHoldsAtGate(g);
    }
  }

  /** One semi-auto user with a connection: what three settings calls leave. */
  function Shop(approvals: seq<Approval>, signals: seq<SignalRow>): System {
    System(State(approvals, map[], map[], map[], map[0 := ModeState(SemiAuto, true, false)], [Connection(0, VENUE)],
                 signals),
           map[], 0.0, [])
  }

  lemma ShopIsReachable(l: Limits)
    ensures Reachable(World(Shop([], []), []), l)
  {
    assert Run([]) == START && AlwaysWithin([], l);
    var st0 := UnlockLive(EMPTY, 0);
    var st1 := st0.(mode := st0.mode[0 := ModeState(SemiAuto, true, false)]);
    hide Reachable, Run, RiskEngine.Decide;
    var w0, w1 := World(System(st0, map[], 0.0, []), []), World(System(st1, map[], 0.0, []), []);
    Go(START, Unlock(0), l);
    Go(w0, SetMode(0, SemiAuto), l);
    Go(w1, Connect(0, VENUE), l);
    assert [] + [Connection(0, VENUE)] == [Connection(0, VENUE)];
    assert st1.mode == map[0 := ModeState(SemiAuto, true, false)];
  }

  lemma QueueApproved(st: State, user: UserId, ruling: Ruling)
    requires ruling.Approved()
    ensures var e, d := ruling.entry, ruling.Decision();
      ApplyToStore(st, Event.Queue(user, e, ruling.keys, ruling.clock))
        == st.(approvals := st.approvals + [RowFor(|st.approvals|, user, e.signal, d)],
               signals := st.signals + [ParsedRow(user, e.signal), ValidatedRow(user, d)])
  {
    hide RiskEngine.Decide, RowFor, ParsedRow, ValidatedRow;
  }

  lemma QueueSample(l: Limits) returns (row: Approval, log: seq<SignalRow>)
    ensures Reachable(World(Shop([row], log), []), l) && Ready(Shop([row], log).store, row)
  {
    ShopIsReachable(l);
    SampleIsApproved();
    var ruling := Ruling(SAMPLE, map[], 0.0);
    hide Ruling.Approved;
    row := RowFor(0, 0, SAMPLE.signal, ruling.Decision());
    log := [ParsedRow(0, SAMPLE.signal), ValidatedRow(0, ruling.Decision())];
    assert row.id == 0 && row.user == 0 && row.status == PENDING && SameEntry(row, row);
    assert Carries(row, ruling);
    RowRoundTrip(row, ruling);
    var w, ev := World(Shop([], []), []), Event.Queue(0, SAMPLE, map[], 0.0);
    QueueApproved(w.sys.store, 0, ruling);
    StoreEvent(w, ev);
    assert [] + [row] == [row] && [] + log == log;
    assert Shop([row], log).store.connections[0] == Connection(0, VENUE);
    assert Ready(Shop([row], log).store, row);
    hide HasQty, Reachable, Carries, ApplyToStore, RowFor, Apply, Ready, ParsedRow, ValidatedRow;
    assert Apply(w, ev) == World(Shop([row], log), []);
    assert Within(World(Shop([row], log), []), l);
    Go(w, ev, l);
  }

  /** Two approve requests for one queued entry, before any step. */
  lemma TwoRequests(l: Limits) returns (w: World, row: Approval)
    ensures Reachable(w, l) && Ready(w.sys.store, row) && w.sys.keys == map[] && w.sys.clock == 0.0
    ensures w.calls == [NewCall(0, 0), NewCall(0, 0)]
  {
    var log;
    row, log := QueueSample(l);
    hide Reachable, Ready;
    var s := Shop([row], log);
    Go(World(s, []), Arrive(0, 0), l);
    assert [] + [NewCall(0, 0)] == [NewCall(0, 0)];
    Go(World(s, [NewCall(0, 0)]), Arrive(0, 0), l);
    assert [NewCall(0, 0)] + [NewCall(0, 0)] == [NewCall(0, 0), NewCall(0, 0)];
    w := World(s, [NewCall(0, 0), NewCall(0, 0)]);
  }

  lemma ReadyHasQty(st: State, row: Approval)
    requires Ready(st, row)
    ensures HasQty(row)
  {
  }

  // ---- Two fills --------------------------------------------------------------------------------

  /** The first request claims and sends at 0 and holds; the second reads the still pending row at `hold`. */
  lemma FirstHoldsSecondReads(l: Limits) returns (w: World)
    requires 0.0 <= l.read && 0.0 <= l.hold && 0.0 <= l.send
    ensures Reachable(w, l) && |w.calls| == 2 && w.sys.clock == l.hold
    ensures w.calls[0].phase == AddTrade && w.calls[0].verdict == Executed && HasQty(w.calls[0].row)
    ensures w.calls[1].phase == ClaimKey && w.calls[1].readAt == l.hold && w.calls[1].row == w.calls[0].row
    ensures w.sys.keys == map[w.calls[0].row.idempotencyKey := TTL]
  {
    hide Reachable, Ready, HasQty;
    var w0, row := TwoRequests(l);
    ReadyHasQty(w0.sys.store, row);
    var w1 := ReadAll(w0, 0, row, l);
    var w2 := ClaimFree(w1, 0, l);
    var w3 := Send(w2, 0, l);
    assert w3.calls[1] == NewCall(0, 0);
    Wait(w3, l.hold, l);
    w := ReadAll(w3.(sys := w3.sys.(clock := l.hold)), 1, row, l);
  }

  /**
   * If the waits can add up to 60 seconds, this run fills one approval twice: the first request
   * resolves only after the second has read, and the second claims at `hold + read`, when the
   * first claim has expired.
   */
  lemma SlowRequestsFillTwice(l: Limits) returns (w: World)
    requires 0.0 <= l.read && 0.0 <= l.hold && 0.0 <= l.send && l.read + l.hold >= 60.0
    ensures Reachable(w, l) && BothFill(w, 0, 1)
  {
    hide Reachable, HasQty;
    var w0 := FirstHoldsSecondReads(l);
    var w1 := RecordAndResolve(w0, 0, l);
    Wait(w1, l.read, l);
    var w2 := ClaimFree(w1.(sys := w1.sys.(clock := l.hold + l.read)), 1, l);
    w := Send(w2, 1, l);
  }

  /** The exact condition for at-most-once. */
  lemma AtMostOnceIffWindowLonger(read: real, hold: real)
    requires 0.0 <= read && 0.0 <= hold
    ensures NeverFillsTwice(read, hold) <==> read + hold < 60.0
  {
    if read + hold < 60.0 {
      forall events: seq<Event>, r: nat, q: nat | AlwaysPrompt(events, read, hold) && BothFill(Run(events), r, q)
        ensures r == q
      {
        AtMostOneFill(events, read, hold, r, q);
      }
    } else {
      var l := Limits(read, hold, hold);
      var w := SlowRequestsFillTwice(l);
      var events :| Run(events) == w && AlwaysWithin(events, l);
      WithinIsPrompt(events, l);
      hide Run, AlwaysPrompt, BothFill;
      assert BothFill(Run(events), 0, 1);
    }
  }

  // ---- Two sends closer than their claims ----------------------------------------------------------

  /**
   * A wait between claim and send eats into the distance of the sends: the first request claims
   * at 0 and sends at `d`, the second claims and sends at 60.
   */
  lemma SlowSendThenFastSend(l: Limits, d: real) returns (w: World)
    requires l.read >= 60.0 && l.hold >= 60.0 && 0.0 <= d <= 60.0 && d <= l.send
    ensures Reachable(w, l) && SameKeySends(w, 0, 1) && w.calls[0].sentAt == d && w.calls[1].sentAt == 60.0
  {
    hide Reachable, Ready, HasQty;
    var w0, row := TwoRequests(l);
    ReadyHasQty(w0.sys.store, row);
    var w1 := ReadAll(w0, 0, row, l);
    assert w1.calls[1] == NewCall(0, 0);
    var w2 := ReadAll(w1, 1, row, l);
    var w3 := ClaimFree(w2, 0, l);
    Wait(w3, d, l);
    var w4 := Send(w3.(sys := w3.sys.(clock := d)), 0, l);
    Wait(w4, 60.0 - d, l);
    var w5 := ClaimFree(w4.(sys := w4.sys.(clock := 60.0)), 1, l);
    w := Send(w5, 1, l);
  }

  /** The sharp distance of two sends of one key, for every wait between claim and send. */
  lemma SendsSpacedIff(delay: real, sep: real)
    requires 0.0 <= delay
    ensures SendsNeverClose(delay, sep) <==> sep <= Max(0.0, 60.0 - delay)
  {
    if sep <= Max(0.0, 60.0 - delay) {
      forall events: seq<Event>, r: nat, q: nat | AlwaysSendsWithin(events, delay) && SameKeySends(Run(events), r, q)
        ensures SendsApart(Run(events).calls[r], Run(events).calls[q], sep)
      {
        SendsOfOneKeyAreSpaced(events, delay, r, q);
      }
    } else {
      var l, d := Limits(60.0, 60.0, delay), Min(delay, 60.0);
      var w := SlowSendThenFastSend(l, d);
      var events :| Run(events) == w && AlwaysWithin(events, l);
      WithinIsPrompt(events, l);
      hide Run, AlwaysSendsWithin, SameKeySends;
      assert SameKeySends(Run(events), 0, 1) && !SendsApart(w.calls[0], w.calls[1], sep);
    }
  }

  /** So they are always a full 60 seconds apart exactly when a claim is sent at once. */
  lemma SendsSpacedIffImmediate(delay: real)
    ensures SendsNeverClose(delay, 60.0) <==> delay <= 0.0
  {
    if delay < 0.0 {
      forall events: seq<Event>, r: nat, q: nat | AlwaysSendsWithin(events, delay) && SameKeySends(Run(events), r, q)
        ensures SendsApart(Run(events).calls[r], Run(events).calls[q], 60.0)
      {
        SendsOfOneKeyAreSpaced(events, delay, r, q);
      }
    } else {
      SendsSpacedIff(delay, 60.0);
    }
  }
}
