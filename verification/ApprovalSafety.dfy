/** Safety of the approve protocol over every run: claims are spaced, fills happen at most once. */
module ApprovalSafety {
  import opened Shared
  import opened RiskEngine
  import opened Idempotency
  import opened Store
  import opened Executor
  import opened Approvals

  // ---- Every step moves forward ---------------------------------------------------------------

  /** The same queued entry, whatever its status. */
  predicate SameEntry(a: Approval, b: Approval) { a == b.(status := a.status) }

  predicate IdsArePositions(st: State) {
    forall i :: 0 <= i < |st.approvals| ==> st.approvals[i].id == i
  }

  /** Queued entries stay as they are but for their status, and a decided one stays decided. */
  predicate EntriesKept(a: seq<Approval>, b: seq<Approval>) {
    && |a| <= |b|
    && forall i :: 0 <= i < |a| ==> SameEntry(b[i], a[i]) && (a[i].status != PENDING ==> b[i].status != PENDING)
  }

  predicate WindowsKept(a: map<string, real>, b: map<string, real>) {
    forall k :: k in a ==> k in b && a[k] <= b[k]
  }

  predicate Later(s: System, s': System) {
    && EntriesKept(s.store.approvals, s'.store.approvals) && WindowsKept(s.keys, s'.keys) && s.clock <= s'.clock
  }

  lemma FindIsPosition(rows: seq<Approval>, user: UserId, id: nat)
    requires forall i :: 0 <= i < |rows| ==> rows[i].id == i
    ensures Find(rows, user, id) == if id < |rows| && rows[id].user == user then Some(id) else None
  {
  }

  lemma ResolveKeepsEntries(st: State, user: UserId, id: nat, action: string)
    requires IdsArePositions(st) && action != PENDING
    ensures var st' := Resolve(st, user, id, action);
      && IdsArePositions(st') && EntriesKept(st.approvals, st'.approvals)
      && st' == st.(approvals := st'.approvals)
      && (id < |st.approvals| && st.approvals[id].user == user ==> st'.approvals[id].status == action)
  {
    FindIsPosition(st.approvals, user, id);
  }

  /** The store keeps ids equal to positions, and every step of a request moves forward. */
  lemma NextMovesForward(s: System, c: Call, answer: VenueAnswer)
    requires IdsArePositions(s.store)
    ensures var s' := Next(s, c, answer).0; IdsArePositions(s'.store) && Later(s, s')
  {
    if c.phase == ResolveFilled || c.phase == ResolveOnly {
      ResolveKeepsEntries(s.store, c.user, c.row.id, APPROVE);
      hide Resolve;
    } else {
      assert Next(s, c, answer).0.store.approvals == s.store.approvals;
      hide Next;
    }
  }

  lemma ApplyMovesForward(w: World, ev: Event)
    requires IdsArePositions(w.sys.store)
    ensures IdsArePositions(Apply(w, ev).sys.store) && Later(w.sys, Apply(w, ev).sys)
  {
    match ev
    case Step(r, answer) =>
      if r < |w.calls| { NextMovesForward(w.sys, w.calls[r], answer); }
      hide Next;
    case OtherDecision(user, id, action) =>
      if action in ALLOWED_ACTIONS { ResolveKeepsEntries(w.sys.store, user, id, action); }
      hide Resolve;
    case Queue(user, e, keys, clock) => hide RiskEngine.Decide;
    case _ =>
  }

  lemma OtherEventsTouchNoRequest(w: World, ev: Event)
    requires !ev.Arrive? && !ev.Step?
    ensures Apply(w, ev).calls == w.calls
  {
    hide ApplyToStore;
  }

  lemma StepEvent(w: World, r: nat, answer: VenueAnswer)
    requires r < |w.calls|
    ensures var (s, c) := Next(w.sys, w.calls[r], answer); Apply(w, Step(r, answer)) == World(s, w.calls[r := c])
  {
    hide Next, ApplyToStore;
  }

  lemma StoreEvent(w: World, ev: Event)
    requires !ev.Arrive? && !ev.Step? && !ev.Tick?
    ensures Apply(w, ev) == w.(sys := w.sys.(store := ApplyToStore(w.sys.store, ev)))
  {
    hide ApplyToStore;
  }

  // ---- What holds of every request at every moment ---------------------------------------------

  predicate CallOk(s: System, c: Call) {
    && PhaseFits(c)
    && (Admitted(c) ==>
          && c.row.user == c.user && c.row.id == c.approvalId < |s.store.approvals|
          && SameEntry(s.store.approvals[c.row.id], c.row) && c.row.status == PENDING && c.readAt <= s.clock)
    && (OnLivePath(c) ==> ShouldExecute(c.modeRead))
    && (PastQtyCheck(c) ==> HasQty(c.row))
    && (HasClaimed(c) ==>
          && c.readAt <= c.claimedAt <= s.clock
          && c.row.idempotencyKey in s.keys && s.keys[c.row.idempotencyKey] >= c.claimedAt + TTL)
    && (HasSent(c) ==> c.claimedAt <= c.sentAt <= s.clock)
  }

  lemma CallStaysOk(s: System, s': System, c: Call)
    requires CallOk(s, c) && Later(s, s')
    ensures CallOk(s', c)
  {
  }

  /** What the route copies is a pending approval of its own user. */
  lemma AdmissionIsOk(s: System, c: Call, answer: VenueAnswer)
    requires IdsArePositions(s.store) && CallOk(s, c) && c.phase == ReadStatus
    ensures var (s', c') := Next(s, c, answer); CallOk(s', c')
  {
    FindIsPosition(s.store.approvals, c.user, c.approvalId);
    hide Find;
  }

  /** The guards of the live path: mode, connection, quantity. */
  lemma GuardsAreOk(s: System, c: Call, answer: VenueAnswer)
    requires CallOk(s, c) && (c.phase == ReadMode || c.phase == ReadConnection)
    ensures var (s', c') := Next(s, c, answer); CallOk(s', c')
  {
    hide SameEntry, Connected;
  }

  /** A claim that succeeds opens a window of its own. */
  lemma ClaimIsOk(s: System, c: Call, answer: VenueAnswer)
    requires CallOk(s, c) && c.phase == ClaimKey
    ensures var (s', c') := Next(s, c, answer); CallOk(s', c')
  {
    hide SameEntry, ShouldExecute;
  }

  lemma SendIsOk(s: System, c: Call, answer: VenueAnswer)
    requires CallOk(s, c) && c.phase == PlaceOrder
    ensures var (s', c') := Next(s, c, answer); CallOk(s', c')
  {
    hide SameEntry, ShouldExecute, RequestOf, Free;
  }

  /** Steps after the send change only the phase and the recorded row numbers. */
  lemma WriteShape(s: System, c: Call, answer: VenueAnswer)
    requires PhaseFits(c) && !BeforeClaim(c) && c.phase != ReadStatus && c.phase != PlaceOrder
    ensures var c' := Next(s, c, answer).1;
      && c' == c.(phase := c'.phase, trade := c'.trade, order := c'.order, audit := c'.audit)
      && PhaseFits(c') && !BeforeClaim(c') && c'.phase != ReadStatus && c'.phase != PlaceOrder
      && (Holding(c') ==> Holding(c))
  {
    hide ResolveStep, HasQty;
  }

  /** Ledger, resolve and audit steps change nothing the record relies on. */
  lemma WriteIsOk(s: System, c: Call, answer: VenueAnswer)
    requires IdsArePositions(s.store) && CallOk(s, c)
    requires !BeforeClaim(c) && c.phase != ReadStatus && c.phase != PlaceOrder
    ensures var (s', c') := Next(s, c, answer); CallOk(s', c')
  {
    hide Later, Next, IdsArePositions, SameEntry, ShouldExecute, HasQty;
    NextMovesForward(s, c, answer);
    CallStaysOk(s, Next(s, c, answer).0, c);
    WriteShape(s, c, answer);
    hide PhaseFits;
  }

  /** A step leaves the request's own record consistent. */
  lemma NextIsOk(s: System, c: Call, answer: VenueAnswer)
    requires IdsArePositions(s.store) && CallOk(s, c)
    ensures var (s', c') := Next(s, c, answer); CallOk(s', c')
  {
    hide Next, CallOk;
    match c.phase
    case ReadStatus => AdmissionIsOk(s, c, answer);
    case ReadMode => GuardsAreOk(s, c, answer);
    case ReadConnection => GuardsAreOk(s, c, answer);
    case ClaimKey => ClaimIsOk(s, c, answer);
    case PlaceOrder => SendIsOk(s, c, answer);
    case _ => WriteIsOk(s, c, answer);
  }

  /** Any two claims of one key lie at least a window apart. */
  predicate Spaced(c: Call, d: Call) {
    HasClaimed(c) && HasClaimed(d) && c.row.idempotencyKey == d.row.idempotencyKey ==>
      c.claimedAt + TTL <= d.claimedAt || d.claimedAt + TTL <= c.claimedAt
  }

  predicate Invariant(w: World) {
    && IdsArePositions(w.sys.store)
    && (forall r :: 0 <= r < |w.calls| ==> CallOk(w.sys, w.calls[r]))
    && (forall r, q :: 0 <= r < q < |w.calls| ==> Spaced(w.calls[r], w.calls[q]))
  }

  /** A claim that succeeds now comes a full window after every earlier claim of the key. */
  lemma NextStaysSpaced(s: System, c: Call, answer: VenueAnswer, d: Call)
    requires IdsArePositions(s.store) && CallOk(s, c) && CallOk(s, d) && Spaced(c, d)
    ensures var c' := Next(s, c, answer).1; Spaced(c', d) && Spaced(d, c')
  {
    if c.phase == ClaimKey {
      hide ShouldExecute, HasQty, SameEntry;
    } else if c.phase == ReadStatus {
      hide Find;
    } else {
      OtherSteps(s, c, answer);
      ClaimsOnlyAtClaim(s, c, answer);
      hide Next, CallOk;
    }
  }

  lemma ClaimsOnlyAtClaim(s: System, c: Call, answer: VenueAnswer)
    requires PhaseFits(c) && c.phase != ClaimKey
    ensures HasClaimed(Next(s, c, answer).1) ==> HasClaimed(c)
  {
    if BeforeClaim(c) || c.phase == PlaceOrder || c.phase == ReadStatus {
      hide ShouldExecute, Connected, HasQty, RequestOf, Find;
    } else {
      WriteShape(s, c, answer);
      hide Next;
    }
  }

  lemma StepKeepsInvariant(w: World, r: nat, answer: VenueAnswer)
    requires Invariant(w) && r < |w.calls|
    ensures Invariant(Apply(w, Step(r, answer)))
  {
    var (s', c') := Next(w.sys, w.calls[r], answer);
    NextMovesForward(w.sys, w.calls[r], answer);
    NextIsOk(w.sys, w.calls[r], answer);
    hide Next, Later;
    forall q | 0 <= q < |w.calls| && q != r
      ensures CallOk(s', w.calls[q]) && Spaced(c', w.calls[q]) && Spaced(w.calls[q], c')
    {
      CallStaysOk(w.sys, s', w.calls[q]);
      assert Spaced(w.calls[r], w.calls[q]);
      NextStaysSpaced(w.sys, w.calls[r], answer, w.calls[q]);
    }
    hide CallOk, Spaced, IdsArePositions;
  }

  lemma ApplyKeepsInvariant(w: World, ev: Event)
    requires Invariant(w)
    ensures Invariant(Apply(w, ev))
  {
    match ev
    case Step(r, answer) =>
      if r < |w.calls| { StepKeepsInvariant(w, r, answer); }
    case Arrive(user, id) => hide ApplyToStore;
    case _ =>
      ApplyMovesForward(w, ev);
      OtherEventsTouchNoRequest(w, ev);
      hide Apply, Later;
      var w' := Apply(w, ev);
      forall r | 0 <= r < |w.calls| ensures CallOk(w'.sys, w.calls[r]) {
        CallStaysOk(w.sys, w'.sys, w.calls[r]);
      }
  }

  lemma {:induction false} InvariantHolds(events: seq<Event>)
    ensures Invariant(Run(events))
  {
    if events == [] {
    } else {
      InvariantHolds(events[..|events| - 1]);
      ApplyKeepsInvariant(Run(events[..|events| - 1]), events[|events| - 1]);
    }
  }

  /**
   * With no timing assumption at all: two requests that claimed the same key did so at least
   * 60 seconds apart, in every run.
   */
  lemma ClaimsOfOneKeyAreSpaced(events: seq<Event>, r: nat, q: nat)
    requires r < |Run(events).calls| && q < |Run(events).calls| && r != q
    requires var c, d := Run(events).calls[r], Run(events).calls[q];
      HasClaimed(c) && HasClaimed(d) && c.row.idempotencyKey == d.row.idempotencyKey
    ensures var c, d := Run(events).calls[r], Run(events).calls[q];
      c.claimedAt + 60.0 <= d.claimedAt || d.claimedAt + 60.0 <= c.claimedAt
  {
    InvariantHolds(events);
    hide Run;
    var w := Run(events);
    assert Spaced(w.calls[if r < q then r else q], w.calls[if r < q then q else r]);
  }

  /** No request waits more than `delay` from its claim to its send. */
  predicate SendsWithin(w: World, delay: real) {
    forall r :: 0 <= r < |w.calls| && w.calls[r].phase == PlaceOrder ==> w.sys.clock - w.calls[r].claimedAt <= delay
  }

  predicate AlwaysSendsWithin(events: seq<Event>, delay: real) {
    forall k :: 0 <= k <= |events| ==> SendsWithin(Run(events[..k]), delay)
  }

  predicate SentInTime(c: Call, delay: real) { HasSent(c) ==> c.sentAt <= c.claimedAt + delay }

  lemma NextSendsInTime(s: System, c: Call, answer: VenueAnswer, delay: real)
    requires CallOk(s, c) && SentInTime(c, delay)
    requires c.phase == PlaceOrder ==> s.clock - c.claimedAt <= delay
    ensures SentInTime(Next(s, c, answer).1, delay)
  {
    if c.phase == PlaceOrder {
      hide RequestOf;
    } else if BeforeClaim(c) || c.phase == ReadStatus {
      hide Find, ShouldExecute, Connected, HasQty, SameEntry;
    } else {
      WriteShape(s, c, answer);
      hide Next;
    }
  }

  lemma {:induction false} SendsAreInTime(events: seq<Event>, delay: real, r: nat)
    requires AlwaysSendsWithin(events, delay) && r < |Run(events).calls|
    ensures SentInTime(Run(events).calls[r], delay)
  {
    hide Apply, Next;
    if events == [] {
    } else {
      var n := |events| - 1;
      var init, ev := events[..n], events[n];
      var w := Run(init);
      assert forall k :: 0 <= k <= n ==> init[..k] == events[..k];
      assert SendsWithin(Run(init[..n]), delay) && init[..n] == init;
      hide Run;
      RunAppend(init, ev);
      assert init + [ev] == events;
      InvariantHolds(init);
      if r < |w.calls| { SendsAreInTime(init, delay, r); }
      EventSendsInTime(w, ev, delay, r);
    }
  }

  lemma EventSendsInTime(w: World, ev: Event, delay: real, r: nat)
    requires Invariant(w) && SendsWithin(w, delay) && r < |Apply(w, ev).calls|
    requires r < |w.calls| ==> SentInTime(w.calls[r], delay)
    ensures SentInTime(Apply(w, ev).calls[r], delay)
  {
    hide Next, ApplyToStore;
    match ev
    case Step(q, answer) =>
      if q == r && r < |w.calls| {
        assert CallOk(w.sys, w.calls[r]);
        hide CallOk, Invariant;
        NextSendsInTime(w.sys, w.calls[r], answer, delay);
      }
    case Arrive(_, _) =>
    case _ => OtherEventsTouchNoRequest(w, ev);
  }

  /** Sends may be closer than claims, but by no more than the longest wait from claim to send. */
  lemma SendsOfOneKeyAreSpaced(events: seq<Event>, delay: real, r: nat, q: nat)
    requires AlwaysSendsWithin(events, delay)
    requires r < |Run(events).calls| && q < |Run(events).calls| && r != q
    requires var c, d := Run(events).calls[r], Run(events).calls[q];
      HasSent(c) && HasSent(d) && c.row.idempotencyKey == d.row.idempotencyKey
    ensures var c, d := Run(events).calls[r], Run(events).calls[q];
      c.sentAt + 60.0 - delay <= d.sentAt || d.sentAt + 60.0 - delay <= c.sentAt
  {
    hide Apply, Next;
    SendsAreInTime(events, delay, r);
    SendsAreInTime(events, delay, q);
    ClaimsOfOneKeyAreSpaced(events, r, q);
    InvariantHolds(events);
    hide Run;
    assert CallOk(Run(events).sys, Run(events).calls[r]) && CallOk(Run(events).sys, Run(events).calls[q]);
  }

  // ---- At most one fill per approval, under a timing assumption ---------------------------------

  /** No request waits more than `read` from status read to claim, or `hold` from claim to resolve. */
  predicate Prompt(w: World, read: real, hold: real) {
    forall r :: 0 <= r < |w.calls| ==>
      && (BeforeClaim(w.calls[r]) ==> w.sys.clock - w.calls[r].readAt <= read)
      && (Holding(w.calls[r]) ==> w.sys.clock - w.calls[r].claimedAt <= hold)
  }

  predicate AlwaysPrompt(events: seq<Event>, read: real, hold: real) {
    forall k :: 0 <= k <= |events| ==> Prompt(Run(events[..k]), read, hold)
  }

  /** A request that can still claim read its approval before the holder of that approval was done. */
  predicate ReadInTime(c: Call, d: Call, hold: real) {
    MayFill(c) && BeforeClaim(d) && c.row.id == d.row.id ==> d.readAt <= c.claimedAt + hold
  }

  predicate NotBothFill(c: Call, d: Call) { MayFill(c) && MayFill(d) ==> c.row.id != d.row.id }

  /** A request past its resolve has left its approval decided. */
  predicate Decided(s: System, c: Call) {
    c.verdict == Executed && !Holding(c) && c.row.id < |s.store.approvals| ==>
      s.store.approvals[c.row.id].status != PENDING
  }

  predicate Exclusive(w: World, hold: real) {
    && (forall r :: 0 <= r < |w.calls| ==> Decided(w.sys, w.calls[r]))
    && (forall r, q :: 0 <= r < |w.calls| && 0 <= q < |w.calls| && r != q ==>
          ReadInTime(w.calls[r], w.calls[q], hold) && NotBothFill(w.calls[r], w.calls[q]))
  }

  /** A request admitted now finds every earlier filler of its approval still before its resolve. */
  lemma AdmissionIsExclusive(s: System, c: Call, d: Call, hold: real)
    requires IdsArePositions(s.store) && CallOk(s, d) && c.phase == ReadStatus && PhaseFits(c)
    requires Decided(s, d) && (Holding(d) ==> s.clock - d.claimedAt <= hold)
    ensures var c' := ReadStatusStep(s, c); ReadInTime(c', d, hold) && ReadInTime(d, c', hold) && NotBothFill(c', d)
  {
    FindIsPosition(s.store.approvals, c.user, c.approvalId);
    hide Find;
  }

  /** A claim that succeeds proves that no other request may still fill the same approval. */
  lemma ClaimIsExclusive(s: System, c: Call, d: Call, read: real, hold: real)
    requires CallOk(s, c) && CallOk(s, d) && c.phase == ClaimKey
    requires ReadInTime(d, c, hold) && read + hold < TTL && 0.0 <= hold && s.clock - c.readAt <= read
    ensures var c' := ClaimStep(s, c).1; ReadInTime(c', d, hold) && ReadInTime(d, c', hold) && NotBothFill(c', d)
  {
    hide ShouldExecute, HasQty;
  }

  /** Every other step admits nobody and claims nothing. */
  lemma OtherSteps(s: System, c: Call, answer: VenueAnswer)
    requires PhaseFits(c) && c.phase != ReadStatus && c.phase != ClaimKey
    ensures var c' := Next(s, c, answer).1;
      && c'.row == c.row && c'.readAt == c.readAt && c'.claimedAt == c.claimedAt
      && (BeforeClaim(c') ==> BeforeClaim(c)) && (MayFill(c') ==> MayFill(c))
  {
    if BeforeClaim(c) || c.phase == PlaceOrder {
      hide ShouldExecute, Connected, HasQty, RequestOf;
    } else {
      WriteShape(s, c, answer);
      hide Next;
    }
  }

  /** One step of `c` beside a bystander `d`. */
  lemma NextIsExclusive(s: System, c: Call, answer: VenueAnswer, d: Call, read: real, hold: real)
    requires IdsArePositions(s.store) && CallOk(s, c) && CallOk(s, d)
    requires Decided(s, d) && ReadInTime(c, d, hold) && ReadInTime(d, c, hold) && NotBothFill(c, d)
    requires 0.0 <= hold && read + hold < TTL
    requires BeforeClaim(c) ==> s.clock - c.readAt <= read
    requires Holding(d) ==> s.clock - d.claimedAt <= hold
    ensures var c' := Next(s, c, answer).1; ReadInTime(c', d, hold) && ReadInTime(d, c', hold) && NotBothFill(c', d)
  {
    if c.phase == ReadStatus {
      AdmissionIsExclusive(s, c, d, hold);
      hide ReadStatusStep, ReadInTime;
    } else if c.phase == ClaimKey {
      ClaimIsExclusive(s, c, d, read, hold);
      hide ClaimStep, ReadInTime;
    } else {
      OtherSteps(s, c, answer);
      hide Next, CallOk;
    }
  }

  lemma NextStaysDecided(s: System, c: Call, answer: VenueAnswer)
    requires IdsArePositions(s.store) && CallOk(s, c) && Decided(s, c)
    ensures var (s', c') := Next(s, c, answer); Decided(s', c')
  {
    if c.phase == ResolveFilled {
      ResolveKeepsEntries(s.store, c.user, c.row.id, APPROVE);
      hide Resolve;
    } else if c.phase == PlaceOrder {
      hide CallOk;
    } else if c.verdict == Executed {
      HeldUntilResolve(s, c, answer);
      NextMovesForward(s, c, answer);
      hide Next, SameEntry, ShouldExecute;
    } else {
      OnlySendExecutes(s, c, answer);
      hide Next, CallOk;
    }
  }

  lemma HeldUntilResolve(s: System, c: Call, answer: VenueAnswer)
    requires PhaseFits(c) && c.verdict == Executed && c.phase != ResolveFilled
    ensures var c' := Next(s, c, answer).1; c'.row == c.row && (Holding(c) ==> Holding(c'))
  {
    hide HasQty;
  }

  lemma OnlySendExecutes(s: System, c: Call, answer: VenueAnswer)
    requires PhaseFits(c) && c.phase != PlaceOrder && c.verdict != Executed
    ensures Next(s, c, answer).1.verdict != Executed
  {
    hide Find, ShouldExecute, Connected, HasQty;
  }

  lemma StaysDecided(s: System, s': System, c: Call)
    requires Decided(s, c) && Later(s, s') && CallOk(s, c)
    ensures Decided(s', c)
  {
  }

  lemma StepKeepsExclusive(w: World, r: nat, answer: VenueAnswer, read: real, hold: real)
    requires Invariant(w) && Exclusive(w, hold) && Prompt(w, read, hold) && r < |w.calls|
    requires 0.0 <= hold && read + hold < TTL
    ensures Exclusive(Apply(w, Step(r, answer)), hold)
  {
    var (s', c') := Next(w.sys, w.calls[r], answer);
    NextMovesForward(w.sys, w.calls[r], answer);
    NextStaysDecided(w.sys, w.calls[r], answer);
    hide Next, Later;
    forall q | 0 <= q < |w.calls| && q != r
      ensures Decided(s', w.calls[q])
      ensures ReadInTime(c', w.calls[q], hold) && ReadInTime(w.calls[q], c', hold) && NotBothFill(c', w.calls[q])
    {
      StaysDecided(w.sys, s', w.calls[q]);
      NextIsExclusive(w.sys, w.calls[r], answer, w.calls[q], read, hold);
    }
    hide CallOk, Decided, ReadInTime;
  }

  lemma ApplyKeepsExclusive(w: World, ev: Event, read: real, hold: real)
    requires Invariant(w) && Exclusive(w, hold) && Prompt(w, read, hold)
    requires 0.0 <= hold && read + hold < TTL
    ensures Exclusive(Apply(w, ev), hold)
  {
    match ev
    case Step(r, answer) =>
      if r < |w.calls| { StepKeepsExclusive(w, r, answer, read, hold); }
    case Arrive(user, id) => hide ApplyToStore;
    case _ =>
      ApplyMovesForward(w, ev);
      OtherEventsTouchNoRequest(w, ev);
      hide Apply, Later;
      var w' := Apply(w, ev);
      forall r | 0 <= r < |w.calls| ensures Decided(w'.sys, w.calls[r]) {
        StaysDecided(w.sys, w'.sys, w.calls[r]);
      }
  }

  lemma {:induction false} ExclusiveHolds(events: seq<Event>, read: real, hold: real)
    requires AlwaysPrompt(events, read, hold) && 0.0 <= hold && read + hold < TTL
    ensures Exclusive(Run(events), hold)
  {
    if events == [] {
    } else {
      var init := events[..|events| - 1];
      assert forall k :: 0 <= k <= |init| ==> init[..k] == events[..k];
      ExclusiveHolds(init, read, hold);
      InvariantHolds(init);
      assert init[..|init|] == init;
      hide Run, Exclusive, Invariant;
      ApplyKeepsExclusive(Run(init), events[|events| - 1], read, hold);
      RunAppend(init, events[|events| - 1]);
      assert init + [events[|events| - 1]] == events;
    }
  }

  /**
   * If the wait from status read to claim plus the wait from claim to resolve stays below the
   * 60 second window, no approval is filled twice, under every interleaving.
   */
  lemma AtMostOneFill(events: seq<Event>, read: real, hold: real, r: nat, q: nat)
    requires AlwaysPrompt(events, read, hold) && 0.0 <= hold && read + hold < 60.0
    requires r < |Run(events).calls| && q < |Run(events).calls|
    requires Run(events).calls[r].verdict == Executed && Run(events).calls[q].verdict == Executed
    requires Run(events).calls[r].row.id == Run(events).calls[q].row.id
    ensures r == q
  {
    ExclusiveHolds(events, read, hold);
    hide Run, AlwaysPrompt;
    var w := Run(events);
    assert r != q ==> NotBothFill(w.calls[r], w.calls[q]);
  }
}
