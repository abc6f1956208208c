/**
 * Conservation over every run: the venue log, the trade and order ledgers and the audit log
 * are in one-to-one correspondence with the requests that wrote them, line by line.
 */
module ApprovalLedger {
  import opened Shared
  import opened RiskEngine
  import opened Store
  import opened Executor
  import opened Approvals
  import opened ApprovalSafety

  /** The four append-only books; the ledgers and the audit log are kept per user. */
  datatype Book = VenueLog | Trades(user: UserId) | Orders(user: UserId) | Audit(user: UserId)

  datatype Line = Sent(p: Placement) | Trade(t: TradeRow) | Order(o: OrderRow) | Audited(a: AuditRow)

  function Size(b: Book, s: System): nat {
    match b
    case VenueLog => |s.venue|
    case Trades(u) => |RowsOf(s.store.trades, u)|
    case Orders(u) => |RowsOf(s.store.orders, u)|
    case Audit(u) => |RowsOf(s.store.audit, u)|
  }

  function LineAt(b: Book, s: System, j: nat): Line
    requires j < Size(b, s)
  {
    match b
    case VenueLog => Sent(s.venue[j])
    case Trades(u) => Trade(RowsOf(s.store.trades, u)[j])
    case Orders(u) => Order(RowsOf(s.store.orders, u)[j])
    case Audit(u) => Audited(RowsOf(s.store.audit, u)[j])
  }

  /** The request has written its line in the book. */
  predicate Filed(b: Book, c: Call) {
    match b
    case VenueLog => HasQty(c.row) && HasSent(c)
    case Trades(u) => HasQty(c.row) && c.user == u && c.verdict == Executed && c.phase != AddTrade
    case Orders(u) => HasQty(c.row) && c.user == u && c.verdict == Executed && c.phase != AddTrade && c.phase != AddOrder
    case Audit(u) => c.user == u && c.phase == Done && c.verdict != NotFound && c.verdict != Conflict
  }

  function Position(b: Book, c: Call): nat {
    match b
    case VenueLog => c.send
    case Trades(_) => c.trade
    case Orders(_) => c.order
    case Audit(_) => c.audit
  }

  /** What that line says. */
  function Written(b: Book, c: Call): Line
    requires Filed(b, c)
  {
    match b
    case VenueLog => Sent(Placement(RequestOf(c.row), if c.verdict == Executed then Some(c.exchangeOrderId) else None))
    case Trades(_) => Trade(TradeRowOf(c, c.trade))
    case Orders(_) => Order(OrderRowOf(c, c.order))
    case Audit(_) => Audited(AuditRowOf(c, c.audit))
  }

  // ---- One-to-one ------------------------------------------------------------------------------

  predicate Recorded(b: Book, s: System, c: Call) {
    Filed(b, c) ==> Position(b, c) < Size(b, s) && LineAt(b, s, Position(b, c)) == Written(b, c)
  }

  predicate Apart(b: Book, c: Call, d: Call) { Filed(b, c) && Filed(b, d) ==> Position(b, c) != Position(b, d) }

  predicate WrittenBy(b: Book, c: Call, j: nat) { Filed(b, c) && Position(b, c) == j }

  predicate SomebodyWrote(b: Book, calls: seq<Call>, j: nat) {
    exists r :: 0 <= r < |calls| && WrittenBy(b, calls[r], j)
  }

  predicate Matched(b: Book, w: World) {
    && (forall r :: 0 <= r < |w.calls| ==> Recorded(b, w.sys, w.calls[r]))
    && (forall r, q :: 0 <= r < |w.calls| && 0 <= q < |w.calls| && r != q ==> Apart(b, w.calls[r], w.calls[q]))
    && (forall j :: 0 <= j < Size(b, w.sys) ==> SomebodyWrote(b, w.calls, j))
  }

  /** The book is as it was. */
  predicate SameBook(b: Book, s: System, s': System) {
    Size(b, s') == Size(b, s) && forall j :: 0 <= j < Size(b, s) ==> LineAt(b, s', j) == LineAt(b, s, j)
  }

  /** The book grew by one line. */
  predicate Extended(b: Book, s: System, s': System, last: Line) {
    && Size(b, s') == Size(b, s) + 1 && LineAt(b, s', Size(b, s)) == last
    && forall j :: 0 <= j < Size(b, s) ==> LineAt(b, s', j) == LineAt(b, s, j)
  }

  /** The step neither writes in the book nor changes what the request has written there. */
  predicate Skips(b: Book, s: System, c: Call, s': System, c': Call) {
    && SameBook(b, s, s') && (Filed(b, c') <==> Filed(b, c))
    && (Filed(b, c) && Filed(b, c') ==> Position(b, c') == Position(b, c) && Written(b, c') == Written(b, c))
  }

  /** The step writes the request's one line, at the end of the book. */
  predicate Files(b: Book, s: System, c: Call, s': System, c': Call) {
    !Filed(b, c) && Filed(b, c') && Position(b, c') == Size(b, s) && Extended(b, s, s', Written(b, c'))
  }

  // ---- Every step writes at most one line in each book ------------------------------------------

  lemma VenueStep(s: System, c: Call, answer: VenueAnswer)
    requires CallOk(s, c)
    ensures var (s', c') := Next(s, c, answer); Skips(VenueLog, s, c, s', c') || Files(VenueLog, s, c, s', c')
  {
    if c.phase == PlaceOrder {
      assert c.verdict == Undecided && HasQty(c.row) && Next(s, c, answer) == SendStep(s, c, answer);
      hide Next, CallOk, HasQty, RequestOf;
    } else {
      VenueElsewhere(s, c, answer);
      hide Next, CallOk;
    }
  }

  lemma VenueElsewhere(s: System, c: Call, answer: VenueAnswer)
    requires CallOk(s, c) && c.phase != PlaceOrder
    ensures var (s', c') := Next(s, c, answer);
      && s'.venue == s.venue && (HasSent(c') ==> HasSent(c))
      && (HasSent(c) ==>
            && HasSent(c') && c'.row == c.row && c'.send == c.send && c'.verdict == c.verdict
            && c'.exchangeOrderId == c.exchangeOrderId)
  {
    if BeforeClaim(c) || c.phase == ReadStatus {
      hide Find, ShouldExecute, Connected, HasQty, SameEntry;
    } else {
      WriteShape(s, c, answer);
      assert Next(s, c, answer).0.venue == s.venue;
      hide Next, HasQty, SameEntry;
    }
  }

  lemma TradesStep(s: System, c: Call, answer: VenueAnswer, u: UserId)
    requires CallOk(s, c)
    ensures var (s', c') := Next(s, c, answer); Skips(Trades(u), s, c, s', c') || Files(Trades(u), s, c, s', c')
  {
    if c.phase == AddTrade {
      assert c.verdict == Executed && HasQty(c.row) && Next(s, c, answer) == TradeStep(s, c);
      hide Next, CallOk, HasQty;
    } else {
      TradesElsewhere(s, c, answer);
      hide Next, CallOk;
    }
  }

  /** Away from its own step, a request's trade number and the trade ledger stay. */
  lemma TradesElsewhere(s: System, c: Call, answer: VenueAnswer)
    requires CallOk(s, c) && c.phase != AddTrade
    ensures var (s', c') := Next(s, c, answer);
      && s'.store.trades == s.store.trades && c'.user == c.user
      && (c'.verdict == Executed && c'.phase != AddTrade ==> c.verdict == Executed)
      && (c.verdict == Executed ==>
            c'.verdict == Executed && c'.phase != AddTrade && c'.row == c.row && c'.modeRead == c.modeRead && c'.trade == c.trade)
  {
    hide Find, ShouldExecute, Connected, RequestOf, SameEntry;
  }

  lemma OrdersStep(s: System, c: Call, answer: VenueAnswer, u: UserId)
    requires CallOk(s, c)
    ensures var (s', c') := Next(s, c, answer); Skips(Orders(u), s, c, s', c') || Files(Orders(u), s, c, s', c')
  {
    if c.phase == AddOrder {
      assert c.verdict == Executed && HasQty(c.row) && Next(s, c, answer) == OrderStep(s, c);
      hide Next, CallOk, HasQty;
    } else {
      OrdersElsewhere(s, c, answer);
      hide Next, CallOk;
    }
  }

  lemma OrdersElsewhere(s: System, c: Call, answer: VenueAnswer)
    requires CallOk(s, c) && c.phase != AddOrder
    ensures var (s', c') := Next(s, c, answer);
      && s'.store.orders == s.store.orders && c'.user == c.user
      && (c'.verdict == Executed && c'.phase != AddTrade && c'.phase != AddOrder ==> c.verdict == Executed && c.phase != AddTrade)
      && (c.verdict == Executed && c.phase != AddTrade ==>
            && c'.verdict == Executed && c'.phase != AddTrade && c'.phase != AddOrder && c'.row == c.row
            && c'.trade == c.trade && c'.order == c.order && c'.exchangeOrderId == c.exchangeOrderId)
  {
    hide Find, ShouldExecute, Connected, RequestOf, SameEntry;
  }

  predicate AboutToAudit(c: Call) {
    c.phase == AuditFilled || c.phase == AuditOnly || c.phase == AuditBlocked || c.phase == AuditFailed
  }

  lemma AuditBookStep(s: System, c: Call, answer: VenueAnswer, u: UserId)
    requires CallOk(s, c)
    ensures var (s', c') := Next(s, c, answer); Skips(Audit(u), s, c, s', c') || Files(Audit(u), s, c, s', c')
  {
    if AboutToAudit(c) {
      assert c.verdict != NotFound && c.verdict != Conflict && c.verdict != Undecided;
      assert Next(s, c, answer) == AuditStep(s, c);
      hide Next, CallOk;
      AuditFiles(s, c, u);
    } else {
      AuditElsewhere(s, c, answer);
      hide Next, CallOk;
    }
  }

  lemma AuditFiles(s: System, c: Call, u: UserId)
    requires AboutToAudit(c) && c.verdict != NotFound && c.verdict != Conflict && c.verdict != Undecided
    ensures var (s', c') := AuditStep(s, c); Skips(Audit(u), s, c, s', c') || Files(Audit(u), s, c, s', c')
  {
    var (s', c') := AuditStep(s, c);
    assert AuditRowOf(c', c'.audit) == AuditRowOf(c, c'.audit);
    hide AuditRowOf;
  }

  lemma AuditElsewhere(s: System, c: Call, answer: VenueAnswer)
    requires CallOk(s, c) && !AboutToAudit(c)
    ensures var (s', c') := Next(s, c, answer);
      && s'.store.audit == s.store.audit && (c.phase == Done ==> c' == c)
      && (c.phase != Done && c'.phase == Done ==> c'.verdict == NotFound || c'.verdict == Conflict)
  {
    hide Find, ShouldExecute, Connected, RequestOf, SameEntry;
  }

  lemma StepWritesAtMostOneLine(b: Book, s: System, c: Call, answer: VenueAnswer)
    requires CallOk(s, c)
    ensures var (s', c') := Next(s, c, answer); Skips(b, s, c, s', c') || Files(b, s, c, s', c')
  {
    hide Next, CallOk, Skips, Files;
    match b
    case VenueLog => VenueStep(s, c, answer);
    case Trades(u) => TradesStep(s, c, answer, u);
    case Orders(u) => OrdersStep(s, c, answer, u);
    case Audit(u) => AuditBookStep(s, c, answer, u);
  }

  // ---- Every event keeps every book matched ------------------------------------------------------

  /** A request that writes nothing in the book leaves it matched. */
  lemma SkipKeepsMatched(b: Book, w: World, r: nat, s': System, c': Call)
    requires Matched(b, w) && r < |w.calls| && Skips(b, w.sys, w.calls[r], s', c')
    ensures Matched(b, World(s', w.calls[r := c']))
  {
    hide Filed, Position, Written, LineAt, Size;
    var w' := World(s', w.calls[r := c']);
    forall j | 0 <= j < Size(b, s') ensures SomebodyWrote(b, w'.calls, j) {
      assert SomebodyWrote(b, w.calls, j);
      var q :| 0 <= q < |w.calls| && WrittenBy(b, w.calls[q], j);
      assert WrittenBy(b, w'.calls[q], j);
    }
  }

  lemma FileKeepsMatched(b: Book, w: World, r: nat, s': System, c': Call)
    requires Matched(b, w) && r < |w.calls| && Files(b, w.sys, w.calls[r], s', c')
    ensures Matched(b, World(s', w.calls[r := c']))
  {
    hide Filed, Position, Written, LineAt, Size;
    var w' := World(s', w.calls[r := c']);
    forall q | 0 <= q < |w.calls| && q != r
      ensures Recorded(b, s', w'.calls[q]) && Apart(b, w'.calls[q], c') && Apart(b, c', w'.calls[q])
    {
      assert Recorded(b, w.sys, w.calls[q]);
    }
    forall j | 0 <= j < Size(b, s') ensures SomebodyWrote(b, w'.calls, j) {
      if j < Size(b, w.sys) {
        assert SomebodyWrote(b, w.calls, j);
        var q :| 0 <= q < |w.calls| && WrittenBy(b, w.calls[q], j);
        assert WrittenBy(b, w'.calls[q], j);
      } else {
        assert WrittenBy(b, w'.calls[r], j);
      }
    }
  }

  /** A request that has written nothing changes nothing. */
  lemma AppendKeepsMatched(b: Book, w: World, c: Call)
    requires Matched(b, w) && !Filed(b, c)
    ensures Matched(b, w.(calls := w.calls + [c]))
  {
    hide Filed, Position, Written, LineAt, Size;
    var w' := w.(calls := w.calls + [c]);
    forall r, q | 0 <= r < |w'.calls| && 0 <= q < |w'.calls| && r != q ensures Apart(b, w'.calls[r], w'.calls[q]) {
      if r < |w.calls| && q < |w.calls| { assert Apart(b, w.calls[r], w.calls[q]); }
    }
    forall j | 0 <= j < Size(b, w.sys) ensures SomebodyWrote(b, w'.calls, j) {
      assert SomebodyWrote(b, w.calls, j);
      var q :| 0 <= q < |w.calls| && WrittenBy(b, w.calls[q], j);
      assert WrittenBy(b, w'.calls[q], j);
    }
  }

  lemma ArriveKeepsMatched(b: Book, w: World, user: UserId, id: nat)
    requires Matched(b, w)
    ensures Matched(b, w.(calls := w.calls + [NewCall(user, id)]))
  {
    assert !Filed(b, NewCall(user, id));
    hide Matched, Filed;
    AppendKeepsMatched(b, w, NewCall(user, id));
  }

  /** Nothing but a request's own steps writes in the books. */
  lemma OtherEventsWriteNothing(b: Book, w: World, ev: Event)
    requires !ev.Step?
    ensures SameBook(b, w.sys, Apply(w, ev).sys)
  {
    hide Find, RiskEngine.Decide;
    var s, s' := w.sys, Apply(w, ev).sys;
    assert s'.venue == s.venue && s'.store.trades == s.store.trades && s'.store.orders == s.store.orders && s'.store.audit == s.store.audit;
    hide Apply;
  }

  lemma SameBookKeepsMatched(b: Book, w: World, s': System)
    requires Matched(b, w) && SameBook(b, w.sys, s')
    ensures Matched(b, w.(sys := s'))
  {
    hide Filed, Position, Written, LineAt, Size;
  }

  lemma ApplyKeepsMatched(b: Book, w: World, ev: Event)
    requires Matched(b, w) && Invariant(w)
    ensures Matched(b, Apply(w, ev))
  {
    hide Matched, ApplyToStore, Next, Skips, Files, CallOk, Spaced;
    match ev
    case Arrive(user, id) => ArriveKeepsMatched(b, w, user, id);
    case Step(r, answer) =>
      if r < |w.calls| {
        var (s', c') := Next(w.sys, w.calls[r], answer);
        StepWritesAtMostOneLine(b, w.sys, w.calls[r], answer);
        if Skips(b, w.sys, w.calls[r], s', c') {
          SkipKeepsMatched(b, w, r, s', c');
        } else {
          FileKeepsMatched(b, w, r, s', c');
        }
      }
    case _ =>
      OtherEventsTouchNoRequest(w, ev);
      OtherEventsWriteNothing(b, w, ev);
      SameBookKeepsMatched(b, w, Apply(w, ev).sys);
  }

  /**
   * In every state of every run each book is matched: each request that got that far wrote one
   * line, saying what its record says, no two requests wrote the same line, and there is no
   * line that no request wrote.
   */
  lemma {:induction false} BooksAreMatched(events: seq<Event>, b: Book)
    ensures Matched(b, Run(events))
  {
    if events == [] {
    } else {
      var init := events[..|events| - 1];
      BooksAreMatched(init, b);
      InvariantHolds(init);
      hide Matched, Invariant;
      ApplyKeepsMatched(b, Run(init), events[|events| - 1]);
    }
  }

  // ---- Books have as many lines as requests that wrote them --------------------------------------

  function FiledCount(b: Book, calls: seq<Call>): nat {
    if calls == [] then 0
    else FiledCount(b, calls[..|calls| - 1]) + if Filed(b, calls[|calls| - 1]) then 1 else 0
  }

  lemma {:induction false} CountAfterUpdate(b: Book, calls: seq<Call>, r: nat, c: Call)
    requires r < |calls|
    ensures FiledCount(b, calls[r := c]) + (if Filed(b, calls[r]) then 1 else 0)
         == FiledCount(b, calls) + if Filed(b, c) then 1 else 0
  {
    hide Filed;
    var n := |calls| - 1;
    if r == n {
      assert calls[r := c][..n] == calls[..n];
    } else {
      CountAfterUpdate(b, calls[..n], r, c);
      assert calls[r := c][..n] == calls[..n][r := c];
    }
  }

  lemma ApplyKeepsCount(b: Book, w: World, ev: Event)
    requires Invariant(w) && Size(b, w.sys) == FiledCount(b, w.calls)
    ensures Size(b, Apply(w, ev).sys) == FiledCount(b, Apply(w, ev).calls)
  {
    hide ApplyToStore, Next, CallOk, Spaced, LineAt, Written, Position, Size;
    match ev
    case Arrive(user, id) =>
      assert (w.calls + [NewCall(user, id)])[..|w.calls|] == w.calls;
    case Step(r, answer) =>
      if r < |w.calls| {
        StepWritesAtMostOneLine(b, w.sys, w.calls[r], answer);
        CountAfterUpdate(b, w.calls, r, Next(w.sys, w.calls[r], answer).1);
        hide FiledCount, Filed;
      }
    case _ =>
      OtherEventsTouchNoRequest(w, ev);
      OtherEventsWriteNothing(b, w, ev);
      hide Apply, FiledCount;
  }

  /** Every request writes exactly one line in each book it reaches, and nobody else writes. */
  lemma {:induction false} BookSizeIsRequestCount(events: seq<Event>, b: Book)
    ensures Size(b, Run(events).sys) == FiledCount(b, Run(events).calls)
  {
    if events == [] {
    } else {
      var init := events[..|events| - 1];
      BookSizeIsRequestCount(init, b);
      InvariantHolds(init);
      hide Invariant, FiledCount, Size;
      ApplyKeepsCount(b, Run(init), events[|events| - 1]);
    }
  }

  // ---- Conservation ------------------------------------------------------------------------------

  predicate AllDone(w: World) { forall r :: 0 <= r < |w.calls| ==> w.calls[r].phase == Done }

  /** The four lines of one executed entry, all telling the same story. */
  predicate EntryIsRecorded(s: System, c: Call) {
    && HasQty(c.row)
    && c.send < |s.venue| && s.venue[c.send] == Placement(RequestOf(c.row), Some(c.exchangeOrderId))
    && var req, trades, orders, audit :=
         s.venue[c.send].req, RowsOf(s.store.trades, c.user), RowsOf(s.store.orders, c.user), RowsOf(s.store.audit, c.user);
      && c.trade < |trades| && trades[c.trade].id == c.trade && trades[c.trade].mode == SemiAuto
      && trades[c.trade].pair == req.pair && trades[c.trade].side == req.side && trades[c.trade].qty == req.qty
      && c.order < |orders| && orders[c.order].tradeId == c.trade && orders[c.order].exchangeOrderId == c.exchangeOrderId
      && orders[c.order].side == req.side && orders[c.order].qty == req.qty
      && orders[c.order].idempotencyKey == req.idempotencyKey
      && c.audit < |audit| && audit[c.audit].action == "open_order" && audit[c.audit].approvalId == c.approvalId
      && audit[c.audit].idempotencyKey == Some(req.idempotencyKey)
      && audit[c.audit].exchangeOrderId == Some(c.exchangeOrderId) && audit[c.audit].tradeId == Some(c.trade)
  }

  /** Exactly one request wrote line `j`, and that request placed its order. */
  predicate OneFiller(b: Book, calls: seq<Call>, j: nat) {
    exists r :: 0 <= r < |calls| && calls[r].verdict == Executed && OnlyWriter(b, calls, r, j)
  }

  predicate OnlyWriter(b: Book, calls: seq<Call>, r: nat, j: nat)
    requires r < |calls|
  {
    WrittenBy(b, calls[r], j) && forall q :: 0 <= q < |calls| && q != r ==> !WrittenBy(b, calls[q], j)
  }

  lemma LineHasOneWriter(b: Book, w: World, j: nat) returns (r: nat)
    requires Matched(b, w) && j < Size(b, w.sys)
    ensures r < |w.calls| && OnlyWriter(b, w.calls, r, j) && LineAt(b, w.sys, j) == Written(b, w.calls[r])
  {
    hide Filed, Position, Written, LineAt, Size;
    assert SomebodyWrote(b, w.calls, j);
    r :| 0 <= r < |w.calls| && WrittenBy(b, w.calls[r], j);
    assert Recorded(b, w.sys, w.calls[r]);
    forall q | 0 <= q < |w.calls| && q != r ensures !WrittenBy(b, w.calls[q], j) {
      assert Apart(b, w.calls[q], w.calls[r]);
    }
  }

  /** A completed entry left its four matching lines. */
  lemma ExecutedIsRecorded(events: seq<Event>, r: nat)
    requires r < |Run(events).calls| && Run(events).calls[r].phase == Done && Run(events).calls[r].verdict == Executed
    ensures EntryIsRecorded(Run(events).sys, Run(events).calls[r])
  {
    var w, c := Run(events), Run(events).calls[r];
    InvariantHolds(events);
    BooksAreMatched(events, VenueLog);
    BooksAreMatched(events, Trades(c.user));
    BooksAreMatched(events, Orders(c.user));
    BooksAreMatched(events, Audit(c.user));
    hide Run, RequestOf;
    assert CallOk(w.sys, c);
    assert Recorded(VenueLog, w.sys, c) && Recorded(Trades(c.user), w.sys, c);
    assert Recorded(Orders(c.user), w.sys, c) && Recorded(Audit(c.user), w.sys, c);
    hide Matched, Invariant;
  }

  lemma LineOfFiller(b: Book, events: seq<Event>, j: nat)
    requires AllDone(Run(events)) && j < Size(b, Run(events).sys)
    requires b.VenueLog? ==> LineAt(b, Run(events).sys, j).p.accepted.Some?
    requires b.Audit? ==> LineAt(b, Run(events).sys, j).a.action == "open_order"
    ensures OneFiller(b, Run(events).calls, j)
  {
    var w := Run(events);
    InvariantHolds(events);
    BooksAreMatched(events, b);
    hide Run;
    var r := LineHasOneWriter(b, w, j);
    assert CallOk(w.sys, w.calls[r]);
    hide Matched, Invariant, OnlyWriter;
    assert w.calls[r].verdict == Executed;
  }

  /**
   * With no request in flight, accepted placements, trade rows, order rows and `open_order`
   * audit rows are all in one-to-one correspondence with the executed requests, and the four
   * lines of a request agree on key, pair, side, quantity and ids.
   */
  lemma LedgersAreConserved(events: seq<Event>)
    requires AllDone(Run(events))
    ensures var w := Run(events);
      && (forall r :: 0 <= r < |w.calls| && w.calls[r].verdict == Executed ==> EntryIsRecorded(w.sys, w.calls[r]))
      && (forall j :: 0 <= j < |w.sys.venue| && w.sys.venue[j].accepted.Some? ==> OneFiller(VenueLog, w.calls, j))
      && (forall u, j :: 0 <= j < |RowsOf(w.sys.store.trades, u)| ==> OneFiller(Trades(u), w.calls, j))
      && (forall u, j :: 0 <= j < |RowsOf(w.sys.store.orders, u)| ==> OneFiller(Orders(u), w.calls, j))
      && (forall u, j :: 0 <= j < |RowsOf(w.sys.store.audit, u)| && RowsOf(w.sys.store.audit, u)[j].action == "open_order"
            ==> OneFiller(Audit(u), w.calls, j))
  {
    var w := Run(events);
    forall r | 0 <= r < |w.calls| && w.calls[r].verdict == Executed ensures EntryIsRecorded(w.sys, w.calls[r]) {
      ExecutedIsRecorded(events, r);
    }
    hide Run, OneFiller, EntryIsRecorded, RowsOf;
    forall j | 0 <= j < |w.sys.venue| && w.sys.venue[j].accepted.Some? ensures OneFiller(VenueLog, w.calls, j) {
      LineOfFiller(VenueLog, events, j);
    }
    forall u, j | 0 <= j < |RowsOf(w.sys.store.trades, u)| ensures OneFiller(Trades(u), w.calls, j) {
      LineOfFiller(Trades(u), events, j);
    }
    forall u, j | 0 <= j < |RowsOf(w.sys.store.orders, u)| ensures OneFiller(Orders(u), w.calls, j) {
      LineOfFiller(Orders(u), events, j);
    }
    forall u, j | 0 <= j < |RowsOf(w.sys.store.audit, u)| && RowsOf(w.sys.store.audit, u)[j].action == "open_order"
      ensures OneFiller(Audit(u), w.calls, j)
    {
      LineOfFiller(Audit(u), events, j);
    }
  }

  /** The action an admitted request's audit row carries. */
  function AuditAction(v: Verdict): string {
    match v
    case Recorded => "approval_approved_no_exec"
    case Blocked(_) => "open_order_blocked"
    case NotPlaced(_, _) => "open_order_failed"
    case _ => "open_order"
  }

  /** Every completed approve call that got past the route wrote exactly one audit row, of the matching kind. */
  lemma CompletedCallIsAuditedOnce(events: seq<Event>, r: nat)
    requires r < |Run(events).calls|
    requires var c := Run(events).calls[r]; c.phase == Done && c.verdict != NotFound && c.verdict != Conflict
    ensures var w, c := Run(events), Run(events).calls[r];
      && c.audit < |RowsOf(w.sys.store.audit, c.user)| && OnlyWriter(Audit(c.user), w.calls, r, c.audit)
      && RowsOf(w.sys.store.audit, c.user)[c.audit].action == AuditAction(c.verdict)
      && RowsOf(w.sys.store.audit, c.user)[c.audit].approvalId == c.approvalId
  {
    var w, c := Run(events), Run(events).calls[r];
    InvariantHolds(events);
    BooksAreMatched(events, Audit(c.user));
    hide Run;
    assert CallOk(w.sys, c);
    assert Recorded(Audit(c.user), w.sys, c);
    var q := LineHasOneWriter(Audit(c.user), w, c.audit);
    assert WrittenBy(Audit(c.user), c, c.audit);
    assert q == r;
    hide Matched, Invariant, OnlyWriter;
  }

  // ---- A call that placed nothing changed nothing -------------------------------------------------

  predicate ResolvesNow(c: Call) { c.phase == ResolveFilled || c.phase == ResolveOnly }

  lemma VerdictIsKept(s: System, c: Call, answer: VenueAnswer)
    requires CallOk(s, c) && c.verdict != Undecided
    ensures Next(s, c, answer).1.verdict == c.verdict
  {
    if c.phase == Done {
    } else {
      WriteShape(s, c, answer);
      hide Next;
    }
  }

  /** A verdict, once reached, is final. */
  lemma {:induction false} VerdictIsFinal(events: seq<Event>, k: nat, r: nat)
    requires k <= |events| && r < |Run(events[..k]).calls| && Run(events[..k]).calls[r].verdict != Undecided
    ensures r < |Run(events).calls| && Run(events).calls[r].verdict == Run(events[..k]).calls[r].verdict
  {
    if k == |events| {
      assert events[..k] == events;
    } else {
      var init := events[..|events| - 1];
      assert init[..k] == events[..k];
      VerdictIsFinal(init, k, r);
      InvariantHolds(init);
      var w, ev := Run(init), events[|events| - 1];
      assert CallOk(w.sys, w.calls[r]);
      hide CallOk, Invariant, Next, ApplyToStore;
      match ev
      case Step(q, answer) =>
        if q == r { VerdictIsKept(w.sys, w.calls[r], answer); }
      case Arrive(_, _) =>
      case _ => OtherEventsTouchNoRequest(w, ev);
    }
  }

  /**
   * A request that ends blocked, refused as a duplicate or failed has, in every one of its own
   * steps, left all approvals exactly as it found them.
   */
  lemma NothingPlacedNothingResolved(events: seq<Event>, k: nat)
    requires k < |events| && events[k].Step?
    requires var r := events[k].call;
      r < |Run(events).calls| && (Run(events).calls[r].verdict.Blocked? || Run(events).calls[r].verdict.NotPlaced?)
    ensures Run(events[..k + 1]).sys.store.approvals == Run(events[..k]).sys.store.approvals
  {
    var r, w := events[k].call, Run(events[..k]);
    assert events[..k + 1][..k] == events[..k];
    RunAppend(events[..k], events[k]);
    assert events[..k + 1] == events[..k] + [events[k]];
    InvariantHolds(events[..k]);
    if r < |w.calls| {
      assert CallOk(w.sys, w.calls[r]);
      if ResolvesNow(w.calls[r]) { VerdictIsFinal(events, k, r); }
      hide Run, CallOk, Invariant;
      OnlyResolveTouchesApprovals(w.sys, w.calls[r], events[k].answer);
    }
  }

  lemma OnlyResolveTouchesApprovals(s: System, c: Call, answer: VenueAnswer)
    requires !ResolvesNow(c)
    ensures Next(s, c, answer).0.store.approvals == s.store.approvals
  {
  }

  // ---- At the venue --------------------------------------------------------------------------------

  /** Orders `i` and `j` were sent by requests `r` and `q`, for different approvals. */
  predicate DifferentApprovals(calls: seq<Call>, r: nat, i: nat, q: nat, j: nat) {
    && r < |calls| && q < |calls| && calls[r].approvalId != calls[q].approvalId
    && OnlyWriter(VenueLog, calls, r, i) && OnlyWriter(VenueLog, calls, q, j)
  }

  /** At most one fill per approval, read off the venue log: two accepted orders have different approvals. */
  lemma VenueFillsEachApprovalOnce(events: seq<Event>, read: real, hold: real, i: nat, j: nat)
    requires AlwaysPrompt(events, read, hold) && 0.0 <= hold && read + hold < 60.0
    requires i < |Run(events).sys.venue| && j < |Run(events).sys.venue| && i != j
    requires Run(events).sys.venue[i].accepted.Some? && Run(events).sys.venue[j].accepted.Some?
    ensures exists r: nat, q: nat :: DifferentApprovals(Run(events).calls, r, i, q, j)
  {
    var w := Run(events);
    InvariantHolds(events);
    BooksAreMatched(events, VenueLog);
    var r := LineHasOneWriter(VenueLog, w, i);
    var q := LineHasOneWriter(VenueLog, w, j);
    var c, d := w.calls[r], w.calls[q];
    assert CallOk(w.sys, c) && CallOk(w.sys, d);
    assert WrittenBy(VenueLog, c, i) && WrittenBy(VenueLog, d, j);
    if c.row.id == d.row.id { AtMostOneFill(events, read, hold, r, q); }
    hide Run, Matched, Invariant, OnlyWriter, AlwaysPrompt;
    assert DifferentApprovals(w.calls, r, i, q, j);
  }
}
