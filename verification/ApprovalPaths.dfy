/** What one approve request does when nobody interrupts it: its ways through the protocol. */
module ApprovalPaths {
  import opened Shared
  import opened RiskEngine
  import opened Idempotency
  import opened Store
  import opened Executor
  import opened Approvals

  /** What the call returns to the client. */
  datatype Reply =
    | Row(resolved: Option<Approval>)                                            // the resolved approval
    | NotExecuted(status: string, reason: string, approvalId: nat)
    | Order(exchangeOrderId: Option<string>, tradeId: nat, orderId: nat, pair: string, side: Side, qty: real)
    | HttpError(code: int, detail: string)

  function StatusText(s: ExecutionStatus): string {
    match s
    case Filled => "filled"
    case Failed => "failed"
    case Duplicate => "duplicate"
    case Rejected => "rejected"
  }

  /** The reply of a finished request. */
  function ReplyOf(s: System, c: Call): Reply {
    match c.verdict
    case Recorded =>
      Row(match Find(s.store.approvals, c.user, c.row.id) case None => None case Some(i) => Some(s.store.approvals[i]))
    case Blocked(why) => NotExecuted("blocked", why, c.row.id)
    case NotPlaced(status, reason) => NotExecuted(StatusText(status), reason, c.row.id)
    case Executed =>
      Order(Some(c.exchangeOrderId), c.trade, c.order, c.row.pair, c.row.side, if c.row.qty.Some? then c.row.qty.value else 0.0)
    case Conflict =>
      (match Find(s.store.approvals, c.user, c.approvalId)
       case None => HttpError(409, "approval already decided")
       case Some(i) => HttpError(409, "approval already " + s.store.approvals[i].status))
    case _ => HttpError(404, "approval not found")
  }

  // ---- Steps with nobody in between --------------------------------------------------------------

  lemma StepsAdd(s: System, c: Call, answer: VenueAnswer, n: nat)
    requires n > 0
    ensures RunAlone(s, c, answer, n) == RunAlone(Next(s, c, answer).0, Next(s, c, answer).1, answer, n - 1)
  {
  }

  lemma {:induction false} DoneIsDone(s: System, c: Call, answer: VenueAnswer, n: nat)
    requires c.phase == Done
    ensures RunAlone(s, c, answer, n) == (s, c)
  {
    if n == 0 {
    } else {
      DoneIsDone(s, c, answer, n - 1);
    }
  }

  // ---- The ways through the protocol, for a request nobody interrupts --------------------------

  lemma RecordedPath(s: System, c: Call, answer: VenueAnswer)
    requires c.phase == ReadMode && !ShouldExecute(ModeOf(s.store, c.user))
    ensures var c1 := ReadModeStep(s, c);
      RunAlone(s, c, answer, 8) == AuditStep(ResolveStep(s, c1), c1.(phase := AuditOnly))
  {
    hide RunAlone, ResolveStep, AuditRowOf, ShouldExecute;
    var c1 := ReadModeStep(s, c);
    var (s3, c3) := AuditStep(ResolveStep(s, c1), c1.(phase := AuditOnly));
    StepsAdd(s, c, answer, 8);
    StepsAdd(s, c1, answer, 7);
    StepsAdd(ResolveStep(s, c1), c1.(phase := AuditOnly), answer, 6);
    DoneIsDone(s3, c3, answer, 5);
  }

  lemma BlockedPath(s: System, c: Call, answer: VenueAnswer)
    requires c.phase == ReadMode && ShouldExecute(ModeOf(s.store, c.user))
    requires !Connected(s.store, c.user, VENUE) || !HasQty(c.row)
    ensures RunAlone(s, c, answer, 8) == AuditStep(s, ReadConnectionStep(s, ReadModeStep(s, c)))
  {
    hide RunAlone, AuditRowOf, ShouldExecute, Connected, HasQty;
    var c1 := ReadModeStep(s, c);
    var c2 := ReadConnectionStep(s, c1);
    StepsAdd(s, c, answer, 8);
    StepsAdd(s, c1, answer, 7);
    StepsAdd(s, c2, answer, 6);
    DoneIsDone(AuditStep(s, c2).0, AuditStep(s, c2).1, answer, 5);
  }

  /** The request as it stands before its claim. */
  function AtClaim(s: System, c: Call): Call { c.(phase := ClaimKey, modeRead := ModeOf(s.store, c.user)) }

  lemma LivePath(s: System, c: Call, answer: VenueAnswer)
    requires c.phase == ReadMode && ShouldExecute(ModeOf(s.store, c.user))
    requires Connected(s.store, c.user, VENUE) && HasQty(c.row)
    ensures var (s1, c1) := ClaimStep(s, AtClaim(s, c)); RunAlone(s, c, answer, 8) == RunAlone(s1, c1, answer, 5)
  {
    hide RunAlone, ShouldExecute, Connected, HasQty, ClaimStep;
    StepsAdd(s, c, answer, 8);
    StepsAdd(s, ReadModeStep(s, c), answer, 7);
    StepsAdd(s, AtClaim(s, c), answer, 6);
  }

  /** Failed or duplicate: only the audit row is written. */
  lemma FailedPath(s: System, c: Call, answer: VenueAnswer)
    requires c.phase == AuditFailed || (c.phase == PlaceOrder && HasQty(c.row) && !answer.Accepted?)
    ensures RunAlone(s, c, answer, 5) ==
            if c.phase == AuditFailed then AuditStep(s, c) else AuditStep(SendStep(s, c, answer).0, SendStep(s, c, answer).1)
  {
    hide RunAlone, AuditRowOf, RequestOf;
    StepsAdd(s, c, answer, 5);
    if c.phase == AuditFailed {
      DoneIsDone(AuditStep(s, c).0, AuditStep(s, c).1, answer, 4);
    } else {
      var (s1, c1) := SendStep(s, c, answer);
      StepsAdd(s1, c1, answer, 4);
      DoneIsDone(AuditStep(s1, c1).0, AuditStep(s1, c1).1, answer, 3);
    }
  }

  /** What a fill leaves: a trade row, an order row, a resolved approval and an audit row. */
  function Recording(s: System, c: Call): (System, Call)
    requires HasQty(c.row)
  {
    var (s1, c1) := TradeStep(s, c);
    var (s2, c2) := OrderStep(s1, c1);
    AuditStep(ResolveStep(s2, c2), c2.(phase := AuditFilled))
  }

  lemma FilledPath(s: System, c: Call, answer: VenueAnswer)
    requires c.phase == PlaceOrder && HasQty(c.row) && answer.Accepted?
    ensures RunAlone(s, c, answer, 5) == Recording(SendStep(s, c, answer).0, SendStep(s, c, answer).1)
  {
    hide RunAlone, AuditRowOf, RequestOf, ResolveStep, TradeRowOf, OrderRowOf, HasQty;
    var (s0, c0) := SendStep(s, c, answer);
    var (s1, c1) := TradeStep(s0, c0);
    var (s2, c2) := OrderStep(s1, c1);
    var s3, c3 := ResolveStep(s2, c2), c2.(phase := AuditFilled);
    StepsAdd(s, c, answer, 5);
    StepsAdd(s0, c0, answer, 4);
    StepsAdd(s1, c1, answer, 3);
    StepsAdd(s2, c2, answer, 2);
    StepsAdd(s3, c3, answer, 1);
    DoneIsDone(AuditStep(s3, c3).0, AuditStep(s3, c3).1, answer, 0);
  }

  // ---- What the request leaves behind --------------------------------------------------------------

  /** The stored mode lets an approval reach the venue. */
  predicate LiveAllowed(st: State, user: UserId) {
    user in st.mode && st.mode[user].mode == SemiAuto && st.mode[user].liveUnlocked && !st.mode[user].protectionLock
  }

  lemma GuardMeaning(st: State, user: UserId)
    ensures ShouldExecute(ModeOf(st, user)) <==> LiveAllowed(st, user)
  {
  }

  /** `row` ends the user's audit log; nothing else changed. */
  predicate OnlyAudited(st: State, st': State, user: UserId, row: AuditRow) {
    st' == st.(audit := Append(st.audit, user, row.(id := |RowsOf(st.audit, user)|)))
  }

  /** Mode and switches as the audit log words them; a user without a stored mode is in paper mode. */
  function NoExecText(st: State, user: UserId): string {
    var (mode, unlocked, locked) :=
      if user in st.mode then (ModeText(st.mode[user].mode), BoolText(st.mode[user].liveUnlocked), BoolText(st.mode[user].protectionLock))
      else ("paper", "False", "False");
    "no live execution: mode=" + mode + " live_unlocked=" + unlocked + " locked=" + locked
  }

  lemma NoExecWording(st: State, user: UserId)
    ensures NoExecReason(ModeOf(st, user)) == NoExecText(st, user)
  {
  }

  /**
   * With the protection lock set, live trading locked, or any mode but semi-auto, the approval is
   * resolved and audited, and neither the venue nor the claim map is touched.
   */
  lemma NotLiveOutcome(s: System, c: Call, answer: VenueAnswer)
    requires c.phase == ReadMode
    requires c.user in s.store.mode ==>
      var m := s.store.mode[c.user];
      m.mode != SemiAuto || !m.liveUnlocked || m.protectionLock
    ensures var (s', d) := RunAlone(s, c, answer, 8);
      && d.phase == Done && s' == s.(store := s'.store)
      && OnlyAudited(Resolve(s.store, c.user, c.row.id, "approve"), s'.store, c.user,
                     AuditRow(0, "human", "approval_approved_no_exec", NoExecText(s.store, c.user), c.row.id, None, None, None))
      && ReplyOf(s', d) == Row(match Find(s'.store.approvals, c.user, c.row.id)
                               case None => None case Some(i) => Some(s'.store.approvals[i]))
  {
    GuardMeaning(s.store, c.user);
    NoExecWording(s.store, c.user);
    RecordedPath(s, c, answer);
    ResolveTouchesQueue(s.store, c.user, c.row.id);
    hide RunAlone, Find, Resolve, ShouldExecute, NoExecReason, NoExecText;
  }

  /** Without a connection to the venue, or without a quantity, only the audit log changes. */
  lemma BlockedOutcome(s: System, c: Call, answer: VenueAnswer)
    requires c.phase == ReadMode && LiveAllowed(s.store, c.user)
    requires Connection(c.user, "bitunix") !in s.store.connections || c.row.qty.None? || c.row.qty.value <= 0.0
    ensures var (s', d) := RunAlone(s, c, answer, 8);
      var why := if Connection(c.user, "bitunix") !in s.store.connections then "no_bitunix_connection" else "approval_missing_qty";
      && d.phase == Done && s' == s.(store := s'.store) && ReplyOf(s', d) == NotExecuted("blocked", why, c.row.id)
      && OnlyAudited(s.store, s'.store, c.user,
                     AuditRow(0, "execution_engine", "open_order_blocked", why, c.row.id, None, None, None))
  {
    GuardMeaning(s.store, c.user);
    ConnectedMeaning(s.store, c.user);
    BlockedPath(s, c, answer);
    hide RunAlone, Find, ShouldExecute, Connected;
  }

  lemma ConnectedMeaning(st: State, user: UserId)
    ensures Connected(st, user, VENUE) <==> Connection(user, "bitunix") in st.connections
  {
  }

  /** The request passed every check before the claim. */
  predicate ReadyToClaim(s: System, c: Call) {
    && c.phase == ReadMode && LiveAllowed(s.store, c.user) && Connection(c.user, "bitunix") in s.store.connections
    && c.row.qty.Some? && c.row.qty.value > 0.0
  }

  /** With the key still claimed nothing is sent, and only the audit log changes. */
  lemma DuplicateOutcome(s: System, c: Call, answer: VenueAnswer)
    requires ReadyToClaim(s, c) && c.row.idempotencyKey in s.keys && s.keys[c.row.idempotencyKey] > s.clock
    ensures var (s', d) := RunAlone(s, c, answer, 8);
      && d.phase == Done && s' == s.(store := s'.store)
      && ReplyOf(s', d) == NotExecuted("duplicate", "idempotency_key_already_claimed", c.row.id)
      && OnlyAudited(s.store, s'.store, c.user,
                     AuditRow(0, "execution_engine", "open_order_failed", "idempotency_key_already_claimed", c.row.id, None,
                              Some(c.row.idempotencyKey), None))
  {
    hide RunAlone, Find, ReadyToClaim, AuditStep, ClaimStep, AtClaim;
    ReachesClaim(s, c, answer);
    ClaimHeld(s, c);
    FailedPath(s, ClaimStep(s, AtClaim(s, c)).1, answer);
    AuditMeaning(s, ClaimStep(s, AtClaim(s, c)).1);
  }

  lemma ClaimHeld(s: System, c: Call)
    requires c.row.idempotencyKey in s.keys && s.keys[c.row.idempotencyKey] > s.clock
    ensures var (s1, c1) := ClaimStep(s, AtClaim(s, c));
      && s1 == s && c1.phase == AuditFailed && c1.verdict == NotPlaced(Duplicate, "idempotency_key_already_claimed")
      && c1.row == c.row && c1.user == c.user
  {
  }

  lemma ClaimTaken(s: System, c: Call)
    requires ReadyToClaim(s, c) && (c.row.idempotencyKey in s.keys ==> s.keys[c.row.idempotencyKey] <= s.clock)
    ensures var (s1, c1) := ClaimStep(s, AtClaim(s, c));
      && s1 == s.(keys := s.keys[c.row.idempotencyKey := s.clock + 60.0]) && c1.phase == PlaceOrder
      && c1.row == c.row && c1.user == c.user && c1.modeRead.mode == SemiAuto && HasQty(c.row)
  {
  }

  /** An audit step files the row of its verdict and nothing else. */
  lemma AuditMeaning(s: System, c: Call)
    ensures var (s', d) := AuditStep(s, c);
      && s' == s.(store := s'.store) && OnlyAudited(s.store, s'.store, c.user, AuditRowOf(c, 0))
      && d.phase == Done && d.verdict == c.verdict && d.row == c.row && d.user == c.user && d.trade == c.trade
      && d.order == c.order && d.exchangeOrderId == c.exchangeOrderId
  {
  }

  /** Sending the order for a row appends it to the venue's log, with the venue's answer. */
  lemma SendMeaning(s: System, c: Call, answer: VenueAnswer)
    requires HasQty(c.row)
    ensures var (s', d) := SendStep(s, c, answer);
      && s' == s.(venue := s.venue + [Placement(OrderFor(c.row), if answer.Accepted? then Some(answer.exchangeOrderId) else None)])
      && d.row == c.row && d.user == c.user && d.modeRead == c.modeRead
      && (answer.Accepted? ==> d.verdict == Executed && d.exchangeOrderId == answer.exchangeOrderId)
      && (answer.ConnectorErr? ==> d.verdict == NotPlaced(Failed, "connector_error:" + answer.text))
      && (answer.UnexpectedErr? ==> d.verdict == NotPlaced(Failed, "unexpected_error:" + answer.text))
  {
  }

  lemma ReachesClaim(s: System, c: Call, answer: VenueAnswer)
    requires ReadyToClaim(s, c)
    ensures var (s1, c1) := ClaimStep(s, AtClaim(s, c)); RunAlone(s, c, answer, 8) == RunAlone(s1, c1, answer, 5)
    ensures AtClaim(s, c).modeRead.mode == SemiAuto
  {
    GuardMeaning(s.store, c.user);
    ConnectedMeaning(s.store, c.user);
    hide RunAlone, Connected;
    LivePath(s, c, answer);
  }

  /** The order for a queue row, field by field. */
  function OrderFor(row: Approval): OrderRequest
    requires row.qty.Some?
  {
    var target := if row.takeProfits == [] then None else Some(row.takeProfits[0]);
    OrderRequest(row.pair, row.side, Market, row.qty.value, false, Some(row.leverage), row.idempotencyKey, Some(row.stopLoss), target)
  }

  /** A key that is free is claimed for a minute, and the order for the row is sent once. */
  predicate SentOnce(s: System, s': System, row: Approval, accepted: Option<string>)
    requires row.qty.Some?
  {
    && s'.keys == s.keys[row.idempotencyKey := s.clock + 60.0] && s'.clock == s.clock
    && s'.venue == s.venue + [Placement(OrderFor(row), accepted)]
  }

  /** If the venue does not accept, the claim stays, the approval stays pending, and the audit log says why. */
  lemma RefusedOutcome(s: System, c: Call, answer: VenueAnswer)
    requires ReadyToClaim(s, c) && !answer.Accepted?
    requires c.row.idempotencyKey in s.keys ==> s.keys[c.row.idempotencyKey] <= s.clock
    ensures var (s', d) := RunAlone(s, c, answer, 8);
      var why := (if answer.ConnectorErr? then "connector_error:" else "unexpected_error:") + answer.text;
      && d.phase == Done && SentOnce(s, s', c.row, None) && ReplyOf(s', d) == NotExecuted("failed", why, c.row.id)
      && OnlyAudited(s.store, s'.store, c.user,
                     AuditRow(0, "execution_engine", "open_order_failed", why, c.row.id, None, Some(c.row.idempotencyKey), None))
  {
    hide RunAlone, Find, ReadyToClaim, AuditStep, ClaimStep, AtClaim, SendStep, OrderFor;
    var (s1, c1) := ClaimStep(s, AtClaim(s, c));
    ReachesClaim(s, c, answer);
    ClaimTaken(s, c);
    FailedPath(s1, c1, answer);
    SendMeaning(s1, c1, answer);
    AuditMeaning(SendStep(s1, c1, answer).0, SendStep(s1, c1, answer).1);
  }

  /** A filled order leaves one trade, one order that names it, one audit row, and the approval approved. */
  lemma FilledOutcome(s: System, c: Call, answer: VenueAnswer)
    requires ReadyToClaim(s, c) && answer.Accepted?
    requires c.row.idempotencyKey in s.keys ==> s.keys[c.row.idempotencyKey] <= s.clock
    ensures var (s', d) := RunAlone(s, c, answer, 8);
      var row, trade, order := c.row, |RowsOf(s.store.trades, c.user)|, |RowsOf(s.store.orders, c.user)|;
      && d.phase == Done && SentOnce(s, s', row, Some(answer.exchangeOrderId))
      && ReplyOf(s', d) == Order(Some(answer.exchangeOrderId), trade, order, row.pair, row.side, row.qty.value)
      && s'.store.approvals == Resolve(s.store, c.user, row.id, "approve").approvals
      && s'.store.trades == Append(s.store.trades, c.user,
           TradeRow(trade, row.pair, row.side, SemiAuto, if row.entry == 0.0 then None else Some(row.entry), row.qty.value, Some(row.leverage)))
      && s'.store.orders == Append(s.store.orders, c.user,
           OrderRow(order, trade, answer.exchangeOrderId, row.side, row.qty.value, row.idempotencyKey))
      && s'.store.audit == Append(s.store.audit, c.user,
           AuditRow(|RowsOf(s.store.audit, c.user)|, "execution_engine", "open_order", "ok", row.id, Some(answer.exchangeOrderId),
                    Some(row.idempotencyKey), Some(trade)))
      && s'.store.mode == s.store.mode && s'.store.connections == s.store.connections && s'.store.signals == s.store.signals
  {
    hide RunAlone, Find, Resolve, ReadyToClaim, Recording, ClaimStep, AtClaim, SendStep, OrderFor;
    var (s1, c1) := ClaimStep(s, AtClaim(s, c));
    ReachesClaim(s, c, answer);
    ClaimTaken(s, c);
    FilledPath(s1, c1, answer);
    SendMeaning(s1, c1, answer);
    RecordingMeaning(SendStep(s1, c1, answer).0, SendStep(s1, c1, answer).1);
  }

  lemma RecordingMeaning(s: System, c: Call)
    requires HasQty(c.row) && c.verdict == Executed && c.modeRead.mode == SemiAuto
    ensures var (s', d) := Recording(s, c);
      var row, trade, order := c.row, |RowsOf(s.store.trades, c.user)|, |RowsOf(s.store.orders, c.user)|;
      && d.phase == Done && d.verdict == Executed && d.row == row && d.exchangeOrderId == c.exchangeOrderId
      && d.trade == trade && d.order == order && s' == s.(store := s'.store)
      && s'.store.approvals == Resolve(s.store, c.user, row.id, "approve").approvals
      && s'.store.trades == Append(s.store.trades, c.user,
           TradeRow(trade, row.pair, row.side, SemiAuto, if row.entry == 0.0 then None else Some(row.entry), row.qty.value, Some(row.leverage)))
      && s'.store.orders == Append(s.store.orders, c.user,
           OrderRow(order, trade, c.exchangeOrderId, row.side, row.qty.value, row.idempotencyKey))
      && s'.store.audit == Append(s.store.audit, c.user,
           AuditRow(|RowsOf(s.store.audit, c.user)|, "execution_engine", "open_order", "ok", row.id, Some(c.exchangeOrderId),
                    Some(row.idempotencyKey), Some(trade)))
      && s'.store.mode == s.store.mode && s'.store.connections == s.store.connections && s'.store.signals == s.store.signals
  {
    hide Append;
    var (s1, c1) := TradeStep(s, c);
    var (s2, c2) := OrderStep(s1, c1);
    ResolveTouchesQueue(s2.store, c.user, c.row.id);
    ResolveSeesQueue(s2.store, s.store, c.user, c.row.id);
    hide Find, Resolve;
  }

  lemma ResolveTouchesQueue(st: State, user: UserId, id: nat)
    ensures Resolve(st, user, id, "approve") == st.(approvals := Resolve(st, user, id, "approve").approvals)
  {
    hide Find;
  }

  lemma ResolveSeesQueue(st: State, other: State, user: UserId, id: nat)
    requires st.approvals == other.approvals
    ensures Resolve(st, user, id, "approve").approvals == Resolve(other, user, id, "approve").approvals
  {
    hide Find;
  }

  /**
   * Together: a request leaves venue and claims alone unless it was allowed to trade and its key was
   * free; then the key is claimed for a minute, and exactly the order for its row is sent.
   */
  lemma SendsOnlyIfAllowed(s: System, c: Call, answer: VenueAnswer)
    requires c.phase == ReadMode
    ensures var s' := RunAlone(s, c, answer, 8).0;
      s'.venue != s.venue || s'.keys != s.keys ==>
        && c.user in s.store.mode && s.store.mode[c.user].mode == SemiAuto
        && s.store.mode[c.user].liveUnlocked && !s.store.mode[c.user].protectionLock
        && Connection(c.user, "bitunix") in s.store.connections && c.row.qty.Some? && c.row.qty.value > 0.0
        && (c.row.idempotencyKey in s.keys ==> s.keys[c.row.idempotencyKey] <= s.clock)
        && SentOnce(s, s', c.row, if answer.Accepted? then Some(answer.exchangeOrderId) else None)
  {
    hide RunAlone, SentOnce, OnlyAudited, ReplyOf, OrderFor, Find, Resolve, Append, RowsOf;
    if !LiveAllowed(s.store, c.user) {
      NotLiveOutcome(s, c, answer);
    } else if !ReadyToClaim(s, c) {
      BlockedOutcome(s, c, answer);
    } else if c.row.idempotencyKey in s.keys && s.keys[c.row.idempotencyKey] > s.clock {
      DuplicateOutcome(s, c, answer);
    } else if answer.Accepted? {
      FilledOutcome(s, c, answer);
    } else {
      RefusedOutcome(s, c, answer);
    }
  }

  /** Resolving changes the status of the first row with this id and owner, and of no other. */
  lemma ResolveMeaning(st: State, user: UserId, id: nat, action: string, i: nat)
    requires i < |st.approvals|
    ensures var st' := Resolve(st, user, id, action);
      && st' == st.(approvals := st'.approvals) && |st'.approvals| == |st.approvals|
      && st'.approvals[i] == st.approvals[i].(status :=
           if st.approvals[i].id == id && st.approvals[i].user == user
              && (forall j :: 0 <= j < i ==> st.approvals[j].id != id || st.approvals[j].user != user)
           then action else st.approvals[i].status)
  {
    FirstOfItsKind(st.approvals, user, id, 0);
  }

  lemma {:induction false} FirstOfItsKind(rows: seq<Approval>, user: UserId, id: nat, i: nat)
    requires i <= |rows|
    ensures FindFrom(rows, user, id, i).Some? ==>
      forall j :: i <= j < FindFrom(rows, user, id, i).value ==> rows[j].id != id || rows[j].user != user
    decreases |rows| - i
  {
    if i == |rows| || (rows[i].id == id && rows[i].user == user) {
    } else {
      FirstOfItsKind(rows, user, id, i + 1);
    }
  }
}
