/** The approve call as written, over the mutable store, claim map and venue. */
module Coordinator {
  import opened Shared
  import opened RiskEngine
  import opened Idempotency
  import opened Store
  import opened Executor
  import opened Approvals
  import opened ApprovalSafety
  import opened ApprovalPaths

  function Snapshot(store: InMemoryStore, idem: InMemoryIdempotencyStore, venue: Venue, clock: real): System
    reads store, idem, venue
  {
    System(store.Contents(), idem.keys, clock, venue.log)
  }

  /** A resolved row is still found where it was. */
  lemma ResolveKeepsFind(st: State, user: UserId, id: nat, action: string)
    ensures Find(Resolve(st, user, id, action).approvals, user, id) == Find(st.approvals, user, id)
  {
    var i := Find(st.approvals, user, id);
    if i.Some? { StatusIsNotSearched(st.approvals, i.value, action, user, id, 0); }
  }

  lemma {:induction false} StatusIsNotSearched(rows: seq<Approval>, i: nat, status: string, user: UserId, id: nat, j: nat)
    requires i < |rows| && j <= |rows|
    ensures FindFrom(rows[i := rows[i].(status := status)], user, id, j) == FindFrom(rows, user, id, j)
    decreases |rows| - j
  {
    if j == |rows| {
    } else {
      StatusIsNotSearched(rows, i, status, user, id, j + 1);
    }
  }

  /** The request the route hands over. */
  function Admit(user: UserId, approval: Approval, clock: real): Call {
    NewCall(user, approval.id).(phase := ReadMode, row := approval, readAt := clock)
  }

  /** Outside the live path: the approval is resolved and audited, nothing is sent. */
  method RecordOnly(store: InMemoryStore, user: UserId, approval: Approval, m: ModeState, ghost s: System, ghost c: Call)
    returns (reply: Reply)
    requires c.user == user && c.row == approval && c.verdict == Recorded && c.modeRead == m && s.store == store.Contents()
    modifies store
    ensures var (s', c') := AuditStep(ResolveStep(s, c), c.(phase := AuditOnly));
      c'.phase == Done && s' == s.(store := store.Contents()) && reply == ReplyOf(s', c')
  {
    ResolveKeepsFind(store.Contents(), user, approval.id, APPROVE);
    hide Find;
    var resolved := store.ResolveApproval(user, approval.id, APPROVE);
    assert ResolveStep(s, c).store == store.Contents();
    var _ := store.AddAuditLog(user, AuditRow(0, "human", "approval_approved_no_exec", NoExecReason(m), approval.id,
                                              None, None, None));
    reply := Row(resolved);
  }

  /** Blocked: an audit row, and the approval stays pending. */
  method RecordBlock(store: InMemoryStore, user: UserId, approval: Approval, why: string, ghost s: System, ghost c: Call)
    returns (reply: Reply)
    requires c.user == user && c.row == approval && c.verdict == Blocked(why) && s.store == store.Contents()
    modifies store
    ensures var (s', c') := AuditStep(s, c);
      c'.phase == Done && s' == s.(store := store.Contents()) && reply == ReplyOf(s', c')
  {
    var _ := store.AddAuditLog(user, AuditRow(0, "execution_engine", "open_order_blocked", why, approval.id, None, None, None));
    reply := NotExecuted("blocked", why, approval.id);
  }

  /** Failed or duplicate: an audit row, and the approval stays pending. */
  method RecordFailure(store: InMemoryStore, user: UserId, approval: Approval, report: ExecutionReport,
                       ghost s: System, ghost c: Call)
    returns (reply: Reply)
    requires c.user == user && c.row == approval && c.verdict == NotPlaced(report.status, report.reason)
    requires report.idempotencyKey == approval.idempotencyKey && s.store == store.Contents()
    modifies store
    ensures var (s', c') := AuditStep(s, c);
      c'.phase == Done && s' == s.(store := store.Contents()) && reply == ReplyOf(s', c')
  {
    var _ := store.AddAuditLog(user, AuditRow(0, "execution_engine", "open_order_failed", report.reason, approval.id,
                                              None, Some(report.idempotencyKey), None));
    reply := NotExecuted(StatusText(report.status), report.reason, approval.id);
  }

  /** After a fill: trade row, order row, resolve, audit row. */
  method RecordFill(store: InMemoryStore, user: UserId, approval: Approval, req: OrderRequest, report: ExecutionReport,
                    mode: Mode, ghost s: System, ghost c: Call)
    returns (reply: Reply)
    requires HasQty(approval) && req == RequestOf(approval) && report == SendReport(req, Accepted(c.exchangeOrderId))
    requires c.phase == AddTrade && c.verdict == Executed && c.user == user && c.row == approval && c.modeRead.mode == mode
    requires s.store == store.Contents()
    modifies store
    ensures var (s', c') := Recording(s, c);
      c'.phase == Done && s' == s.(store := store.Contents()) && reply == ReplyOf(s', c')
  {
    hide Find;
    ghost var (s1, c1) := TradeStep(s, c);
    var trade := store.AddTrade(user, TradeRow(0, req.pair, req.side, mode, Truthy(Some(approval.entry)), req.qty, req.leverage));
    assert s1.store == store.Contents();
    ghost var (s2, c2) := OrderStep(s1, c1);
    var order := store.AddOrder(user, OrderRow(0, trade.id, report.exchangeOrderId.value, req.side, req.qty, report.idempotencyKey));
    assert s2.store == store.Contents();
    var _ := store.ResolveApproval(user, approval.id, APPROVE);
    assert ResolveStep(s2, c2).store == store.Contents();
    var _ := store.AddAuditLog(user, AuditRow(0, "execution_engine", "open_order", report.reason, approval.id,
                                              report.exchangeOrderId, Some(report.idempotencyKey), Some(trade.id)));
    reply := Order(report.exchangeOrderId, trade.id, order.id, req.pair, req.side, req.qty);
  }

  /** The live path from the order request on. */
  method Execute(store: InMemoryStore, user: UserId, approval: Approval, venue: Venue, idem: InMemoryIdempotencyStore,
                 mode: Mode, clock: real, answer: VenueAnswer, ghost c: Call)
    returns (reply: Reply)
    requires c.phase == ClaimKey && c.user == user && c.row == approval && c.modeRead.mode == mode == SemiAuto
    requires HasQty(approval)
    modifies store, venue, idem
    ensures var (s1, c1) := ClaimStep(old(Snapshot(store, idem, venue, clock)), c);
      var (s, d) := RunAlone(s1, c1, answer, 5);
      d.phase == Done && Snapshot(store, idem, venue, clock) == s && reply == ReplyOf(s, d)
  {
    hide RunAlone, Find;
    ghost var (s1, c1) := ClaimStep(Snapshot(store, idem, venue, clock), c);
    var qty := approval.qty.value;
    var req := OrderRequest(approval.pair, approval.side, Market, qty, false, Some(approval.leverage),
                            approval.idempotencyKey, Some(approval.stopLoss),
                            if |approval.takeProfits| > 0 then Some(approval.takeProfits[0]) else None);
    var report := OpenPosition(req, venue, idem, mode, clock, answer);
    hide AuditStep, Recording, ReplyOf, Refusal;
    if report.Placed() {
      FilledPath(s1, c1, answer);
      reply := RecordFill(store, user, approval, req, report, mode, SendStep(s1, c1, answer).0, SendStep(s1, c1, answer).1);
    } else {
      FailedPath(s1, c1, answer);
      if c1.phase == PlaceOrder { s1, c1 := SendStep(s1, c1, answer).0, SendStep(s1, c1, answer).1; }
      reply := RecordFailure(store, user, approval, report, s1, c1);
    }
  }

  /**
   * `handle_approval_approve`, with nobody in between: it does what eight steps of the
   * protocol do, and replies accordingly. Unless the stored mode is semi-auto, unlocked for
   * live trading and without protection lock, neither the venue nor the claim map is touched.
   */
  method HandleApprovalApprove(store: InMemoryStore, user: UserId, approval: Approval, venue: Venue,
                               idem: InMemoryIdempotencyStore, clock: real, answer: VenueAnswer)
    returns (reply: Reply)
    modifies store, venue, idem
    ensures var (s, c) := RunAlone(old(Snapshot(store, idem, venue, clock)), Admit(user, approval, clock), answer, 8);
      c.phase == Done && Snapshot(store, idem, venue, clock) == s && reply == ReplyOf(s, c)
    ensures venue.log != old(venue.log) || idem.keys != old(idem.keys) ==>
      && user in old(store.mode) && old(store.mode)[user].mode == SemiAuto
      && old(store.mode)[user].liveUnlocked && !old(store.mode)[user].protectionLock
      && approval.qty.Some? && approval.qty.value > 0.0
      && SentOnce(old(Snapshot(store, idem, venue, clock)), Snapshot(store, idem, venue, clock), approval,
                  if answer.Accepted? then Some(answer.exchangeOrderId) else None)
  {
    hide RunAlone, Find, SentOnce, ReplyOf, AuditStep, ClaimStep, ResolveStep;
    ghost var s, c := Snapshot(store, idem, venue, clock), Admit(user, approval, clock);
    SendsOnlyIfAllowed(s, c, answer);
    var m := store.GetMode(user);
    var shouldExecute := m.mode == SemiAuto && m.liveUnlocked && !m.protectionLock;
    if !shouldExecute {
      RecordedPath(s, c, answer);
      reply := RecordOnly(store, user, approval, m, s, ReadModeStep(s, c));
      return;
    }
    var connected := store.GetExchangeConnection(user, VENUE);
    if !connected {
      BlockedPath(s, c, answer);
      reply := RecordBlock(store, user, approval, "no_bitunix_connection", s, ReadConnectionStep(s, ReadModeStep(s, c)));
      return;
    }
    if approval.qty.None? || approval.qty.value <= 0.0 {
      BlockedPath(s, c, answer);
      reply := RecordBlock(store, user, approval, "approval_missing_qty", s, ReadConnectionStep(s, ReadModeStep(s, c)));
      return;
    }
    LivePath(s, c, answer);
    reply := Execute(store, user, approval, venue, idem, m.mode, clock, answer, AtClaim(s, c));
  }

  /**
   * The route: 400 on an unknown action, 404 and 409 before the coordinator, and every other
   * action a plain change of status.
   */
  method PostApprovalDecision(store: InMemoryStore, user: UserId, approvalId: nat, action: string, venue: Venue,
                              idem: InMemoryIdempotencyStore, clock: real, answer: VenueAnswer)
    returns (reply: Reply)
    modifies store, venue, idem
    ensures action !in {"approve", "reject", "continue", "close", "breakeven", "protect"} ==>
      reply == HttpError(400, "unknown action") && Snapshot(store, idem, venue, clock) == old(Snapshot(store, idem, venue, clock))
    ensures action == "approve" ==>
      var (s, c) := RunAlone(old(Snapshot(store, idem, venue, clock)), NewCall(user, approvalId), answer, 9);
      c.phase == Done && Snapshot(store, idem, venue, clock) == s && reply == ReplyOf(s, c)
    ensures action in {"reject", "continue", "close", "breakeven", "protect"} ==>
      var s := old(Snapshot(store, idem, venue, clock));
      && Snapshot(store, idem, venue, clock) == s.(store := Resolve(s.store, user, approvalId, action))
      && store.Contents() == ApplyToStore(s.store, OtherDecision(user, approvalId, action))
      && reply == match Find(old(store.approvals), user, approvalId)
                  case None => HttpError(404, "approval not found")
                  case Some(i) => Row(Some(store.approvals[i]))
  {
    if action !in ALLOWED_ACTIONS {
      return HttpError(400, "unknown action");
    }
    if action == APPROVE {
      ghost var s, c := Snapshot(store, idem, venue, clock), NewCall(user, approvalId);
      StepsAdd(s, c, answer, 9);
      var approval := store.GetApproval(user, approvalId);
      if approval.None? {
        DoneIsDone(s, ReadStatusStep(s, c), answer, 8);
        return HttpError(404, "approval not found");
      }
      if approval.value.status != PENDING {
        DoneIsDone(s, ReadStatusStep(s, c), answer, 8);
        return HttpError(409, "approval already " + approval.value.status);
      }
      hide RunAlone;
      reply := HandleApprovalApprove(store, user, approval.value, venue, idem, clock, answer);
      return;
    }
    var result := store.ResolveApproval(user, approvalId, action);
    if result.None? {
      return HttpError(404, "approval not found");
    }
    reply := Row(result);
  }

  // ---- A call nobody interrupts is one of the interleavings ----------------------------------------

  function Steps(r: nat, answer: VenueAnswer, n: nat): seq<Event> {
    if n == 0 then [] else [Step(r, answer)] + Steps(r, answer, n - 1)
  }

  lemma StepsFirst(events: seq<Event>, r: nat, answer: VenueAnswer, n: nat)
    requires n > 0
    ensures events + Steps(r, answer, n) == (events + [Step(r, answer)]) + Steps(r, answer, n - 1)
  {
  }

  /** So everything proved of all runs holds of what the method does. */
  lemma {:induction false} AloneIsARun(events: seq<Event>, r: nat, answer: VenueAnswer, n: nat)
    requires r < |Run(events).calls|
    ensures var w := Run(events);
      var alone := RunAlone(w.sys, w.calls[r], answer, n);
      Run(events + Steps(r, answer, n)) == World(alone.0, w.calls[r := alone.1])
    decreases n
  {
    hide Next, Run, Apply;
    var w := Run(events);
    if n == 0 {
      assert events + [] == events && w.calls[r := w.calls[r]] == w.calls;
    } else {
      StepsAdd(w.sys, w.calls[r], answer, n);
      hide RunAlone, Steps;
      var c' := Next(w.sys, w.calls[r], answer).1;
      RunAppend(events, Step(r, answer));
      StepEvent(w, r, answer);
      StepsFirst(events, r, answer, n);
      AloneIsARun(events + [Step(r, answer)], r, answer, n - 1);
      var d := RunAlone(w.sys, w.calls[r], answer, n).1;
      assert w.calls[r := c'][r := d] == w.calls[r := d];
    }
  }
}
