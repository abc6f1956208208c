/**
 * The approve protocol as a state machine. Every request is a record of its local variables
 * and of the step it is about to take; requests interleave between any two steps.
 */
module Approvals {
  import opened Shared
  import opened RiskEngine
  import opened Idempotency
  import opened Store
  import opened Executor

  const TTL := EXECUTION_IDEMPOTENCY_TTL_SECONDS as real
  const VENUE := "bitunix"

  /** The step a request takes next; each is one access to shared state. */
  datatype Phase =
    | ReadStatus | ReadMode | ReadConnection | ClaimKey | PlaceOrder
    | AddTrade | AddOrder | ResolveFilled | AuditFilled
    | ResolveOnly | AuditOnly | AuditBlocked | AuditFailed | Done

  datatype Verdict =
    | Undecided
    | NotFound                                            // 404
    | Conflict                                            // 409
    | Recorded                                            // approved without execution
    | Blocked(why: string)                                // live path, nothing claimed
    | NotPlaced(status: ExecutionStatus, reason: string)  // live path, duplicate or failed
    | Executed

  /** The local variables of one approve request. */
  datatype Call = Call(phase: Phase, verdict: Verdict, user: UserId, approvalId: nat, row: Approval, readAt: real,
                       modeRead: ModeState, claimedAt: real, sentAt: real, send: nat, exchangeOrderId: string,
                       trade: nat, order: nat, audit: nat)

  /** What all requests share; the clock is the monotonic clock. */
  datatype System = System(store: State, keys: map<string, real>, clock: real, venue: seq<Placement>)

  const NO_ROW := Approval(0, 0, PENDING, "", Long, 0.0, 0.0, [], 0.0, None, "")

  function NewCall(user: UserId, approvalId: nat): Call {
    Call(ReadStatus, Undecided, user, approvalId, NO_ROW, 0.0, ModeState(Paper, false, false), 0.0, 0.0, 0, "", 0, 0, 0)
  }

  /** `(mode is SEMI_AUTO) and unlocked and not locked`. */
  predicate ShouldExecute(m: ModeState) { m.mode == SemiAuto && m.liveUnlocked && !m.protectionLock }

  predicate HasQty(row: Approval) { row.qty.Some? && row.qty.value > 0.0 }

  function RequestOf(row: Approval): OrderRequest
    requires HasQty(row)
  {
    OrderRequest(row.pair, row.side, Market, row.qty.value, false, Some(row.leverage), row.idempotencyKey,
                 Some(row.stopLoss), if |row.takeProfits| > 0 then Some(row.takeProfits[0]) else None)
  }

  function TradeRowOf(c: Call, id: nat): TradeRow
    requires HasQty(c.row)
  {
    TradeRow(id, c.row.pair, c.row.side, c.modeRead.mode, Truthy(Some(c.row.entry)), c.row.qty.value, Some(c.row.leverage))
  }

  function OrderRowOf(c: Call, id: nat): OrderRow
    requires HasQty(c.row)
  {
    OrderRow(id, c.trade, c.exchangeOrderId, c.row.side, c.row.qty.value, c.row.idempotencyKey)
  }

  function NoExecReason(m: ModeState): string {
    "no live execution: mode=" + ModeText(m.mode) + " live_unlocked=" + BoolText(m.liveUnlocked)
    + " locked=" + BoolText(m.protectionLock)
  }

  function AuditRowOf(c: Call, id: nat): AuditRow {
    match c.verdict
    case Recorded => AuditRow(id, "human", "approval_approved_no_exec", NoExecReason(c.modeRead), c.row.id, None, None, None)
    case Blocked(why) => AuditRow(id, "execution_engine", "open_order_blocked", why, c.row.id, None, None, None)
    case NotPlaced(_, reason) =>
      AuditRow(id, "execution_engine", "open_order_failed", reason, c.row.id, None, Some(c.row.idempotencyKey), None)
    case _ =>
      AuditRow(id, "execution_engine", "open_order", "ok", c.row.id, Some(c.exchangeOrderId),
               Some(c.row.idempotencyKey), Some(c.trade))
  }

  /** The report a failed send leaves. */
  function FailureOf(req: OrderRequest, answer: VenueAnswer): Verdict {
    NotPlaced(SendReport(req, answer).status, SendReport(req, answer).reason)
  }

  // ---- The steps ------------------------------------------------------------------------------

  /** The route: 404, 409, or a copy of the pending row. */
  function ReadStatusStep(s: System, c: Call): Call {
    match Find(s.store.approvals, c.user, c.approvalId)
    case None => c.(phase := Done, verdict := NotFound)
    case Some(i) =>
      var row := s.store.approvals[i];
      if row.status != PENDING then c.(phase := Done, verdict := Conflict)
      else c.(phase := ReadMode, row := row, readAt := s.clock)
  }

  function ReadModeStep(s: System, c: Call): Call {
    var m := ModeOf(s.store, c.user);
    if ShouldExecute(m) then c.(phase := ReadConnection, modeRead := m)
    else c.(phase := ResolveOnly, modeRead := m, verdict := Recorded)
  }

  function ReadConnectionStep(s: System, c: Call): Call {
    if !Connected(s.store, c.user, VENUE) then c.(phase := AuditBlocked, verdict := Blocked("no_bitunix_connection"))
    else if !HasQty(c.row) then c.(phase := AuditBlocked, verdict := Blocked("approval_missing_qty"))
    else c.(phase := ClaimKey)
  }

  function ClaimStep(s: System, c: Call): (System, Call) {
    if Free(s.keys, c.row.idempotencyKey, s.clock) then
      (s.(keys := Claim(s.keys, c.row.idempotencyKey, TTL, s.clock)), c.(phase := PlaceOrder, claimedAt := s.clock))
    else (s, c.(phase := AuditFailed, verdict := NotPlaced(Duplicate, ALREADY_CLAIMED)))
  }

  function SendStep(s: System, c: Call, answer: VenueAnswer): (System, Call)
    requires HasQty(c.row)
  {
    var req := RequestOf(c.row);
    (s.(venue := s.venue + [Placement(req, AcceptedId(answer))]),
     if answer.Accepted? then
       c.(phase := AddTrade, verdict := Executed, sentAt := s.clock, send := |s.venue|, exchangeOrderId := answer.exchangeOrderId)
     else c.(phase := AuditFailed, verdict := FailureOf(req, answer), sentAt := s.clock, send := |s.venue|))
  }

  function TradeStep(s: System, c: Call): (System, Call)
    requires HasQty(c.row)
  {
    var id := |RowsOf(s.store.trades, c.user)|;
    (s.(store := s.store.(trades := Append(s.store.trades, c.user, TradeRowOf(c, id)))),
     c.(trade := id, phase := AddOrder))
  }

  function OrderStep(s: System, c: Call): (System, Call)
    requires HasQty(c.row)
  {
    var id := |RowsOf(s.store.orders, c.user)|;
    (s.(store := s.store.(orders := Append(s.store.orders, c.user, OrderRowOf(c, id)))),
     c.(order := id, phase := ResolveFilled))
  }

  function ResolveStep(s: System, c: Call): System {
    s.(store := Resolve(s.store, c.user, c.row.id, APPROVE))
  }

  function AuditStep(s: System, c: Call): (System, Call) {
    var id := |RowsOf(s.store.audit, c.user)|;
    (s.(store := s.store.(audit := Append(s.store.audit, c.user, AuditRowOf(c, id)))), c.(audit := id, phase := Done))
  }

  /** One step of a request. `answer` is what the venue would say if the step asks it. */
  function Next(s: System, c: Call, answer: VenueAnswer): (System, Call) {
    match c.phase
    case ReadStatus => (s, ReadStatusStep(s, c))
    case ReadMode => (s, ReadModeStep(s, c))
    case ReadConnection => (s, ReadConnectionStep(s, c))
    case ClaimKey => ClaimStep(s, c)
    case PlaceOrder => if HasQty(c.row) then SendStep(s, c, answer) else (s, c)
    case AddTrade => if HasQty(c.row) then TradeStep(s, c) else (s, c)
    case AddOrder => if HasQty(c.row) then OrderStep(s, c) else (s, c)
    case ResolveFilled => (ResolveStep(s, c), c.(phase := AuditFilled))
    case ResolveOnly => (ResolveStep(s, c), c.(phase := AuditOnly))
    case AuditFilled => AuditStep(s, c)
    case AuditOnly => AuditStep(s, c)
    case AuditBlocked => AuditStep(s, c)
    case AuditFailed => AuditStep(s, c)
    case Done => (s, c)
  }

  /** `n` steps of one request with nobody in between. */
  function RunAlone(s: System, c: Call, answer: VenueAnswer, n: nat): (System, Call)
    decreases n
  {
    if n == 0 then (s, c)
    else
      var (s', c') := Next(s, c, answer);
      RunAlone(s', c', answer, n - 1)
  }

  // ---- The world: many requests, and everything else that writes to the store ----------------

  datatype World = World(sys: System, calls: seq<Call>)

  datatype Event =
    | Arrive(user: UserId, approvalId: nat)                  // an approve request comes in
    | Step(call: nat, answer: VenueAnswer)                   // one request takes its next step
    | Tick(seconds: real)                                    // time passes
    | OtherDecision(user: UserId, approvalId: nat, action: string)  // any other decision on an approval
    | SetMode(user: UserId, mode: Mode)
    | Unlock(user: UserId)
    | Protect(user: UserId, locked: bool)                    // the account-protection lock
    | Connect(user: UserId, exchange: string)
    | Queue(user: UserId, entry: Entry, scanKeys: map<string, real>, scanClock: real)  // the scanner

  const START := World(System(EMPTY, map[], 0.0, []), [])

  /** A signal and its decision are logged; an approved one in semi-auto mode is queued. */
  function RecordOutcome(st: State, user: UserId, s: Signal, d: TradeDecision, mode: Mode): State {
    var logged := LogSignal(st, user, s, d);
    if mode == SemiAuto && d.approved then AddApprovalTo(logged, user, s, d) else logged
  }

  /** What one strategy of a scan tick writes, unless the risk engine raises. */
  function QueueEntry(st: State, user: UserId, e: Entry, keys: map<string, real>, clock: real): State {
    if RiskEngine.Raises(e, keys, clock) then st
    else
      RecordOutcome(st, user, e.signal, RiskEngine.Decide(e, keys, clock), e.mode)
  }

  function ApplyToStore(st: State, ev: Event): State {
    match ev
    case OtherDecision(user, id, action) =>
      if action in ALLOWED_ACTIONS && action != APPROVE then Resolve(st, user, id, action) else st
    case SetMode(user, mode) =>
      var r := SwitchMode(st, user, mode);
      if r.Ok? then r.value else st
    case Unlock(user) => UnlockLive(st, user)
    case Protect(user, locked) => st.(mode := st.mode[user := ModeOf(st, user).(protectionLock := locked)])
    case Connect(user, exchange) => st.(connections := st.connections + [Connection(user, exchange)])
    case Queue(user, e, keys, clock) => QueueEntry(st, user, e, keys, clock)
    case _ => st
  }

  function Apply(w: World, ev: Event): World {
    match ev
    case Arrive(user, id) => w.(calls := w.calls + [NewCall(user, id)])
    case Step(r, answer) =>
      if r < |w.calls| then
        var (s, c) := Next(w.sys, w.calls[r], answer);
        World(s, w.calls[r := c])
      else w
    case Tick(dt) => if dt >= 0.0 then w.(sys := w.sys.(clock := w.sys.clock + dt)) else w
    case _ => w.(sys := w.sys.(store := ApplyToStore(w.sys.store, ev)))
  }

  function Run(events: seq<Event>): World {
    if events == [] then START else Apply(Run(events[..|events| - 1]), events[|events| - 1])
  }

  lemma RunAppend(events: seq<Event>, ev: Event)
    ensures Run(events + [ev]) == Apply(Run(events), ev)
  {
    assert (events + [ev])[..|events|] == events;
  }

  // ---- What a request's record says about it -------------------------------------------------

  /** The route found a pending approval. */
  predicate Admitted(c: Call) { c.phase != ReadStatus && c.verdict != NotFound && c.verdict != Conflict }

  predicate BeforeClaim(c: Call) { c.phase == ReadMode || c.phase == ReadConnection || c.phase == ClaimKey }

  /** The request claimed its key at `claimedAt`. */
  predicate HasClaimed(c: Call) {
    c.phase == PlaceOrder || c.verdict == Executed || (c.verdict.NotPlaced? && c.verdict.status != Duplicate)
  }

  predicate HasSent(c: Call) { HasClaimed(c) && c.phase != PlaceOrder }

  /** Claimed, and the order may still be or has been filled. */
  predicate MayFill(c: Call) { c.phase == PlaceOrder || c.verdict == Executed }

  /** Between its claim and its resolve. */
  predicate Holding(c: Call) {
    c.phase == PlaceOrder || c.phase == AddTrade || c.phase == AddOrder || c.phase == ResolveFilled
  }

  /** Which verdicts each phase allows. */
  predicate PhaseFits(c: Call) {
    match c.phase
    case ReadStatus => c.verdict == Undecided
    case ReadMode => c.verdict == Undecided
    case ReadConnection => c.verdict == Undecided
    case ClaimKey => c.verdict == Undecided
    case PlaceOrder => c.verdict == Undecided
    case AddTrade => c.verdict == Executed
    case AddOrder => c.verdict == Executed
    case ResolveFilled => c.verdict == Executed
    case AuditFilled => c.verdict == Executed
    case ResolveOnly => c.verdict == Recorded
    case AuditOnly => c.verdict == Recorded
    case AuditBlocked => c.verdict.Blocked?
    case AuditFailed => c.verdict.NotPlaced? && c.verdict.status != Filled
    case Done => c.verdict != Undecided && (c.verdict.NotPlaced? ==> c.verdict.status != Filled)
  }

  /** The request passed the claim's guards: the live path with a quantity. */
  predicate OnLivePath(c: Call) {
    c.phase == ReadConnection || c.phase == ClaimKey || c.phase == PlaceOrder
    || c.verdict.Blocked? || c.verdict.NotPlaced? || c.verdict == Executed
  }

  predicate PastQtyCheck(c: Call) { c.phase == ClaimKey || c.phase == PlaceOrder || c.verdict.NotPlaced? || c.verdict == Executed }
}
