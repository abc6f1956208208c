/** The only code that places an order: refuse, claim the key, send, and never fail open. */
module Executor {
  import opened Shared
  import opened RiskEngine
  import opened Idempotency

  const EXECUTION_IDEMPOTENCY_TTL_SECONDS := 60

  datatype ExecutionStatus = Filled | Failed | Duplicate | Rejected

  datatype ExecutionReport = ExecutionReport(status: ExecutionStatus, pair: string, side: Side, qty: real,
                                             orderType: OrderType, reduceOnly: bool, idempotencyKey: string,
                                             reason: string, exchangeOrderId: Option<string>)
  {
    predicate Placed() { status == Filled }
  }

  /** What the venue does with an order: accept it, or raise. */
  datatype VenueAnswer = Accepted(exchangeOrderId: string) | ConnectorErr(text: string) | UnexpectedErr(text: string)

  /** One call of `place_order`, with the id the venue gave if it accepted. */
  datatype Placement = Placement(req: OrderRequest, accepted: Option<string>)

  function AcceptedId(a: VenueAnswer): Option<string> {
    if a.Accepted? then Some(a.exchangeOrderId) else None
  }

  class Venue {
    var log: seq<Placement>

    constructor ()
      ensures log == []
    {
      log := [];
    }

    method PlaceOrder(req: OrderRequest, answer: VenueAnswer) returns (r: VenueAnswer)
      modifies this
      ensures r == answer && log == old(log) + [Placement(req, AcceptedId(answer))]
    {
      log := log + [Placement(req, AcceptedId(answer))];
      r := answer;
    }
  }

  function Report(req: OrderRequest, status: ExecutionStatus, reason: string, id: Option<string>): ExecutionReport {
    ExecutionReport(status, req.pair, req.side, req.qty, req.orderType, req.reduceOnly, req.idempotencyKey, reason, id)
  }

  function SendReport(req: OrderRequest, answer: VenueAnswer): ExecutionReport {
    match answer
    case Accepted(id) => Report(req, Filled, "ok", Some(id))
    case ConnectorErr(t) => Report(req, Failed, "connector_error:" + t, None)
    case UnexpectedErr(t) => Report(req, Failed, "unexpected_error:" + t, None)
  }

  /** The reason an entry is refused before its key is touched, if it is. */
  function Refusal(req: OrderRequest, mode: Mode): Option<string> {
    if mode == FullAuto then Some("full_auto_disabled_in_mvp")
    else if mode != SemiAuto then Some("mode_not_executable:" + ModeText(mode))
    else if req.qty <= 0.0 then Some("non_positive_qty")
    else None
  }

  const ALREADY_CLAIMED := "idempotency_key_already_claimed"

  /**
   * Every exchange write goes through a fresh claim: the venue is called once, after a
   * successful claim of the request's own key, or not at all; every failure is reported and
   * nothing is raised.
   */
  method Dispatch(req: OrderRequest, venue: Venue, store: InMemoryIdempotencyStore, clock: real, answer: VenueAnswer)
    returns (r: ExecutionReport)
    modifies venue, store
    ensures store.keys == Claim(old(store.keys), req.idempotencyKey, EXECUTION_IDEMPOTENCY_TTL_SECONDS as real, clock)
    ensures if Free(old(store.keys), req.idempotencyKey, clock)
            then r == SendReport(req, answer) && venue.log == old(venue.log) + [Placement(req, AcceptedId(answer))]
            else r == Report(req, Duplicate, ALREADY_CLAIMED, None) && venue.log == old(venue.log)
    ensures r.pair == req.pair && r.side == req.side && r.qty == req.qty && r.orderType == req.orderType
    ensures r.reduceOnly == req.reduceOnly && r.idempotencyKey == req.idempotencyKey
    ensures r.Placed() <==> Free(old(store.keys), req.idempotencyKey, clock) && answer.Accepted?
    ensures r.Placed() ==> r.exchangeOrderId == Some(answer.exchangeOrderId) && r.reason == "ok"
  {
    var acquired := store.TryAcquire(req.idempotencyKey, EXECUTION_IDEMPOTENCY_TTL_SECONDS, clock);
    if !acquired {
      return Report(req, Duplicate, ALREADY_CLAIMED, None);
    }
    var result := venue.PlaceOrder(req, answer);
    match result
    case Accepted(id) => r := Report(req, Filled, "ok", Some(id));
    case ConnectorErr(t) => r := Report(req, Failed, "connector_error:" + t, None);
    case UnexpectedErr(t) => r := Report(req, Failed, "unexpected_error:" + t, None);
  }

  method OpenPosition(req: OrderRequest, venue: Venue, store: InMemoryIdempotencyStore, mode: Mode, clock: real,
                      answer: VenueAnswer) returns (r: ExecutionReport)
    modifies venue, store
    ensures mode == SemiAuto && req.qty > 0.0 <==> Refusal(req, mode).None?
    ensures mode != SemiAuto || req.qty <= 0.0 ==>
      && r.status == Rejected && r.exchangeOrderId.None?
      && r.reason == if mode == FullAuto then "full_auto_disabled_in_mvp"
                     else if mode == SemiAuto then "non_positive_qty" else "mode_not_executable:" + ModeText(mode)
    ensures Refusal(req, mode).Some? ==>
      r == Report(req, Rejected, Refusal(req, mode).value, None) && venue.log == old(venue.log) && store.keys == old(store.keys)
    ensures Refusal(req, mode).None? ==>
      store.keys == Claim(old(store.keys), req.idempotencyKey, EXECUTION_IDEMPOTENCY_TTL_SECONDS as real, clock)
    ensures Refusal(req, mode).None? && !Free(old(store.keys), req.idempotencyKey, clock) ==>
      r == Report(req, Duplicate, ALREADY_CLAIMED, None) && venue.log == old(venue.log)
    ensures Refusal(req, mode).None? && Free(old(store.keys), req.idempotencyKey, clock) ==>
      r == SendReport(req, answer) && venue.log == old(venue.log) + [Placement(req, AcceptedId(answer))]
  {
    if mode != SemiAuto {
      var reason := if mode == FullAuto then "full_auto_disabled_in_mvp" else "mode_not_executable:" + ModeText(mode);
      return Report(req, Rejected, reason, None);
    }
    if req.qty <= 0.0 {
      return Report(req, Rejected, "non_positive_qty", None);
    }
    r := Dispatch(req, venue, store, clock, answer);
  }

  /** A close works in every mode, and its order can only shrink the position it closes. */
  method ClosePosition(pair: string, positionSide: Side, qty: real, venue: Venue, store: InMemoryIdempotencyStore,
                       key: string, clock: real, answer: VenueAnswer) returns (r: ExecutionReport)
    modifies venue, store
    ensures qty <= 0.0 ==>
      r.status == Rejected && r.reason == "non_positive_qty" && r.exchangeOrderId.None?
      && venue.log == old(venue.log) && store.keys == old(store.keys)
    ensures qty > 0.0 && Free(old(store.keys), key, clock) ==>
      var order := OrderRequest(pair, if positionSide == Short then Long else Short, ReduceOnlyMarket, qty, true, None, key, None, None);
      && venue.log == old(venue.log) + [Placement(order, AcceptedId(answer))]
      && r == SendReport(order, answer) && store.keys == old(store.keys)[key := clock + 60.0]
    ensures qty > 0.0 && !Free(old(store.keys), key, clock) ==>
      r.status == Duplicate && venue.log == old(venue.log) && store.keys == old(store.keys)
  {
    var closingSide := if positionSide == Long then Short else Long;
    var req := OrderRequest(pair, closingSide, ReduceOnlyMarket, qty, true, None, key, None, None);
    if req.qty <= 0.0 {
      return Report(req, Rejected, "non_positive_qty", None);
    }
    r := Dispatch(req, venue, store, clock, answer);
  }

  function OrderRequestFromDecision(d: TradeDecision, pair: string, side: Side): Result<OrderRequest> {
    if !d.approved || d.qty.None? then Err("order_request_from_decision: decision is not an approved entry")
    else Ok(OrderRequest(pair, side, if d.orderType.Some? then d.orderType.value else Market, d.qty.value, false,
                         d.leverage, d.idempotencyKey, d.stopLoss,
                         if |d.takeProfits| > 0 then Some(d.takeProfits[0]) else None))
  }
}
