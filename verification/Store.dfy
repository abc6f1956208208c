/** The in-memory store behind the API: approvals, ledgers, audit log, mode and connections. */
module Store {
  import opened Shared
  import opened RiskTypes
  import opened RiskEngine

  type UserId = nat

  const PENDING := "pending"
  const APPROVE := "approve"
  const ALLOWED_ACTIONS := {"approve", "reject", "continue", "close", "breakeven", "protect"}

  /** A queued entry. Its id is its position; rows are never deleted. */
  datatype Approval = Approval(id: nat, user: UserId, status: string, pair: string, side: Side, entry: real,
                               stopLoss: real, takeProfits: seq<real>, leverage: real, qty: Option<real>,
                               idempotencyKey: string)

  datatype ModeState = ModeState(mode: Mode, liveUnlocked: bool, protectionLock: bool)

  datatype TradeRow = TradeRow(id: nat, pair: string, side: Side, mode: Mode, entryPrice: Option<real>, qty: real,
                               leverage: Option<real>)

  datatype OrderRow = OrderRow(id: nat, tradeId: nat, exchangeOrderId: string, side: Side, qty: real,
                               idempotencyKey: string)

  datatype AuditRow = AuditRow(id: nat, actor: string, action: string, reason: string, approvalId: nat,
                               exchangeOrderId: Option<string>, idempotencyKey: Option<string>, tradeId: Option<nat>)

  datatype Connection = Connection(user: UserId, exchange: string)

  /** The signal log: every parsed signal, and what the risk engine said about it. */
  datatype SignalRow =
    | Parsed(user: UserId, pair: string, side: Side, entry: real, stopLoss: real, takeProfits: seq<real>,
             leverage: real, strategy: string, dedupHash: string)
    | Validated(user: UserId, approved: bool, rejectReason: Option<RejectReason>, evNetBps: Option<real>)

  datatype State = State(approvals: seq<Approval>, trades: map<UserId, seq<TradeRow>>,
                         orders: map<UserId, seq<OrderRow>>, audit: map<UserId, seq<AuditRow>>,
                         mode: map<UserId, ModeState>, connections: seq<Connection>, signals: seq<SignalRow>)

  const EMPTY := State([], map[], map[], map[], map[], [], [])

  // ---- What each operation does to the state ------------------------------------------------

  /** `rows.get(user, [])`. */
  function RowsOf<T>(rows: map<UserId, seq<T>>, user: UserId): seq<T> {
    if user in rows then rows[user] else []
  }

  function Append<T>(rows: map<UserId, seq<T>>, user: UserId, row: T): map<UserId, seq<T>> {
    rows[user := RowsOf(rows, user) + [row]]
  }

  /** Position of the first row from `i` on with this id and owner. */
  function FindFrom(rows: seq<Approval>, user: UserId, id: nat, i: nat): (r: Option<nat>)
    requires i <= |rows|
    ensures r.Some? ==> i <= r.value < |rows| && rows[r.value].id == id && rows[r.value].user == user
    ensures r.None? ==> forall j :: i <= j < |rows| ==> rows[j].id != id || rows[j].user != user
    decreases |rows| - i
  {
    if i == |rows| then None
    else if rows[i].id == id && rows[i].user == user then Some(i)
    else FindFrom(rows, user, id, i + 1)
  }

  function Find(rows: seq<Approval>, user: UserId, id: nat): (r: Option<nat>)
    ensures r.Some? ==> r.value < |rows| && rows[r.value].id == id && rows[r.value].user == user
    ensures r.None? ==> forall j :: 0 <= j < |rows| ==> rows[j].id != id || rows[j].user != user
  {
    FindFrom(rows, user, id, 0)
  }

  /** Python truth value of an optional number: present and not zero. */
  function Truthy(x: Option<real>): Option<real> {
    if x.Some? && x.value != 0.0 then x else None
  }

  function RowFor(id: nat, user: UserId, s: Signal, d: TradeDecision): Approval {
    Approval(id, user, PENDING, s.pair, s.side, s.entry, s.stopLoss, s.takeProfits,
             if Truthy(d.leverage).Some? then d.leverage.value else s.leverage, Truthy(d.qty), d.idempotencyKey)
  }

  function ParsedRow(user: UserId, s: Signal): SignalRow {
    Parsed(user, s.pair, s.side, s.entry, s.stopLoss, s.takeProfits, s.leverage, s.strategy, s.dedupHash)
  }

  function ValidatedRow(user: UserId, d: TradeDecision): SignalRow {
    Validated(user, d.approved, if d.approved then None else Some(d.reason), d.evNetBps)
  }

  function LogSignal(st: State, user: UserId, s: Signal, d: TradeDecision): State {
    st.(signals := st.signals + [ParsedRow(user, s), ValidatedRow(user, d)])
  }

  function AddApprovalTo(st: State, user: UserId, s: Signal, d: TradeDecision): State {
    st.(approvals := st.approvals + [RowFor(|st.approvals|, user, s, d)])
  }

  function Resolve(st: State, user: UserId, id: nat, action: string): State {
    match Find(st.approvals, user, id)
    case None => st
    case Some(i) => st.(approvals := st.approvals[i := st.approvals[i].(status := action)])
  }

  function ModeOf(st: State, user: UserId): ModeState {
    if user in st.mode then st.mode[user] else ModeState(Paper, false, false)
  }

  function SwitchMode(st: State, user: UserId, mode: Mode): Result<State> {
    var current := ModeOf(st, user);
    if Live(mode) && !current.liveUnlocked then Err("paper_gate_unmet")
    else if mode == FullAuto then Err("full_auto_disabled_in_mvp")
    else Ok(st.(mode := st.mode[user := current.(mode := mode)]))
  }

  function UnlockLive(st: State, user: UserId): State {
    st.(mode := st.mode[user := ModeOf(st, user).(liveUnlocked := true)])
  }

  predicate Connected(st: State, user: UserId, exchange: string) {
    exists i :: 0 <= i < |st.connections| && st.connections[i] == Connection(user, exchange)
  }

  // ---- The object ---------------------------------------------------------------------------

  class InMemoryStore {
    var approvals: seq<Approval>
    var trades: map<UserId, seq<TradeRow>>
    var orders: map<UserId, seq<OrderRow>>
    var audit: map<UserId, seq<AuditRow>>
    var mode: map<UserId, ModeState>
    var connections: seq<Connection>
    var signals: seq<SignalRow>

    function Contents(): State
      reads this
    {
      State(approvals, trades, orders, audit, mode, connections, signals)
    }

    constructor ()
      ensures Contents() == EMPTY
    {
      approvals, trades, orders, audit, mode, connections, signals := [], map[], map[], map[], map[], [], [];
    }

    method AddParsedSignal(user: UserId, s: Signal) returns (row: SignalRow)
      modifies this`signals
      ensures row == Parsed(user, s.pair, s.side, s.entry, s.stopLoss, s.takeProfits, s.leverage, s.strategy, s.dedupHash)
      ensures row == ParsedRow(user, s) && signals == old(signals) + [row]
    {
      row := ParsedRow(user, s);
      signals := signals + [row];
    }

    method AddValidatedSignal(user: UserId, d: TradeDecision) returns (row: SignalRow)
      modifies this`signals
      ensures row == Validated(user, d.approved, if d.approved then None else Some(d.reason), d.evNetBps)
      ensures row == ValidatedRow(user, d) && signals == old(signals) + [row]
    {
      var rejectReason := if d.approved then None else Some(d.reason);
      row := Validated(user, d.approved, rejectReason, d.evNetBps);
      signals := signals + [row];
    }

    method AddApproval(user: UserId, s: Signal, d: TradeDecision) returns (row: Approval)
      modifies this
      ensures Contents() == AddApprovalTo(old(Contents()), user, s, d)
      ensures row == approvals[|approvals| - 1] == RowFor(|old(approvals)|, user, s, d)
      ensures row.status == "pending" && row.user == user && row.pair == s.pair && row.side == s.side
      ensures row.entry == s.entry && row.stopLoss == s.stopLoss && row.takeProfits == s.takeProfits
      ensures row.idempotencyKey == d.idempotencyKey && (row.qty.Some? ==> row.qty == d.qty && row.qty != Some(0.0))
    {
      row := RowFor(|approvals|, user, s, d);
      approvals := approvals + [row];
    }

    method GetApproval(user: UserId, id: nat) returns (r: Option<Approval>)
      ensures var i := Find(approvals, user, id);
        r == if i.Some? then Some(approvals[i.value]) else None
    {
      var i := 0;
      while i < |approvals|
        invariant 0 <= i <= |approvals|
        invariant Find(approvals, user, id) == FindFrom(approvals, user, id, i)
      {
        if approvals[i].id == id && approvals[i].user == user {
          return Some(approvals[i]);
        }
        i := i + 1;
      }
      r := None;
    }

    method ResolveApproval(user: UserId, id: nat, action: string) returns (r: Option<Approval>)
      modifies this`approvals
      ensures Contents() == Resolve(old(Contents()), user, id, action)
      ensures var i := Find(old(approvals), user, id);
        r == if i.Some? then Some(approvals[i.value]) else None
    {
      var i := 0;
      while i < |approvals|
        invariant 0 <= i <= |approvals| && approvals == old(approvals)
        invariant Find(approvals, user, id) == FindFrom(approvals, user, id, i)
      {
        if approvals[i].id == id && approvals[i].user == user {
          approvals := approvals[i := approvals[i].(status := action)];
          return Some(approvals[i]);
        }
        i := i + 1;
      }
      r := None;
    }

    method AddTrade(user: UserId, row: TradeRow) returns (stored: TradeRow)
      modifies this`trades
      ensures stored == row.(id := |RowsOf(old(trades), user)|)
      ensures trades == Append(old(trades), user, stored)
    {
      stored := row.(id := |RowsOf(trades, user)|);
      trades := Append(trades, user, stored);
    }

    method AddOrder(user: UserId, row: OrderRow) returns (stored: OrderRow)
      modifies this`orders
      ensures stored == row.(id := |RowsOf(old(orders), user)|)
      ensures orders == Append(old(orders), user, stored)
    {
      stored := row.(id := |RowsOf(orders, user)|);
      orders := Append(orders, user, stored);
    }

    method AddAuditLog(user: UserId, row: AuditRow) returns (stored: AuditRow)
      modifies this`audit
      ensures stored == row.(id := |RowsOf(old(audit), user)|)
      ensures audit == Append(old(audit), user, stored)
    {
      stored := row.(id := |RowsOf(audit, user)|);
      audit := Append(audit, user, stored);
    }

    method GetExchangeConnection(user: UserId, exchange: string) returns (found: bool)
      ensures found == Connected(Contents(), user, exchange)
    {
      var i := 0;
      while i < |connections|
        invariant 0 <= i <= |connections|
        invariant forall j :: 0 <= j < i ==> connections[j] != Connection(user, exchange)
      {
        if connections[i].user == user && connections[i].exchange == exchange {
          assert connections[i] == Connection(user, exchange);
          return true;
        }
        i := i + 1;
      }
      found := false;
    }

    method AddExchangeConnection(user: UserId, exchange: string)
      modifies this`connections
      ensures connections == old(connections) + [Connection(user, exchange)]
    {
      connections := connections + [Connection(user, exchange)];
    }

    method GetMode(user: UserId) returns (m: ModeState)
      ensures m == ModeOf(Contents(), user)
      ensures if user in mode then m == mode[user] else m.mode == Paper && !m.liveUnlocked && !m.protectionLock
    {
      m := if user in mode then mode[user] else ModeState(Paper, false, false);
    }

    /** Raising leaves the store as it was. */
    method SetMode(user: UserId, newMode: Mode) returns (r: Result<ModeState>)
      modifies this`mode
      ensures match SwitchMode(old(Contents()), user, newMode)
        case Err(msg) => r == Err(msg) && Contents() == old(Contents())
        case Ok(st) => Contents() == st && r == Ok(ModeOf(st, user))
      ensures var unlocked := user in old(mode) && old(mode)[user].liveUnlocked;
        r.Ok? <==> newMode != FullAuto && (newMode == SemiAuto ==> unlocked)
      ensures r.Ok? ==>
        && user in mode && mode[user].mode == newMode
        && (user in old(mode) ==> mode[user] == old(mode)[user].(mode := newMode))
        && (user !in old(mode) ==> !mode[user].liveUnlocked && !mode[user].protectionLock)
    {
      var current := GetMode(user);
      if Live(newMode) && !current.liveUnlocked {
        return Err("paper_gate_unmet");
      }
      if newMode == FullAuto {
        return Err("full_auto_disabled_in_mvp");
      }
      current := current.(mode := newMode);
      mode := mode[user := current];
      r := Ok(current);
    }

    method UnlockLiveForTest(user: UserId)
      modifies this`mode
      ensures Contents() == UnlockLive(old(Contents()), user)
    {
      var m := GetMode(user);
      mode := mode[user := m.(liveUnlocked := true)];
    }
  }
}
