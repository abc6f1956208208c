/**
 * How often one approval can be sent. At-most-once is about orders the venue is known to have
 * accepted: a send that fails leaves the approval pending and may be repeated, once a minute.
 */
module ApprovalRetries {
  import opened Shared
  import opened RiskEngine
  import opened Idempotency
  import opened Store
  import opened Executor
  import opened Approvals
  import opened ApprovalSafety
  import opened ApprovalWindow

  /** Each request in `sent` has sent an order for this approval. */
  predicate SentFor(w: World, id: nat, sent: set<nat>) {
    forall r :: r in sent ==> r < |w.calls| && HasSent(w.calls[r]) && w.calls[r].row.id == id
  }

  // ---- At most one send a minute ------------------------------------------------------------------

  predicate ClaimedAfterStart(c: Call) { HasClaimed(c) ==> 0.0 <= c.claimedAt }

  lemma NextClaimsAfterStart(s: System, c: Call, answer: VenueAnswer)
    requires PhaseFits(c) && ClaimedAfterStart(c) && 0.0 <= s.clock
    ensures ClaimedAfterStart(Next(s, c, answer).1) && Next(s, c, answer).0.clock == s.clock
  {
    if c.phase == ClaimKey {
      hide Free;
    } else if c.phase == ReadStatus {
      hide Find;
    } else {
      OtherSteps(s, c, answer);
      ClaimsOnlyAtClaim(s, c, answer);
      assert Next(s, c, answer).0.clock == s.clock;
      hide Next;
    }
  }

  predicate StartedAtZero(w: World) {
    0.0 <= w.sys.clock && forall r :: 0 <= r < |w.calls| ==> ClaimedAfterStart(w.calls[r])
  }

  lemma ApplyKeepsStart(w: World, ev: Event)
    requires Invariant(w) && StartedAtZero(w)
    ensures StartedAtZero(Apply(w, ev))
  {
    hide Next, ApplyToStore;
    match ev
    case Step(r, answer) =>
      if r < |w.calls| {
        assert CallOk(w.sys, w.calls[r]);
        NextClaimsAfterStart(w.sys, w.calls[r], answer);
      }
    case _ =>
  }

  lemma {:induction false} RunStartsAtZero(events: seq<Event>)
    ensures StartedAtZero(Run(events))
  {
    hide Apply, StartedAtZero, Invariant;
    if events == [] {
      assert StartedAtZero(START) by { StartIsZero(); }
    } else {
      var init := events[..|events| - 1];
      RunStartsAtZero(init);
      InvariantHolds(init);
      ApplyKeepsStart(Run(init), events[|events| - 1]);
    }
  }

  lemma StartIsZero()
    ensures StartedAtZero(START)
  {
  }

  /** The request in `sent` that claimed last. */
  lemma {:induction false} LastClaim(calls: seq<Call>, sent: set<nat>) returns (m: nat)
    requires sent != {} && forall r :: r in sent ==> r < |calls|
    ensures m in sent && forall r :: r in sent ==> calls[r].claimedAt <= calls[m].claimedAt
    decreases |sent|
  {
    var r :| r in sent;
    var rest := sent - {r};
    if rest == {} {
      assert sent == {r};
      m := r;
    } else {
      var q := LastClaim(calls, rest);
      m := if calls[q].claimedAt < calls[r].claimedAt then r else q;
    }
  }

  /** Sends of one approval carry one key, so their claims are spaced and take their time. */
  lemma {:induction false} SendsTakeTime(w: World, id: nat, sent: set<nat>, last: real)
    requires Invariant(w) && StartedAtZero(w) && SentFor(w, id, sent) && sent != {}
    requires forall r :: r in sent ==> w.calls[r].claimedAt <= last
    ensures (|sent| - 1) as real * 60.0 <= last
    decreases |sent|
  {
    var m := LastClaim(w.calls, sent);
    assert ClaimedAfterStart(w.calls[m]);
    var rest := sent - {m};
    if rest == {} {
      assert sent == {m};
    } else {
      forall r | r in rest ensures w.calls[r].claimedAt <= w.calls[m].claimedAt - 60.0 {
        OneApprovalOneKey(w, r, m);
        assert Spaced(w.calls[if r < m then r else m], w.calls[if r < m then m else r]);
      }
      hide Invariant, StartedAtZero;
      SendsTakeTime(w, id, rest, w.calls[m].claimedAt - 60.0);
      assert |sent| == |rest| + 1;
    }
  }

  lemma OneApprovalOneKey(w: World, r: nat, q: nat)
    requires Invariant(w) && r < |w.calls| && q < |w.calls| && HasSent(w.calls[r]) && HasSent(w.calls[q])
    requires w.calls[r].row.id == w.calls[q].row.id
    ensures w.calls[r].row.idempotencyKey == w.calls[q].row.idempotencyKey
  {
    assert CallOk(w.sys, w.calls[r]) && CallOk(w.sys, w.calls[q]);
  }

  // ---- One send a minute, for as long as the venue fails -------------------------------------------

  predicate Failed(c: Call, row: Approval) { c.phase == AuditFailed && HasSent(c) && c.row == row }

  /** After `n` failed sends, one a minute, the row is pending and its key is free again. */
  predicate Waiting(w: World, row: Approval, n: nat) {
    && Ready(w.sys.store, row) && |w.calls| == n && w.sys.clock == 60.0 * n as real
    && Free(w.sys.keys, row.idempotencyKey, w.sys.clock)
    && forall r :: 0 <= r < n ==> Failed(w.calls[r], row)
  }

  lemma SendFails(w: World, r: nat, l: Limits) returns (w': World)
    requires Reachable(w, l) && r < |w.calls| && w.calls[r].phase == PlaceOrder && HasQty(w.calls[r].row)
    ensures Reachable(w', l) && |w'.calls| == |w.calls| && w'.calls == w.calls[r := w'.calls[r]]
    ensures w'.sys == w.sys.(venue := w'.sys.venue) && Failed(w'.calls[r], w.calls[r].row)
  {
    var answer := ConnectorErr("");
    var (s, c) := SendStep(w.sys, w.calls[r], answer);
    assert s == w.sys.(venue := s.venue) && Failed(c, w.calls[r].row);
    hide Reachable, HasQty, SendStep, HasSent;
    TakeAnsweredStep(w, r, answer, s, c, l);
    w' := World(s, w.calls[r := c]);
  }

  lemma NewRequest(w: World, l: Limits)
    requires Reachable(w, l)
    ensures Reachable(World(w.sys, w.calls + [NewCall(0, 0)]), l)
  {
    ReachableIsWithin(w, l);
    assert Apply(w, Arrive(0, 0)) == World(w.sys, w.calls + [NewCall(0, 0)]);
    hide Reachable, Apply;
    Go(w, Arrive(0, 0), l);
  }

  /** One more attempt: a new request reads, claims and fails to send, all at one instant. */
  lemma Attempt(w: World, row: Approval, n: nat, l: Limits) returns (w': World)
    requires Reachable(w, l) && Waiting(w, row, n) && 0.0 <= l.read && 0.0 <= l.hold && 0.0 <= l.send
    ensures Reachable(w', l) && |w'.calls| == n + 1 && w'.sys.store == w.sys.store && w'.sys.clock == w.sys.clock
    ensures w'.sys.keys == w.sys.keys[row.idempotencyKey := w.sys.clock + 60.0]
    ensures forall r :: 0 <= r < n + 1 ==> Failed(w'.calls[r], row)
  {
    hide Reachable, Ready, HasQty, Failed, Free, NewCall;
    ReadyHasQty(w.sys.store, row);
    NewRequest(w, l);
    var w1 := ReadAll(World(w.sys, w.calls + [NewCall(0, 0)]), n, row, l);
    var w2 := ClaimFree(w1, n, l);
    w' := SendFails(w2, n, l);
    forall r | 0 <= r < n ensures Failed(w'.calls[r], row) {
      assert w'.calls[r] == w.calls[r];
    }
  }

  lemma {:induction false} KeepWaiting(n: nat, l: Limits) returns (w: World, row: Approval)
    requires 0.0 <= l.read && 0.0 <= l.hold && 0.0 <= l.send
    ensures Reachable(w, l) && Waiting(w, row, n)
  {
    if n == 0 {
      var log;
      row, log := QueueSample(l);
      w := World(Shop([row], log), []);
    } else {
      hide Reachable, Ready, HasQty;
      var w0;
      w0, row := KeepWaiting(n - 1, l);
      var w1 := Attempt(w0, row, n - 1, l);
      Wait(w1, 60.0, l);
      w := w1.(sys := w1.sys.(clock := w1.sys.clock + 60.0));
    }
  }

  function FirstNumbers(n: nat): (s: set<nat>)
    ensures |s| == n && forall r: nat :: r in s <==> r < n
  {
    if n == 0 then {} else FirstNumbers(n - 1) + {n - 1}
  }

  /** Even with requests that never wait, one approval can be sent `n` times in `n - 1` minutes. */
  lemma ManySends(n: nat, l: Limits) returns (w: World)
    requires 1 <= n && 0.0 <= l.read && 0.0 <= l.hold && 0.0 <= l.send
    ensures Reachable(w, l) && w.sys.clock == 60.0 * (n - 1) as real && SentFor(w, 0, FirstNumbers(n))
  {
    hide Reachable, HasQty, HasSent, Free;
    var w0, row := KeepWaiting(n - 1, l);
    w := Attempt(w0, row, n - 1, l);
    assert row.id == 0;
    forall r | 0 <= r < n ensures r < |w.calls| && HasSent(w.calls[r]) && w.calls[r].row.id == 0 {
      assert Failed(w.calls[r], row);
    }
  }

  predicate SendsBy(events: seq<Event>, sent: set<nat>, id: nat, n: nat, time: real) {
    Run(events).sys.clock <= time && |sent| == n && SentFor(Run(events), id, sent)
  }

  /** By a given time one approval can have been sent `n` times exactly if `n - 1` windows fit into it. */
  lemma SendsOfOneApproval(n: nat, time: real)
    requires 1 <= n
    ensures (exists events, sent, id :: SendsBy(events, sent, id, n, time)) <==> (n - 1) as real * 60.0 <= time
  {
    hide Run, SentFor;
    if (n - 1) as real * 60.0 <= time {
      var l := Limits(0.0, 0.0, 0.0);
      var w := ManySends(n, l);
      var events :| Run(events) == w && AlwaysWithin(events, l);
      assert SendsBy(events, FirstNumbers(n), 0, n, time);
    }
    forall events, sent: set<nat>, id: nat | SendsBy(events, sent, id, n, time) ensures (n - 1) as real * 60.0 <= time {
      SendsByTime(events, sent, id, n, time);
    }
  }

  lemma SendsByTime(events: seq<Event>, sent: set<nat>, id: nat, n: nat, time: real)
    requires 1 <= n && SendsBy(events, sent, id, n, time)
    ensures (n - 1) as real * 60.0 <= time
  {
    InvariantHolds(events);
    RunStartsAtZero(events);
    hide Run, StartedAtZero;
    var w := Run(events);
    forall r | r in sent ensures w.calls[r].claimedAt <= w.sys.clock {
      assert CallOk(w.sys, w.calls[r]);
    }
    hide Invariant;
    assert sent != {};
    SendsTakeTime(w, id, sent, w.sys.clock);
  }
}
