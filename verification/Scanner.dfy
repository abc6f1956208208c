/** One scan tick: every strategy, then the risk engine, then the approval queue. */
module Scanner {
  import opened Shared
  import opened RiskTypes
  import opened Ev
  import opened RiskEngine
  import opened RiskProperties
  import opened Idempotency
  import opened Store
  import opened Approvals
  import opened ApprovalSafety
  import opened ApprovalProvenance
  import Funding

  /** A strategy is any pure function of the bars. */
  datatype Strat = Strat(key: string, evaluate: seq<Kline> -> Option<Signal>)

  datatype StrategyOutcome = StrategyOutcome(key: string, signal: Option<Signal>, decision: Option<TradeDecision>)
  {
    predicate Approved() { decision.Some? && decision.value.approved }
  }

  /** What a tick is given. `clocks[i]` is the monotonic clock when strategy `i` is authorized. */
  datatype ScanTick = ScanTick(strats: seq<Strat>, bars: seq<Kline>, fundingRate: real, account: AccountState,
                       profile: RiskProfile, stats: map<string, StrategyStats>, mode: Mode, now: real, clocks: seq<real>)
  {
    predicate Timed() {
      |clocks| == |strats| && forall i, j :: 0 <= i <= j < |clocks| ==> clocks[i] <= clocks[j]
    }
  }

  function DefaultEvInputs(fundingRate: real): (i: EvInputs)
    ensures i.Usable()
  {
    EvInputs(FeeSchedule(2.0, 6.0), true, 1.0, 1.0, 0.5, fundingRate, 8)
  }

  /** The scanner's cost inputs have an interval of 8 hours, so its entries never raise. */
  function EntryOf(t: ScanTick, i: nat, s: Signal): (e: Entry)
    requires i < |t.strats|
    ensures e.Computable()
  {
    var stats := if t.strats[i].key in t.stats then Some(t.stats[t.strats[i].key]) else None;
    Entry(s, t.account, t.profile, DefaultEvInputs(t.fundingRate), stats, t.mode, t.now)
  }

  // ---- What a tick does, strategy by strategy ----------------------------------------------------

  /** The tick's own claim map before strategy `n`; it starts empty. */
  function KeysBefore(t: ScanTick, n: nat): map<string, real>
    requires n <= |t.strats| && t.Timed()
    decreases n, 0
  {
    if n == 0 then map[]
    else
      var keys, o := KeysBefore(t, n - 1), OutcomeAt(t, n - 1);
      if o.Approved() then keys[o.signal.value.dedupHash := t.clocks[n - 1] + IDEMPOTENCY_TTL_SECONDS as real] else keys
  }

  function OutcomeAt(t: ScanTick, i: nat): (o: StrategyOutcome)
    requires i < |t.strats| && t.Timed()
    ensures o.Approved() ==> o.signal.Some?
    decreases i, 1
  {
    var sig := t.strats[i].evaluate(t.bars);
    if sig.None? then StrategyOutcome(t.strats[i].key, None, None)
    else StrategyOutcome(t.strats[i].key, sig, Some(Decide(EntryOf(t, i, sig.value), KeysBefore(t, i), t.clocks[i])))
  }

  /** The first `n` outcomes. */
  function Outcomes(t: ScanTick, n: nat): seq<StrategyOutcome>
    requires n <= |t.strats| && t.Timed()
  {
    if n == 0 then [] else Outcomes(t, n - 1) + [OutcomeAt(t, n - 1)]
  }

  /** The queue events the first `n` strategies cause. */
  function QueueEvents(t: ScanTick, user: UserId, n: nat): seq<Event>
    requires n <= |t.strats| && t.Timed()
  {
    if n == 0 then []
    else
      var o := OutcomeAt(t, n - 1);
      QueueEvents(t, user, n - 1)
      + if o.signal.Some? then [Event.Queue(user, EntryOf(t, n - 1, o.signal.value), KeysBefore(t, n - 1), t.clocks[n - 1])]
        else []
  }

  function StoreAfter(st: State, events: seq<Event>): State {
    if events == [] then st else ApplyToStore(StoreAfter(st, events[..|events| - 1]), events[|events| - 1])
  }

  lemma StoreAfterAppend(st: State, events: seq<Event>, ev: Event)
    ensures StoreAfter(st, events + [ev]) == ApplyToStore(StoreAfter(st, events), ev)
  {
    assert (events + [ev])[..|events|] == events;
  }

  lemma StoreAfterNothing(st: State)
    ensures StoreAfter(st, []) == st
  {
  }

  lemma NoKeysBefore(t: ScanTick)
    requires t.Timed()
    ensures KeysBefore(t, 0) == map[]
  {
  }

  lemma OutcomeMeaning(t: ScanTick, i: nat)
    requires i < |t.strats| && t.Timed()
    ensures var sig, o, keys := t.strats[i].evaluate(t.bars), OutcomeAt(t, i), KeysBefore(t, i);
      && o.key == t.strats[i].key && o.signal == sig && (sig.None? <==> o.decision.None?)
      && (sig.Some? ==> o.decision == Some(Decide(EntryOf(t, i, sig.value), keys, t.clocks[i])))
      && KeysBefore(t, i + 1) == if sig.Some? && o.decision.value.approved then keys[sig.value.dedupHash := t.clocks[i] + 60.0] else keys
  {
    hide Decide, EntryOf;
  }

  lemma NeverRaises(t: ScanTick, i: nat, s: Signal, keys: map<string, real>)
    requires i < |t.strats| && t.Timed()
    ensures !Raises(EntryOf(t, i, s), keys, t.clocks[i]) && EntryOf(t, i, s).signal == s && EntryOf(t, i, s).mode == t.mode
  {
    hide FirstFailing;
  }

  method ScanOnce(t: ScanTick, store: InMemoryStore?, user: Option<UserId>) returns (outcomes: seq<StrategyOutcome>)
    requires t.Timed()
    modifies store
    ensures outcomes == Outcomes(t, |t.strats|)
    ensures store != null && user.Some? ==>
      store.Contents() == StoreAfter(old(store.Contents()), QueueEvents(t, user.value, |t.strats|))
    ensures store != null && user.None? ==> store.Contents() == old(store.Contents())
  {
    hide Decide, Raises, EntryOf, RowFor, ParsedRow, ValidatedRow, KeysBefore, OutcomeAt;
    NoKeysBefore(t);
    var idem := new InMemoryIdempotencyStore();
    outcomes := [];
    if store != null { StoreAfterNothing(store.Contents()); }
    hide StoreAfter;

    for i := 0 to |t.strats|
      invariant fresh(idem) && idem.keys == KeysBefore(t, i)
      invariant outcomes == Outcomes(t, i)
      invariant store != null && user.Some? ==>
        store.Contents() == StoreAfter(old(store.Contents()), QueueEvents(t, user.value, i))
      invariant store != null && user.None? ==> store.Contents() == old(store.Contents())
    {
      OutcomeMeaning(t, i);
      var sig := t.strats[i].evaluate(t.bars);
      if sig.None? {
        outcomes := outcomes + [StrategyOutcome(t.strats[i].key, None, None)];
        if user.Some? { assert QueueEvents(t, user.value, i + 1) == QueueEvents(t, user.value, i); }
        continue;
      }
      var entry := EntryOf(t, i, sig.value);
      NeverRaises(t, i, sig.value, idem.keys);
      var ruled := AuthorizeNewEntry(entry, idem, t.clocks[i]);
      var decision := ruled.value;
      outcomes := outcomes + [StrategyOutcome(t.strats[i].key, sig, Some(decision))];
      if store != null && user.Some? {
        StoreAfterAppend(old(store.Contents()), QueueEvents(t, user.value, i),
                         Event.Queue(user.value, entry, KeysBefore(t, i), t.clocks[i]));
        ghost var before := store.signals;
        var parsed := store.AddParsedSignal(user.value, sig.value);
        var validated := store.AddValidatedSignal(user.value, decision);
        assert before + [parsed] + [validated] == before + [parsed, validated];
        if t.mode == SemiAuto && decision.approved {
          var _ := store.AddApproval(user.value, sig.value, decision);
        }
      }
    }
  }

  // ---- What that means ---------------------------------------------------------------------------

  /** A tick is a stretch of a run of the approval system. */
  lemma {:induction false} TickIsARun(events: seq<Event>, t: ScanTick, user: UserId, n: nat)
    requires n <= |t.strats| && t.Timed()
    ensures var q := QueueEvents(t, user, n);
      && Run(events + q).sys.store == StoreAfter(Run(events).sys.store, q)
      && Run(events + q).calls == Run(events).calls
  {
    hide Run, Apply, ApplyToStore, KeysBefore, OutcomeAt;
    if n == 0 {
      assert events + [] == events;
    } else {
      TickIsARun(events, t, user, n - 1);
      var q, p := QueueEvents(t, user, n), QueueEvents(t, user, n - 1);
      AtMostOneEvent(t, user, n - 1);
      hide StoreAfter, QueueEvents;
      if q != p {
        var ev := q[|q| - 1];
        assert events + q == (events + p) + [ev];
        RunAppend(events + p, ev);
        StoreEvent(Run(events + p), ev);
        StoreAfterAppend(Run(events).sys.store, p, ev);
      }
    }
  }

  lemma AtMostOneEvent(t: ScanTick, user: UserId, n: nat)
    requires n < |t.strats| && t.Timed()
    ensures var q, p := QueueEvents(t, user, n + 1), QueueEvents(t, user, n);
      q == p || (q != [] && q == p + [q[|q| - 1]] && q[|q| - 1].Queue?)
  {
    hide OutcomeAt, KeysBefore, EntryOf;
  }

  /** An approved key stays claimed for its window. */
  lemma {:induction false} ClaimStays(t: ScanTick, i: nat, n: nat)
    requires t.Timed() && i < n <= |t.strats| && OutcomeAt(t, i).Approved()
    ensures var key := OutcomeAt(t, i).signal.value.dedupHash;
      key in KeysBefore(t, n) && KeysBefore(t, n)[key] >= t.clocks[i] + 60.0
  {
    hide Decide;
    if n == i + 1 {
    } else {
      ClaimStays(t, i, n - 1);
    }
  }

  /** Within a minute no two approved signals of a tick share a key. */
  lemma ApprovedKeysAreDistinct(t: ScanTick, i: nat, j: nat)
    requires t.Timed() && i < j < |t.strats| && OutcomeAt(t, i).Approved() && OutcomeAt(t, j).Approved()
    requires t.clocks[j] < t.clocks[i] + 60.0
    ensures OutcomeAt(t, i).signal.value.dedupHash != OutcomeAt(t, j).signal.value.dedupHash
  {
    ClaimStays(t, i, j);
    ApprovedRecords(EntryOf(t, j, OutcomeAt(t, j).signal.value), KeysBefore(t, j), t.clocks[j]);
    hide Decide, KeysBefore;
  }

  /** How many of the first `n` outcomes were approved. */
  function ApprovedCount(t: ScanTick, n: nat): nat
    requires n <= |t.strats| && t.Timed()
  {
    if n == 0 then 0 else ApprovedCount(t, n - 1) + if OutcomeAt(t, n - 1).Approved() then 1 else 0
  }

  /** The row strategy `i` of a tick queues: its number counts the approvals before it. */
  function QueuedRow(st: State, t: ScanTick, user: UserId, i: nat): Approval
    requires i < |t.strats| && t.Timed() && OutcomeAt(t, i).Approved()
  {
    RowFor(|st.approvals| + ApprovedCount(t, i), user, OutcomeAt(t, i).signal.value, OutcomeAt(t, i).decision.value)
  }

  predicate IsQueued(st: State, t: ScanTick, user: UserId, i: nat, rows: seq<Approval>)
    requires i < |t.strats| && t.Timed()
  {
    OutcomeAt(t, i).Approved() ==>
      var row := QueuedRow(st, t, user, i);
      row.id < |rows| && rows[row.id] == row
  }

  /** The two log rows of every signal among the first `n` outcomes. */
  function SignalRows(t: ScanTick, user: UserId, n: nat): seq<SignalRow>
    requires n <= |t.strats| && t.Timed()
  {
    if n == 0 then [] else SignalRows(t, user, n - 1) + LogRows(user, OutcomeAt(t, n - 1))
  }

  function LogRows(user: UserId, o: StrategyOutcome): seq<SignalRow> {
    if o.signal.Some? && o.decision.Some? then [ParsedRow(user, o.signal.value), ValidatedRow(user, o.decision.value)] else []
  }

  /** One strategy writes its two log rows if it fired, and its approval if it was approved in semi-auto mode. */
  lemma OneStrategyRecords(st: State, t: ScanTick, user: UserId, i: nat)
    requires i < |t.strats| && t.Timed()
    ensures var o := OutcomeAt(t, i);
      var before, after := StoreAfter(st, QueueEvents(t, user, i)), StoreAfter(st, QueueEvents(t, user, i + 1));
      && after == before.(approvals := after.approvals, signals := after.signals)
      && after.signals == before.signals + LogRows(user, o)
      && after.approvals == before.approvals
           + if t.mode == SemiAuto && o.Approved() then [RowFor(|before.approvals|, user, o.signal.value, o.decision.value)] else []
  {
    var p, o := QueueEvents(t, user, i), OutcomeAt(t, i);
    hide RiskEngine.Decide, StoreAfter, RowFor, KeysBefore, ParsedRow, ValidatedRow;
    if o.signal.Some? {
      var e := EntryOf(t, i, o.signal.value);
      var ev := Event.Queue(user, e, KeysBefore(t, i), t.clocks[i]);
      assert QueueEvents(t, user, i + 1) == p + [ev];
      StoreAfterAppend(st, p, ev);
      assert o.decision == Some(RiskEngine.Decide(e, KeysBefore(t, i), t.clocks[i])) && e.mode == t.mode;
      hide OutcomeAt, QueueEvents, EntryOf;
    } else {
      assert QueueEvents(t, user, i + 1) == p;
    }
  }

  /**
   * In semi-auto mode the queue grew by exactly the approved outcomes, in order, one row each;
   * in every other mode, and for rejected signals, nothing was queued. Old rows are untouched.
   */
  predicate QueueGrown(st: State, rows: seq<Approval>, t: ScanTick, user: UserId, n: nat)
    requires n <= |t.strats| && t.Timed()
  {
    && st.approvals <= rows && |rows| == |st.approvals| + (if t.mode == SemiAuto then ApprovedCount(t, n) else 0)
    && (t.mode == SemiAuto ==> forall i :: 0 <= i < n ==> IsQueued(st, t, user, i, rows))
  }

  /** ... the signal log grew by two rows for every signal, and nothing else changed. */
  predicate Grown(st: State, st': State, t: ScanTick, user: UserId, n: nat)
    requires n <= |t.strats| && t.Timed()
  {
    && st' == st.(approvals := st'.approvals, signals := st'.signals)
    && st'.signals == st.signals + SignalRows(t, user, n) && QueueGrown(st, st'.approvals, t, user, n)
  }

  lemma StaysQueued(st: State, t: ScanTick, user: UserId, i: nat, rows: seq<Approval>, row: Approval)
    requires i < |t.strats| && t.Timed() && IsQueued(st, t, user, i, rows)
    ensures IsQueued(st, t, user, i, rows + [row])
  {
    hide OutcomeAt, QueuedRow;
  }

  lemma GrowStep(st: State, rows: seq<Approval>, t: ScanTick, user: UserId, n: nat)
    requires n < |t.strats| && t.Timed() && QueueGrown(st, rows, t, user, n)
    requires t.mode == SemiAuto && OutcomeAt(t, n).Approved()
    ensures var o := OutcomeAt(t, n);
      QueueGrown(st, rows + [RowFor(|rows|, user, o.signal.value, o.decision.value)], t, user, n + 1)
  {
    hide KeysBefore, RiskEngine.Decide;
    var o := OutcomeAt(t, n);
    var row := QueuedRow(st, t, user, n);
    assert row == RowFor(|rows|, user, o.signal.value, o.decision.value) && row.id == |rows|;
    hide OutcomeAt, RowFor, QueuedRow;
    assert IsQueued(st, t, user, n, rows + [row]);
    hide IsQueued;
    forall i | 0 <= i < n ensures IsQueued(st, t, user, i, rows + [row]) {
      StaysQueued(st, t, user, i, rows, row);
    }
  }

  lemma SkipStep(st: State, rows: seq<Approval>, t: ScanTick, user: UserId, n: nat)
    requires n < |t.strats| && t.Timed() && QueueGrown(st, rows, t, user, n)
    requires !(t.mode == SemiAuto && OutcomeAt(t, n).Approved())
    ensures QueueGrown(st, rows, t, user, n + 1)
  {
    hide OutcomeAt, QueuedRow;
  }

  lemma LogStep(st: State, before: State, after: State, t: ScanTick, user: UserId, n: nat)
    requires n < |t.strats| && t.Timed() && Grown(st, before, t, user, n)
    requires after == before.(approvals := after.approvals, signals := after.signals)
    requires after.signals == before.signals + LogRows(user, OutcomeAt(t, n))
    requires QueueGrown(st, after.approvals, t, user, n + 1)
    ensures Grown(st, after, t, user, n + 1)
  {
    var a, b := SignalRows(t, user, n), LogRows(user, OutcomeAt(t, n));
    assert SignalRows(t, user, n + 1) == a + b;
    hide OutcomeAt, QueueGrown, LogRows, SignalRows;
    assert (st.signals + a) + b == st.signals + (a + b);
  }

  lemma QueueStep(st: State, before: State, after: State, t: ScanTick, user: UserId, n: nat)
    requires n < |t.strats| && t.Timed() && Grown(st, before, t, user, n)
    requires var o := OutcomeAt(t, n);
      after.approvals == before.approvals
        + if t.mode == SemiAuto && o.Approved() then [RowFor(|before.approvals|, user, o.signal.value, o.decision.value)] else []
    ensures QueueGrown(st, after.approvals, t, user, n + 1)
  {
    hide OutcomeAt, QueueGrown, RowFor, SignalRows;
    if t.mode == SemiAuto && OutcomeAt(t, n).Approved() {
      GrowStep(st, before.approvals, t, user, n);
    } else {
      SkipStep(st, before.approvals, t, user, n);
      assert after.approvals == before.approvals;
    }
  }

  lemma NothingGrown(st: State, t: ScanTick, user: UserId)
    requires t.Timed()
    ensures Grown(st, StoreAfter(st, QueueEvents(t, user, 0)), t, user, 0)
  {
    StoreAfterNothing(st);
    hide OutcomeAt, ApplyToStore;
  }

  lemma {:induction false} QueueGrowsByApprovals(st: State, t: ScanTick, user: UserId, n: nat)
    requires n <= |t.strats| && t.Timed()
    ensures Grown(st, StoreAfter(st, QueueEvents(t, user, n)), t, user, n)
  {
    hide Grown, StoreAfter, OutcomeAt, QueueEvents, QueueGrown, RowFor, LogRows;
    if n == 0 {
      NothingGrown(st, t, user);
    } else {
      var before, after := StoreAfter(st, QueueEvents(t, user, n - 1)), StoreAfter(st, QueueEvents(t, user, n));
      QueueGrowsByApprovals(st, t, user, n - 1);
      OneStrategyRecords(st, t, user, n - 1);
      QueueStep(st, before, after, t, user, n - 1);
      LogStep(st, before, after, t, user, n - 1);
    }
  }

  /**
   * What an approval of the scanner rests on: in a live mode there are statistics over enough trades,
   * and whenever there are, the average trade earns more than 12 bps of fees, 1 of spread, 1 of
   * slippage, one funding payment and the required minimum.
   */
  lemma ApprovalPaysDefaultCosts(t: ScanTick, i: nat)
    requires t.Timed() && i < |t.strats| && OutcomeAt(t, i).Approved()
    ensures var known := t.strats[i].key in t.stats && t.stats[t.strats[i].key].sampleSize >= t.stats[t.strats[i].key].minSampleForLive;
      && (t.mode == SemiAuto || t.mode == FullAuto ==> known)
      && (known ==> var s := t.stats[t.strats[i].key];
           s.winRate * s.avgWinBps - (1.0 - s.winRate) * s.avgLossBps
             > 14.0 + t.fundingRate * 10000.0 + t.profile.minExpectedProfitAfterFeesBps)
  {
    var e := EntryOf(t, i, OutcomeAt(t, i).signal.value);
    ApprovesIffAllGatesHold(e, KeysBefore(t, i), t.clocks[i]);
    assert GateHolds(e, KeysBefore(t, i), t.clocks[i], 9);
    assert WorthItsCosts(e);
    HalfAnHourPaysOnce();
    hide Decide, KeysBefore, OutcomeAt, GateHolds, Funding.Cycles;
  }

  lemma HalfAnHourPaysOnce()
    ensures Funding.Cycles(0.5, 8) == 1
  {
  }

  /** A scanner without statistics queues nothing in semi-auto mode. */
  lemma NoStatisticsNoApproval(t: ScanTick, i: nat)
    requires t.Timed() && i < |t.strats| && t.strats[i].key !in t.stats && Live(t.mode)
    ensures !OutcomeAt(t, i).Approved()
  {
    var o := OutcomeAt(t, i);
    if o.signal.Some? {
      var e := EntryOf(t, i, o.signal.value);
      ApprovesIffAllGatesHold(e, KeysBefore(t, i), t.clocks[i]);
      assert !GateHolds(e, KeysBefore(t, i), t.clocks[i], 9);
      hide Decide, KeysBefore, GateHolds;
    }
  }
}
