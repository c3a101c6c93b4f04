/** Runs of a fresh installation that come to the two states the pipeline does not get out of. */
module Witnesses {
  import opened Common
  import opened Charges
  import opened Pipeline
  import opened DeliveryPass
  import opened Reconciliation
  import opened Collection
  import opened Feed
  import opened Invariants
  import opened Machine
  import opened Theorems
  import opened Stalls
  import opened Migration
  import opened Upgrade
  import opened Revival
  import opened MergedSends

  // ---------------------------------------------------------------- starved

  function Notice(i: nat): EventKey {
    EventKey(0, RunTopic(i))
  }

  /** A fresh installation after `n` events, one a second, to a user without a channel. */
  function Noticed(n: nat): Db {
    if n == 0 then EmptyDb(0)
    else Enqueue(Noticed(n - 1), Notice(n - 1), CollectionFailed, Details("account"), n - 1)
  }

  predicate IsNotice(k: EventKey, n: nat) {
    k.user == 0 && k.topic.RunTopic? && k.topic.run < n
  }

  function NoticeEvent(i: nat): Event {
    Event(CollectionFailed, Details("account"), EvPending, 0, i, i)
  }

  function NoticeStep(i: nat): Step {
    Announcing(Notice(i), CollectionFailed, Details("account"), i)
  }

  lemma {:induction false} NoticedHolds(n: nat)
    ensures Noticed(n).channels == map[] && Noticed(n).clock == if n == 0 then 0 else n - 1
    ensures forall k :: k in Noticed(n).outbox <==> IsNotice(k, n)
    ensures forall k :: IsNotice(k, n) ==> k in Noticed(n).outbox && Noticed(n).outbox[k] == NoticeEvent(k.topic.run)
  {
    if n > 0 {
      NoticedHolds(n - 1);
    }
  }

  lemma NoticePossible(cfg: Settings, n: nat)
    ensures Possible(cfg, Noticed(n), NoticeStep(n)) && Next(cfg, Noticed(n), NoticeStep(n)) == Noticed(n + 1)
  {
    NoticedHolds(n);
    hide Enqueue;
  }

  lemma NothingNoticed(cfg: Settings)
    ensures Leads(cfg, EmptyDb(0), [], Noticed(0))
  {
  }

  lemma {:induction false} NoticedReached(cfg: Settings, n: nat) returns (steps: seq<Step>)
    ensures Leads(cfg, EmptyDb(0), steps, Noticed(n))
  {
    hide *;
    steps := [];
    if n == 0 {
      NothingNoticed(cfg);
    } else {
      steps := NoticedReached(cfg, n - 1);
      NoticePossible(cfg, n - 1);
      LeadsOn(cfg, EmptyDb(0), steps, Noticed(n - 1), NoticeStep(n - 1));
      steps := steps + [NoticeStep(n - 1)];
    }
  }

  function Notices(n: nat): set<EventKey> {
    if n == 0 then {} else Notices(n - 1) + {Notice(n - 1)}
  }

  lemma {:induction false} NoticesAre(n: nat)
    ensures |Notices(n)| == n
    ensures forall k :: k in Notices(n) <==> IsNotice(k, n)
  {
    if n > 0 {
      NoticesAre(n - 1);
      assert Notice(n - 1) !in Notices(n - 1);
    }
  }

  lemma NoticeBlocks(n: nat, b: EventKey)
    requires IsNotice(b, n)
    ensures BlocksFor(Noticed(n + 1), b, Notice(n))
  {
    NoticedHolds(n + 1);
    hide Noticed;
    assert IsNotice(b, n + 1) && IsNotice(Notice(n), n + 1);
  }

  lemma LastIsStarved(n: nat)
    requires n >= BATCH_LIMIT
    ensures Starved(Noticed(n + 1), Notice(n), Notices(n))
  {
    hide Noticed, Notices, BlocksFor;
    NoticedHolds(n + 1);
    NoticesAre(n);
    var db, k, blockers := Noticed(n + 1), Notice(n), Notices(n);
    assert IsNotice(k, n + 1) && !IsNotice(k, n);
    forall b | b in blockers
      ensures b.user == k.user && BlocksFor(db, b, k)
    {
      NoticeBlocks(n, b);
    }
  }

  /** After a hundred and one such events, the last is starved. */
  lemma StarvationIsReached(cfg: Settings) returns (steps: seq<Step>, db: Db, k: EventKey, blockers: set<EventKey>)
    ensures Leads(cfg, EmptyDb(0), steps, db) && Starved(db, k, blockers)
  {
    var n: nat := BATCH_LIMIT;
    hide *;
    db, k, blockers := Noticed(n + 1), Notice(n), Notices(n);
    steps := NoticedReached(cfg, n + 1);
    LastIsStarved(n);
  }

  // ---------------------------------------------------------------- stuck

  function Charge(order: string, at: Time): ChargeRecord {
    ChargeRecord(0, 0, BySource(0, order), BySource(0, order), false, "", "", "", 100, 100, "", at, map[], 0)
  }

  const OLD := Charge("1", 0)
  const NEW := Charge("2", 1)

  function NewKey(): EventKey {
    EventKey(0, ChargeTopic(0, BySource(0, "2")))
  }

  function OnePage(r: ChargeRecord): seq<Fetch> {
    [Page([Arrival(Some(r), 0, 0)], false)]
  }

  /** Collecting a page with one new charge. */
  lemma CollectOne(cfg: Settings, db: Db, r: ChargeRecord, runId: nat)
    requires 0 in db.accounts && db.accounts[0].user == 0 && db.clock == 0
    requires BuiltFor(r, 0, 0) && FateOf(db, r) == Fresh
    ensures var prev := db.accounts[0].watermark; var a := Arrival(Some(r), 0, 0);
            && Possible(cfg, db, Collecting(0, OnePage(r), runId, 0))
            && Collect(db, 0, OnePage(r), runId, 0)
               == StoreCharge(db, r, prev, a).(
                  accounts := db.accounts[0 :=
                    db.accounts[0].(watermark := Some(MaxTime(prev, r.chargedAt)), lastChecked := Some(0))])
  {
    var prev := db.accounts[0].watermark;
    var a := Arrival(Some(r), 0, 0);
    var f := Page([a], false);
    var start := Start(db, prev);
    assert [f][..0] == [] && [a][..0] == [];
    assert TakePages(db, prev, []) == start;
    assert ScanItems(start.p, prev, [a]).p == Absorb(start.p, r, prev, a);
    StoreClock(db, r, prev, a);
    StoreOnlyCollects(db, r, prev, a);
    assert TakePages(db, prev, [f]) == TakePage(start, prev, f);
    assert FetchesTimely(db, prev, []) && ScanTimely(start.p, prev, []);
    hide StoreCharge, KnownPage;
  }

  /** The one event waits for its next pass, not before `t`, after `a` failed ones; one channel is
      subscribed. */
  ghost predicate Ready(db: Db, a: nat, t: Time) {
    && db.clock <= t && db.outbox.Keys == {NewKey()}
    && (var e := db.outbox[NewKey()];
        e.eventType == NewCharge && Selectable(e, t) && e.attempts == a)
    && db.channels == map[0 := Channel(0, true)] && db.hist.retired == {}
    && db.subs == map[SubKey(0, NewCharge) := Subscription(0, true)]
    && (forall s :: s in db.deliveries ==> s == Slot(NewKey(), 0))
    && (if a == 0 then db.deliveries == map[]
        else Slot(NewKey(), 0) in db.deliveries
             && var d := db.deliveries[Slot(NewKey(), 0)]; !d.Success() && d.attempts == a && d.due <= t)
    && RecordSlot(0, BySource(0, "2")) in db.records
    && db.records[RecordSlot(0, BySource(0, "2"))] == NEW.(eligible := true)
    && (forall q :: q in db.records && db.records[q].eligible ==> q == RecordSlot(0, BySource(0, "2")))
  }

  function OneSend(t: Time, ok: bool): Pass {
    Pass([0], [Send(t, t, ok)], t)
  }

  function OneEvent(t: Time, ok: bool): Step {
    Processing(None, t, [NewKey()], [OneSend(t, ok)])
  }

  /** What the pass does to the tables. */
  lemma OneTurn(db: Db, a: nat, t: Time, ok: bool)
    requires Ready(db, a, t)
    ensures var after := Deliver(db.(clock := t), NewKey(), OneSend(t, ok));
            && after.deliveries
               == db.deliveries[Slot(NewKey(), 0) := Attempted(Get(db.deliveries, Slot(NewKey(), 0)), Send(t, t, ok))]
            && after.outbox == db.outbox[NewKey() := Verdict(db.outbox[NewKey()], if ok then 0 else 1, t)]
  {
    var k, p := NewKey(), OneSend(t, ok);
    assert p.rows[..0] == [] && p.sends[..0] == [];
    hide Attempted, Verdict;
    assert TakeTurns(db.deliveries, k, p.rows, p.sends)
           == TakeTurn(TakeTurns(db.deliveries, k, [], []), k, 0, p.sends[0]);
  }

  /** A pass over the one event. */
  lemma OnePass(cfg: Settings, db: Db, a: nat, t: Time, ok: bool)
    requires Ready(db, a, t)
    ensures Possible(cfg, db, OneEvent(t, ok))
    ensures Next(cfg, db, OneEvent(t, ok)) == Deliver(db.(clock := t), NewKey(), OneSend(t, ok))
  {
    var db1 := db.(clock := t);
    var k, p := NewKey(), OneSend(t, ok);
    assert Matches(db1, 0, NewCharge, 0);
    assert Targets(db1, k, None) == {0} && Elements(p.rows) == {0};
    assert PassOk(db1, k, None, p);
    assert Selected(db, None, t, [k]);
    hide Ready, Deliver, PassOk, Selected, Targets;
    assert [k][..0] == [] && [p][..0] == [];
    assert DeliverAll(db1, [], []) == db1;
    assert PassesOk(db1, [], []);
    assert PassesOk(db1, [k], [p]);
  }

  lemma FailOnce(cfg: Settings, db: Db, a: nat, t: Time)
    requires Ready(db, a, t) && a < 4
    ensures Possible(cfg, db, OneEvent(t, false))
    ensures Ready(Next(cfg, db, OneEvent(t, false)), a + 1, t + Backoff(a + 1))
  {
    hide Possible, Next, Deliver, Backoff;
    OnePass(cfg, db, a, t, false);
    FailedTurn(db, a, t);
  }

  lemma FailedTurn(db: Db, a: nat, t: Time)
    requires Ready(db, a, t) && a < 4
    ensures Ready(Deliver(db.(clock := t), NewKey(), OneSend(t, false)), a + 1, t + Backoff(a + 1))
  {
    hide Deliver, Backoff;
    OneTurn(db, a, t, false);
    DeliverFrame(db.(clock := t), NewKey(), OneSend(t, false));
    assert Backoff(a + 1) >= 0 by { BackoffPositive(a + 1); }
  }

  lemma BackoffPositive(n: nat)
    ensures Backoff(n) > 0
  {
  }

  /** Four failed passes, each at the first instant it can take place. */
  lemma FourFailures(cfg: Settings, db0: Db, steps: seq<Step>, db: Db) returns (more: seq<Step>, db': Db, t: Time)
    requires Leads(cfg, db0, steps, db) && Ready(db, 0, 0)
    ensures Leads(cfg, db0, more, db') && Ready(db', 4, t) && t == 900
  {
    hide Ready, Leads, Possible, Next, Backoff;
    more, db', t := steps, db, 0;
    for a := 0 to 4
      invariant Leads(cfg, db0, more, db') && Ready(db', a, t)
      invariant t == if a == 0 then 0 else if a == 1 then 60 else if a == 2 then 180 else if a == 3 then 420 else 900
    {
      FailOnce(cfg, db', a, t);
      LeadsOn(cfg, db0, more, db', OneEvent(t, false));
      more := more + [OneEvent(t, false)];
      db' := Next(cfg, db', OneEvent(t, false));
      BackoffAt(a + 1);
      t := t + Backoff(a + 1);
    }
  }

  lemma BackoffAt(n: nat)
    requires 1 <= n <= 4
    ensures Backoff(n) == if n == 1 then 60 else if n == 2 then 120 else if n == 3 then 240 else 480
  {
    assert Pow2(1) == 2 && Pow2(2) == 4 && Pow2(3) == 8 && Pow2(4) == 16;
  }

  /** Delivered on the fifth attempt. */
  ghost predicate LateDelivered(db: Db, t: Time) {
    && db.clock == t && db.outbox.Keys == {NewKey()}
    && db.outbox[NewKey()].status == EvDelivered && db.outbox[NewKey()].attempts == 5
    && db.outbox[NewKey()].eventType == NewCharge
    && db.channels == map[0 := Channel(0, true)] && db.hist.retired == {}
    && (forall s :: s in db.deliveries ==> s == Slot(NewKey(), 0) && db.deliveries[s].Success())
    && RecordSlot(0, BySource(0, "2")) in db.records
    && db.records[RecordSlot(0, BySource(0, "2"))] == NEW.(eligible := true)
    && (forall q :: q in db.records && db.records[q].eligible ==> q == RecordSlot(0, BySource(0, "2")))
  }

  lemma FifthSucceeds(cfg: Settings, db: Db, t: Time)
    requires Ready(db, 4, t)
    ensures Possible(cfg, db, OneEvent(t, true))
    ensures LateDelivered(Next(cfg, db, OneEvent(t, true)), t)
  {
    hide Possible, Next, Deliver, Backoff;
    OnePass(cfg, db, 4, t, true);
    OneTurn(db, 4, t, true);
    DeliverFrame(db.(clock := t), NewKey(), OneSend(t, true));
  }

  const BOTH: map<SubKey, Subscription> :=
    map[SubKey(0, NewCharge) := Subscription(0, true), SubKey(1, NewCharge) := Subscription(0, true)]

  function Widened(db: Db): Db {
    SetSubscriptions(AddChannel(db, 1, 0, true), BOTH)
  }

  lemma WidenedMatches(db: Db, t: Time)
    requires LateDelivered(db, t)
    ensures Matching(Widened(db), 0, NewCharge) == {0, 1}
    ensures Slot(NewKey(), 1) !in Widened(db).deliveries
  {
    assert Matches(Widened(db), 0, NewCharge, 0) && Matches(Widened(db), 0, NewCharge, 1);
  }

  /** Reconciling one record whose event exists and has not failed. */
  lemma ReconcileOneRecord(db: Db, r: ChargeRecord, rep: Repair, t: Time)
    requires db.clock == t == rep.at && ChargeKey(r) in db.outbox && db.outbox[ChargeKey(r)].status != EvFailed
    requires Distinct(rep.rows) && Elements(rep.rows) == Matching(db, r.user, NewCharge)
    ensures RepairsOk(db, [r], [rep]) && RepairsTimely(db, [r], t, [rep])
    ensures ReconcileAll(db, [r], t, [rep]) == AttachDeliveries(db, ChargeKey(r), rep.rows, t)
  {
    assert [r][..0] == [] && [rep][..0] == [];
    assert ReconcileAll(db, [], t, []) == db && RepairsTimely(db, [], t, []);
    hide ChargeKey, NewChargePayload, Matching, EnsureDeliveries;
    assert db.(clock := t) == db;
  }

  /** The reconciliation that requeues the event for the second channel. */
  lemma RequeuedForAnother(cfg: Settings, db: Db, t: Time)
    requires cfg.Valid() && LateDelivered(db, t) && t == 900
    ensures var step := Reconciling(None, t, [NEW.(eligible := true)], [Repair([0, 1], t)]);
            Possible(cfg, Widened(db), step) && Stuck(Next(cfg, Widened(db), step), NewKey())
  {
    hide Possible, Next, LateDelivered, Widened, Matching, Scanned, ReconcileAll, RepairsOk, RepairsTimely;
    hide AttachDeliveries, Stuck, Stored;
    var db2 := Widened(db);
    var r, rep := NEW.(eligible := true), Repair([0, 1], t);
    WidenedMatches(db, t);
    WidenedIsLate(db, t, r);
    OneInWindow(cfg, db2, t, r);
    assert Elements(rep.rows) == {0, 1} && 1 in rep.rows;
    ReconcileOneRecord(db2, r, rep, t);
    ReconcilingRuns(cfg, db2, t, [r], [rep]);
    RequeuedStuckIff(db2, NewKey(), rep.rows, t);
  }

  lemma ReconcilingRuns(cfg: Settings, db: Db, t: Time, rs: seq<ChargeRecord>, reps: seq<Repair>)
    requires db.clock == t && Scanned(db, None, t - cfg.lookbackHours * HOUR, cfg.maxRecords, rs)
    requires RepairsOk(db, rs, reps) && RepairsTimely(db, rs, t, reps)
    ensures Possible(cfg, db, Reconciling(None, t, rs, reps))
    ensures Next(cfg, db, Reconciling(None, t, rs, reps)) == ReconcileAll(db, rs, t, reps)
  {
    hide Scanned, RepairsOk, RepairsTimely, ReconcileAll;
    assert db.(clock := t) == db;
  }

  lemma WidenedIsLate(db: Db, t: Time, r: ChargeRecord)
    requires LateDelivered(db, t) && r == NEW.(eligible := true)
    ensures var db2 := Widened(db);
            && db2.clock == t && db2.(clock := t) == db2
            && ChargeKey(r) == NewKey() && NewKey() in db2.outbox && Stored(db2, r)
            && db2.outbox[NewKey()].status == EvDelivered && db2.outbox[NewKey()].attempts >= MAX_ATTEMPTS
            && (forall q :: q in db2.records && db2.records[q].eligible ==> db2.records[q] == r)
            && (forall s :: s in db2.deliveries && s.event == NewKey() ==> db2.deliveries[s].Success())
  {
  }

  lemma OneInWindow(cfg: Settings, db: Db, t: Time, r: ChargeRecord)
    requires cfg.Valid() && t == 900 && Stored(db, r) && r.eligible && r.created == 0
    requires forall q :: q in db.records && db.records[q].eligible ==> db.records[q] == r
    ensures Scanned(db, None, t - cfg.lookbackHours * HOUR, cfg.maxRecords, [r])
  {
    assert cfg.lookbackHours * HOUR >= HOUR;
    forall q | Stored(db, q) && InWindow(q, None, t - cfg.lookbackHours * HOUR)
      ensures q in [r]
    {
      assert db.records[RecordSlot(q.account, q.recordKey)] == q;
    }
  }

  const FIRST: seq<Step> :=
    [BindingAccount(0, 0), AddingChannel(0, 0, true), Subscribing(map[SubKey(0, NewCharge) := Subscription(0, true)])]

  function Prepared(): Db {
    SetSubscriptions(AddChannel(Bind(EmptyDb(0), 0, 0), 0, 0, true), map[SubKey(0, NewCharge) := Subscription(0, true)])
  }

  lemma PreparedReached(cfg: Settings)
    ensures Leads(cfg, EmptyDb(0), FIRST, Prepared())
  {
    var d0 := EmptyDb(0);
    var d1 := Next(cfg, d0, FIRST[0]);
    var d2 := Next(cfg, d1, FIRST[1]);
    assert Leads(cfg, d0, [], d0);
    LeadsOn(cfg, d0, [], d0, FIRST[0]);
    LeadsOn(cfg, d0, [] + [FIRST[0]], d1, FIRST[1]);
    LeadsOn(cfg, d0, [] + [FIRST[0]] + [FIRST[1]], d2, FIRST[2]);
    assert FIRST == [] + [FIRST[0]] + [FIRST[1]] + [FIRST[2]];
  }

  function WithOld(): Db {
    StoreCharge(Prepared(), OLD, None, Arrival(Some(OLD), 0, 0)).(
    accounts := Prepared().accounts[0 := Account(0, Some(0), true, Some(0))])
  }

  function WithNew(): Db {
    StoreCharge(WithOld(), NEW, Some(0), Arrival(Some(NEW), 0, 0)).(
    accounts := WithOld().accounts[0 := Account(0, Some(1), true, Some(0))])
  }

  lemma OldReached(cfg: Settings)
    ensures Possible(cfg, Prepared(), Collecting(0, OnePage(OLD), 0, 0))
    ensures Next(cfg, Prepared(), Collecting(0, OnePage(OLD), 0, 0)) == WithOld()
  {
    CollectOne(cfg, Prepared(), OLD, 0);
    hide Collect, StoreCharge;
  }

  lemma NewReached(cfg: Settings)
    ensures Possible(cfg, WithOld(), Collecting(0, OnePage(NEW), 1, 0))
    ensures Next(cfg, WithOld(), Collecting(0, OnePage(NEW), 1, 0)) == WithNew()
  {
    assert WithOld().records == map[RecordSlot(0, BySource(0, "1")) := OLD.(eligible := false)];
    assert WithOld().accounts[0] == Account(0, Some(0), true, Some(0)) && WithOld().clock == 0;
    assert FateOf(WithOld(), NEW) == Fresh;
    hide WithOld, Collect, StoreCharge;
    CollectOne(cfg, WithOld(), NEW, 1);
  }

  lemma NewIsReady()
    ensures Ready(WithNew(), 0, 0)
  {
    assert ChargeKey(NEW) == NewKey();
    assert WithOld().records == map[RecordSlot(0, BySource(0, "1")) := OLD.(eligible := false)];
    assert WithOld().outbox == map[];
  }

  /** The first steps: an account, a channel with a subscription, an old charge that sets the
      watermark, and a new one that is announced. */
  lemma NewChargeAnnounced(cfg: Settings) returns (steps: seq<Step>, db: Db)
    ensures Leads(cfg, EmptyDb(0), steps, db) && Ready(db, 0, 0)
  {
    hide *;
    PreparedReached(cfg);
    OldReached(cfg);
    NewReached(cfg);
    NewIsReady();
    LeadsOn(cfg, EmptyDb(0), FIRST, Prepared(), Collecting(0, OnePage(OLD), 0, 0));
    LeadsOn(cfg, EmptyDb(0), FIRST + [Collecting(0, OnePage(OLD), 0, 0)], WithOld(),
      Collecting(0, OnePage(NEW), 1, 0));
    steps := FIRST + [Collecting(0, OnePage(OLD), 0, 0)] + [Collecting(0, OnePage(NEW), 1, 0)];
    db := WithNew();
  }

  /** A new charge, four passes that fail, a fifth that succeeds, a second channel, a reconciliation:
      the event is stuck. */
  lemma StuckIsReached(cfg: Settings) returns (steps: seq<Step>, db: Db)
    requires cfg.Valid()
    ensures Leads(cfg, EmptyDb(0), steps, db) && Stuck(db, NewKey())
  {
    hide *;
    var d0 := EmptyDb(0);
    var early, waiting := NewChargeAnnounced(cfg);
    var more, mid, t := FourFailures(cfg, d0, early, waiting);
    FifthSucceeds(cfg, mid, t);
    LeadsOn(cfg, d0, more, mid, OneEvent(t, true));
    var late := Next(cfg, mid, OneEvent(t, true));
    RequeuedForAnother(cfg, late, t);
    var db1, db2 := AddChannel(late, 1, 0, true), Widened(late);
    var step := Reconciling(None, t, [NEW.(eligible := true)], [Repair([0, 1], t)]);
    AddingAdds(cfg, late, t);
    SubscribingSets(cfg, db1);
    WidenedIs(late);
    var s1 := more + [OneEvent(t, true)];
    LeadsOn(cfg, d0, s1, late, AddingChannel(1, 0, true));
    LeadsOn(cfg, d0, s1 + [AddingChannel(1, 0, true)], db1, Subscribing(BOTH));
    LeadsOn(cfg, d0, s1 + [AddingChannel(1, 0, true)] + [Subscribing(BOTH)], db2, step);
    steps := s1 + [AddingChannel(1, 0, true)] + [Subscribing(BOTH)] + [step];
    db := Next(cfg, db2, step);
  }

  lemma AddingAdds(cfg: Settings, db: Db, t: Time)
    requires LateDelivered(db, t)
    ensures Possible(cfg, db, AddingChannel(1, 0, true))
    ensures Next(cfg, db, AddingChannel(1, 0, true)) == AddChannel(db, 1, 0, true)
  {
  }

  lemma SubscribingSets(cfg: Settings, db: Db)
    ensures Possible(cfg, db, Subscribing(BOTH)) && Next(cfg, db, Subscribing(BOTH)) == SetSubscriptions(db, BOTH)
  {
  }

  lemma WidenedIs(db: Db)
    ensures Widened(db) == SetSubscriptions(AddChannel(db, 1, 0, true), BOTH)
  {
  }

  // ---------------------------------------------------------------- sent twice

  /** Two records of one charge, as an earlier release could leave them. */
  function Row(serial: nat, at: Time): ChargeRecord {
    Charge("1", 0).(eventId := Legacy(serial), recordKey := Legacy(serial), created := at)
  }

  function RowKey(serial: nat): EventKey {
    EventKey(0, ChargeTopic(0, Legacy(serial)))
  }

  const ROWS: Records := map[0 := Row(0, 0), 1 := Row(1, 1)]
  const ORDER: seq<nat> := [0, 1]

  /** The first one's event waits; the second's has been delivered. */
  const EVENTS: Outboxes :=
    map[0 := OutRow(RowKey(0), EvPending, 0, None), 1 := OutRow(RowKey(1), EvDelivered, 1, None)]

  lemma RowsCanBeUpgraded()
    ensures Upgradable(ROWS, EVENTS, ORDER)
    ensures forall i :: i in ROWS ==> ChargeKey(ROWS[i]) == RowKey(i)
    ensures GroupOf(ROWS[0]) == GroupOf(ROWS[1])
  {
    SameMigrationKey(ROWS[0], ROWS[1]);
    hide MigrationKey;
  }

  /** The first record remains, for both. */
  lemma FirstRowRemains()
    ensures QueryOrder(ROWS, ORDER)
    ensures MergedRecords(ROWS, ORDER).Keys == {0}
    ensures Peers(ROWS, ORDER, 0) == Peers(ROWS, ORDER, 1) && Peers(ROWS, ORDER, 0)[0] == 0
  {
    RowsCanBeUpgraded();
    hide MergedRecords, Peers, GroupOf;
    EarliestRemains(ROWS, ORDER, 0);
    EarliestRemains(ROWS, ORDER, 1);
    SamePeers(ROWS, ORDER, 0, 1);
    OnlyRows();
  }

  lemma OnlyRows()
    requires QueryOrder(ROWS, ORDER)
    ensures MergedRecords(ROWS, ORDER).Keys <= {0, 1}
  {
    hide Peers;
  }

  /** Its event is kept, and the other merged into it. */
  lemma SecondEventIsMerged()
    ensures Upgradable(ROWS, EVENTS, ORDER) && MergedOutbox(ROWS, EVENTS, ORDER).Keys == {0, 1}
    ensures Owner(ROWS, EVENTS[0].key) == Some(0)
    ensures MergedOutbox(ROWS, EVENTS, ORDER)[0] == EVENTS[0]
    ensures MergedOutbox(ROWS, EVENTS, ORDER)[1] == EVENTS[1].(status := EvMerged, mergedInto := Some(0))
  {
    hide MergedRecords, MergedOutbox, Peers, Owner, Canonical, ChargeKey, IndexOf, RowsOf, GroupOf, Before;
    hide KeysDistinct, DistinctCharges, Charge;
    RowsCanBeUpgraded();
    FirstRowRemains();
    OwnerIs(ROWS, 0);
    OwnerIs(ROWS, 1);
    FirstRowsOwnIsKept(ROWS, EVENTS, Peers(ROWS, ORDER, 0), 0);
    MergedRowIs(ROWS, EVENTS, ORDER, 0, 0, 0);
    MergedRowIs(ROWS, EVENTS, ORDER, 1, 1, 0);
    MergedKeys();
  }

  lemma MergedKeys()
    requires Upgradable(ROWS, EVENTS, ORDER)
    ensures MergedOutbox(ROWS, EVENTS, ORDER).Keys == {0, 1}
  {
    hide Peers, Owner, MergedRow;
  }

  /** The database after the upgrade, with a channel that the merged event reached. */
  function Upgraded(): Db
    requires QueryOrder(ROWS, ORDER) && 0 in MergedRecords(ROWS, ORDER)
  {
    var row := MergedRecords(ROWS, ORDER)[0];
    var told := Slot(RowKey(1), 0);
    Db(1,
       map[0 := Account(0, None, true, None)],
       map[SlotOf(row) := row],
       map[RowKey(0) := Event(NewCharge, Details(""), EvPending, 0, 0, 0),
           RowKey(1) := Event(NewCharge, Details(""), EvMerged, 1, 1, 1)],
       map[told := Delivery(DlSucceeded, 1, 1, Some(1))],
       map[],
       map[0 := Channel(0, true)],
       map[],
       History(multiset{told}, multiset{told}, map[RowKey(0) := 0, RowKey(1) := 0],
               map[RowKey(0) := 0, RowKey(1) := 1], {}, {}, map[], {}))
  }

  lemma UpgradedInStep()
    requires QueryOrder(ROWS, ORDER) && 0 in MergedRecords(ROWS, ORDER)
    ensures DeliveriesInStep(Upgraded()) && HistoryBegins(Upgraded())
  {
    hide MergedRecords, QueryOrder, Before;
    var db, told := Upgraded(), Slot(RowKey(1), 0);
    SuccessIsTold(db, told);
  }

  lemma SuccessIsTold(db: Db, told: Slot)
    requires db.deliveries.Keys == {told} && db.deliveries[told].Success()
    ensures (set s | s in db.deliveries && db.deliveries[s].Success()) == {told}
  {
    assert (set s | s in db.deliveries && db.deliveries[s].Success()) == {told};
  }

  lemma UpgradedRecords()
    requires QueryOrder(ROWS, ORDER) && MergedRecords(ROWS, ORDER).Keys == {0}
    ensures RecordsFrom(Upgraded(), ROWS, ORDER)
  {
    hide MergedRecords, Before;
  }

  lemma UpgradedEvents()
    requires Upgradable(ROWS, EVENTS, ORDER) && 0 in MergedRecords(ROWS, ORDER)
    requires MergedOutbox(ROWS, EVENTS, ORDER).Keys == {0, 1}
    requires MergedOutbox(ROWS, EVENTS, ORDER)[0] == EVENTS[0]
    requires MergedOutbox(ROWS, EVENTS, ORDER)[1] == EVENTS[1].(status := EvMerged, mergedInto := Some(0))
    ensures EventsFrom(Upgraded(), ROWS, EVENTS, ORDER)
  {
    hide MergedRecords, MergedOutbox, Before, DistinctCharges, KeysDistinct, Row;
    var after := MergedOutbox(ROWS, EVENTS, ORDER);
    assert after[0].key == RowKey(0) && after[1].key == RowKey(1);
  }

  lemma UpgradedIs()
    ensures QueryOrder(ROWS, ORDER) && 0 in MergedRecords(ROWS, ORDER)
    ensures UpgradedFrom(Upgraded(), ROWS, EVENTS, ORDER)
  {
    hide MergedRecords, MergedOutbox, DeliveriesInStep, HistoryBegins, RecordsFrom, EventsFrom;
    hide MigrationKey, Peers, Owner, Before, DistinctCharges, ChargeKey, GroupOf, KeysDistinct;
    SecondEventIsMerged();
    FirstRowRemains();
    UpgradedInStep();
    UpgradedRecords();
    UpgradedEvents();
  }

  /** An upgraded installation in which the charge, sent to the channel once, can be sent again. */
  lemma SecondSendIsReached(cfg: Settings) returns (db: Db, rs: Records, os: Outboxes, order: seq<nat>, id: nat)
    requires cfg.Valid()
    ensures UpgradedFrom(db, rs, os, order) && IsKept(rs, os, order, id)
    ensures var ks := MergedInto(rs, os, order, id) + {KeptKey(rs, os, order, id)};
            !TwoTold(db, ks, 0) && CanBeSentTwice(cfg, db, ks, 0)
  {
    UpgradedIs();
    SecondEventIsMerged();
    hide UpgradedFrom, MergedRecords, MergedOutbox, Upgradable, Peers, Owner;
    db, rs, os, order, id := Upgraded(), ROWS, EVENTS, ORDER, 0;
    assert IsKept(rs, os, order, id) && KeptKey(rs, os, order, id) == RowKey(0);
    assert MergedInto(rs, os, order, id) == {RowKey(1)} by {
      assert MergedOutbox(rs, os, order)[1].key == RowKey(1);
    }
    SentTwiceIff(cfg, db, rs, os, order, id, 0);
    assert Told(db, RowKey(1), 0) && !Told(db, RowKey(0), 0) && StillOpen(db, RowKey(0));
    hide CanBeSentTwice;
  }
}
