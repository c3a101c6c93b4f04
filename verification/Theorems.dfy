/** The pipeline's promises, over every run of the state machine. */
module Theorems {
  import opened Common
  import opened Charges
  import opened Pipeline
  import opened DeliveryPass
  import opened Reconciliation
  import opened Collection
  import opened CollectionFacts
  import opened Feed
  import opened Invariants
  import opened Machine
  import opened Upgrade

  /** `db'` is where the steps lead from `db`. */
  ghost predicate Leads(cfg: Settings, db: Db, steps: seq<Step>, db': Db)
    decreases |steps|
  {
    if steps == [] then db' == db
    else Possible(cfg, db, steps[0]) && Leads(cfg, Next(cfg, db, steps[0]), steps[1..], db')
  }

  /** A fresh installation. */
  function EmptyDb(clock: Time): Db {
    Db(clock, map[], map[], map[], map[], map[], map[], map[],
       History(multiset{}, multiset{}, map[], map[], {}, {}, map[], {}))
  }

  /** Where a run can begin: a fresh installation, or one that the migration has just upgraded. */
  ghost predicate Installation(db: Db) {
    db == EmptyDb(db.clock) || exists rs, os, order :: UpgradedFrom(db, rs, os, order)
  }

  lemma InstallationInv(db: Db)
    requires Installation(db)
    ensures Inv(db)
  {
    hide UpgradedFrom;
    if rs, os, order :| UpgradedFrom(db, rs, os, order) {
      UpgradedInv(db, rs, os, order);
    }
  }

  lemma {:induction false} RunKeepsInv(cfg: Settings, db: Db, steps: seq<Step>, db': Db)
    requires cfg.Valid() && Inv(db) && Leads(cfg, db, steps, db')
    ensures Inv(db')
    decreases |steps|
  {
    hide Inv, Possible, Next;
    if steps != [] {
      StepKeepsInv(cfg, db, steps[0]);
      RunKeepsInv(cfg, Next(cfg, db, steps[0]), steps[1..], db');
    }
  }

  // ---------------------------------------------------------------- sends

  /** Over every run, no charge is sent successfully more than once to a channel. */
  lemma AtMostOneSuccess(cfg: Settings, db0: Db, steps: seq<Step>, db': Db, s: Slot)
    requires cfg.Valid() && Installation(db0) && Leads(cfg, db0, steps, db')
    requires s.event.topic.ChargeTopic?
    ensures db'.hist.won[s] <= 1
  {
    InstallationInv(db0);
    RunKeepsInv(cfg, db0, steps, db');
    assert WonInv(db', s);
  }

  /** Over every run, an event that was retried by hand `r` times has had at most `5 (r + 1)`
      passes that sent anything; without a retry, no delivery was attempted more often than its
      event, no event more than five times, and an event fails only with its budget used up. */
  lemma SendBudget(cfg: Settings, db0: Db, steps: seq<Step>, db': Db, k: EventKey)
    requires cfg.Valid() && Installation(db0) && Leads(cfg, db0, steps, db')
    requires k in db'.outbox || (k in db'.hist.erased && k.topic.ChargeTopic?)
    ensures Count(db'.hist.passes, k) <= 5 * (Count(db'.hist.retries, k) + 1)
    ensures k in db'.outbox ==>
              db'.outbox[k].attempts <= 5 && (db'.outbox[k].status == EvFailed ==> db'.outbox[k].attempts == 5)
    ensures Count(db'.hist.retries, k) == 0 ==>
              forall s :: s in db'.deliveries && s.event == k ==>
                            k in db'.outbox && db'.deliveries[s].attempts <= db'.outbox[k].attempts
  {
    InstallationInv(db0);
    RunKeepsInv(cfg, db0, steps, db');
    assert k in db'.outbox ==> EventInv(db', k);
    assert k in db'.hist.erased ==> ErasedInv(db', k);
    forall s | s in db'.deliveries && s.event == k && Count(db'.hist.retries, k) == 0
      ensures k in db'.outbox && db'.deliveries[s].attempts <= db'.outbox[k].attempts
    {
      assert SlotInv(db', s);
    }
  }

  /** When an event no one has retried by hand is selected, every open delivery of it is due:
      its pass sends to exactly the matching channels without a success, and waits for none. */
  lemma SelectedIsDue(db: Db, k: EventKey, p: Pass)
    requires Inv(db) && k in db.outbox && Selectable(db.outbox[k], db.clock)
    requires Count(db.hist.retries, k) == 0
    requires PassOk(db, k, None, p)
    ensures forall s :: s in db.deliveries && s.event == k && !db.deliveries[s].Success() ==> db.deliveries[s].due <= db.clock
    ensures Reached(db.deliveries, k, p.rows, p.sends) == Unreached(db, k)
  {
    forall s | s in db.deliveries && s.event == k && !db.deliveries[s].Success()
      ensures db.deliveries[s].due <= db.clock
    {
      assert SlotInv(db, s);
    }
    hide Inv;
    ReachedIffUnreached(db, k, p);
  }

  /** So no pass of a run spends budget only waiting: until someone retries by hand, a pass over a
      selected event with someone left to tell sends, and with everyone told it delivers. */
  lemma NoPassOnlyWaits(cfg: Settings, db0: Db, steps: seq<Step>, db: Db, k: EventKey, p: Pass)
    requires cfg.Valid() && Installation(db0) && Leads(cfg, db0, steps, db)
    requires k in db.outbox && Selectable(db.outbox[k], db.clock) && Count(db.hist.retries, k) == 0
    requires PassOk(db, k, None, p)
    ensures Deliver(db, k, p).hist.sent == db.hist.sent + multiset(Unreached(db, k))
    ensures Count(Deliver(db, k, p).hist.passes, k) == Count(db.hist.passes, k) + if Unreached(db, k) == {} then 0 else 1
    ensures Unreached(db, k) == {} && p.rows != [] ==> Deliver(db, k, p).outbox[k].status == EvDelivered
  {
    InstallationInv(db0);
    RunKeepsInv(cfg, db0, steps, db);
    hide Inv, Leads, Matching, Reached, WonNow, Unreached;
    SelectedIsDue(db, k, p);
    hide PassOk, Selectable;
    DeliverSlots(db, k, None, p, Reached(db.deliveries, k, p.rows, p.sends), WonNow(db.deliveries, k, p.rows, p.sends));
    hide SlotStep;
    if Unreached(db, k) == {} && p.rows != [] {
      EveryoneTold(db, k, p);
    }
  }

  lemma EveryoneTold(db: Db, k: EventKey, p: Pass)
    requires k in db.outbox && PassOk(db, k, None, p) && Unreached(db, k) == {} && p.rows != []
    ensures Deliver(db, k, p).outbox[k].status == EvDelivered
  {
    PassRows(db.deliveries, k, p.rows, p.sends);
    PassFailures(db.deliveries, k, p.rows, p.sends);
    hide TakeTurns, Backoff;
    forall i | 0 <= i < |p.rows|
      ensures Won(Get(db.deliveries, Slot(k, p.rows[i])))
    {
      assert p.rows[i] in Elements(p.rows);
      assert Slot(k, p.rows[i]) !in Unreached(db, k);
    }
  }

  lemma ReachedIffUnreached(db: Db, k: EventKey, p: Pass)
    requires k in db.outbox && PassOk(db, k, None, p)
    requires forall s :: s in db.deliveries && s.event == k && !db.deliveries[s].Success() ==>
              db.deliveries[s].due <= db.clock
    ensures Reached(db.deliveries, k, p.rows, p.sends) == Unreached(db, k)
  {
    var r := Reached(db.deliveries, k, p.rows, p.sends);
    assert Targets(db, k, None) == Matching(db, k.user, db.outbox[k].eventType);
    forall s | s in Unreached(db, k)
      ensures s in r
    {
      assert s.channel in Elements(p.rows);
      var i :| 0 <= i < |p.rows| && p.rows[i] == s.channel;
      ReachedAt(db.deliveries, k, p.rows, p.sends, i);
      if s in db.deliveries {
        assert db.deliveries[s].due <= db.clock <= p.sends[i].checkedAt;
      }
    }
    forall s | s in r
      ensures s in Unreached(db, k)
    {
      var i :| 0 <= i < |p.rows| && s == Slot(k, p.rows[i]) && Sends(Get(db.deliveries, s), p.sends[i]);
      assert p.rows[i] in Elements(p.rows);
    }
  }

  /** One pass with all sends succeeding repairs any selectable event of any run, rebuilt or
      requeued or new, that no one has retried by hand and that has someone to tell. */
  lemma RepairConvergesInRun(cfg: Settings, db0: Db, steps: seq<Step>, db: Db, k: EventKey, p: Pass)
    requires cfg.Valid() && Installation(db0) && Leads(cfg, db0, steps, db)
    requires k in db.outbox && Selectable(db.outbox[k], db.clock) && Count(db.hist.retries, k) == 0
    requires PassOk(db, k, None, p) && Matching(db, k.user, db.outbox[k].eventType) != {}
    requires forall i :: 0 <= i < |p.sends| ==> p.sends[i].ok
    ensures Deliver(db, k, p).outbox[k].status == EvDelivered
    ensures Deliver(db, k, p).hist.won == db.hist.won + multiset(Unreached(db, k))
    ensures Deliver(db, k, p).hist.sent == db.hist.sent + multiset(Unreached(db, k))
  {
    InstallationInv(db0);
    RunKeepsInv(cfg, db0, steps, db);
    SelectedIsDue(db, k, p);
    hide Inv;
    RepairConverges(db, k, p);
  }

  // ---------------------------------------------------------------- records and events

  /** Over every run, a record of the current release is eligible exactly when it is newer than
      the watermark its inserting run began with, and has had its one event exactly when it is
      eligible; the event is there unless retention deleted it. */
  lemma EligibleIffAnnounced(cfg: Settings, db0: Db, steps: seq<Step>, db: Db, rs: RecordSlot)
    requires cfg.Valid() && Installation(db0) && Leads(cfg, db0, steps, db)
    requires rs in db.records && !db.records[rs].eventId.Legacy?
    ensures rs in db.hist.baseline
    ensures db.records[rs].eligible <==>
            db.hist.baseline[rs].Some? && db.records[rs].chargedAt > db.hist.baseline[rs].value
    ensures db.records[rs].eligible <==> ChargeKey(db.records[rs]) in db.outbox || ChargeKey(db.records[rs]) in db.hist.erased
    ensures !(ChargeKey(db.records[rs]) in db.outbox && ChargeKey(db.records[rs]) in db.hist.erased)
  {
    InstallationInv(db0);
    RunKeepsInv(cfg, db0, steps, db);
    var k := ChargeKey(db.records[rs]);
    assert RecordInv(db, rs);
    assert CurrentCharge(k) && RecordOf(k) == rs;
    assert k in db.outbox ==> EventInv(db, k);
    assert k in db.hist.erased ==> ErasedInv(db, k);
  }

  /** Conversely no charge is announced that is not stored, and its record stays for as long as its
      account does. */
  lemma AnnouncedIsStored(cfg: Settings, db0: Db, steps: seq<Step>, db: Db, k: EventKey)
    requires cfg.Valid() && Installation(db0) && Leads(cfg, db0, steps, db)
    requires k in db.outbox && CurrentCharge(k)
    ensures RecordOf(k) in db.records <==> k.topic.account !in db.hist.unbound
    ensures RecordOf(k) in db.records ==>
              db.records[RecordOf(k)].eligible && ChargeKey(db.records[RecordOf(k)]) == k
  {
    InstallationInv(db0);
    RunKeepsInv(cfg, db0, steps, db);
    assert EventInv(db, k);
    assert RecordOf(k) in db.records ==> RecordInv(db, RecordOf(k));
  }

  lemma BoundIsBacked(db: Db, account: AccountId)
    requires Inv(db) && account in db.accounts
    ensures Backed(db, account)
  {
    forall k | k in db.outbox && k.topic.ChargeTopic? && k.topic.account == account && !k.topic.eventId.Legacy?
      ensures RecordSlot(account, k.topic.eventId) in db.records
    {
      assert EventInv(db, k);
    }
  }

  /** So in every run of the pipeline, the counters of a collection are the sizes of what it did. */
  lemma CollectionsBalance(cfg: Settings, db0: Db, steps: seq<Step>, db: Db, step: Step)
    requires cfg.Valid() && Installation(db0) && Leads(cfg, db0, steps, db)
    requires step.Collecting? && Possible(cfg, db, step)
    ensures var prev := db.accounts[step.account].watermark;
            Balanced(TakePages(db, prev, step.fetches).p, Start(db, prev).p, RaisedOnItem(db, prev, step.fetches))
  {
    hide Installation, Leads, Inv, TakePages, Balanced, Backed, FetchesTimely;
    InstallationInv(db0);
    RunKeepsInv(cfg, db0, steps, db);
    BoundIsBacked(db, step.account);
    RunCounts(db, db.accounts[step.account].watermark, step.fetches, step.account);
  }

  // ---------------------------------------------------------------- retention and repair

  lemma DeliverKeepsErased(db: Db, k: EventKey, p: Pass)
    requires k in db.outbox && |p.rows| == |p.sends|
    ensures Deliver(db, k, p).hist.erased == db.hist.erased
  {
    DeliverFrame(db, k, p);
  }

  lemma {:induction false} BatchKeepsErased(db: Db, batch: seq<EventKey>, passes: seq<Pass>)
    requires PassesOk(db, batch, passes)
    requires forall i :: 0 <= i < |passes| ==> |passes[i].rows| == |passes[i].sends|
    ensures DeliverAll(db, batch, passes).hist.erased == db.hist.erased
  {
    if batch != [] {
      var n := |batch| - 1;
      BatchKeepsErased(db, batch[..n], passes[..n]);
      hide Deliver;
      DeliverKeepsErased(DeliverAll(db, batch[..n], passes[..n]), batch[n], passes[n]);
    }
  }

  lemma StepKeepsErased(cfg: Settings, db: Db, step: Step)
    requires cfg.Valid() && Inv(db) && Possible(cfg, db, step)
    ensures db.hist.erased <= Next(cfg, db, step).hist.erased
  {
    hide Inv, TakePages, DeliverAll, ReconcileAll, Deliver, Conclude, FetchesTimely, FetchesBuilt, RepairsTimely;
    hide Outdated, Surviving, RetryCheck;
    match step
    case Collecting(account, fetches, runId, endAt) =>
      PagesOnlyCollect(db, db.accounts[account].watermark, fetches);
      ConcludeFrame(TakePages(db, db.accounts[account].watermark, fetches), account, runId, endAt);
    case Processing(scope, now, batch, passes) =>
      PassesAreAligned(db.(clock := now), batch, passes);
      BatchKeepsErased(db.(clock := now), batch, passes);
    case Passing(k, p) => DeliverKeepsErased(db, k, p);
    case Reconciling(scope, now, records, reps) =>
      ScannedHaveEvents(cfg, db, scope, now, records);
      ClockKeepsInv(db, now);
      ReconcileKeepsInv(db.(clock := now), records, now, reps);
    case Announcing(k, t, p, at) => EnqueueOnlyCollects(db, k, t, p, at);
    case TestingChannel(c, name, at, pass) =>
      EnqueueOnlyCollects(db, TestKey(db, c, name), ScheduledJobFailed, Details("test"), at);
      DeliverKeepsErased(TestReady(db, c, name, at), TestKey(db, c, name), pass);
    case _ =>
  }

  lemma {:induction false} RunKeepsErased(cfg: Settings, db: Db, steps: seq<Step>, db': Db)
    requires cfg.Valid() && Inv(db) && Leads(cfg, db, steps, db')
    ensures db.hist.erased <= db'.hist.erased
    decreases |steps|
  {
    hide Inv, Possible, Next;
    if steps != [] {
      StepKeepsInv(cfg, db, steps[0]);
      StepKeepsErased(cfg, db, steps[0]);
      RunKeepsErased(cfg, Next(cfg, db, steps[0]), steps[1..], db');
    }
  }

  /** Retention and reconciliation never fight: a charge event that retention deleted at some
      point of a run is not there at any later point. */
  lemma ErasedStaysErased(cfg: Settings, db0: Db, steps: seq<Step>, db: Db, later: seq<Step>, db': Db, k: EventKey)
    requires cfg.Valid() && Installation(db0) && Leads(cfg, db0, steps, db) && Leads(cfg, db, later, db')
    requires k in db.hist.erased && k.topic.ChargeTopic?
    ensures k !in db'.outbox
  {
    InstallationInv(db0);
    RunKeepsInv(cfg, db0, steps, db);
    RunKeepsErased(cfg, db, later, db');
    RunKeepsInv(cfg, db, later, db');
    assert ErasedInv(db', k);
  }

  lemma SameKeysNoneRebuilt(db: Db, records: seq<ChargeRecord>, now: Time, reps: seq<Repair>)
    requires |records| == |reps| && ReconcileAll(db, records, now, reps).outbox.Keys == db.outbox.Keys
    ensures SummaryOf(db, records, now, reps).outboxRebuilt == 0
  {
    hide ReconcileAll, SummaryOf, Gained;
    CountersMatch(db, records, now, reps);
    var after := ReconcileAll(db, records, now, reps);
    assert |after.outbox| == |after.outbox.Keys| && |db.outbox| == |db.outbox.Keys|;
  }

  /** In no run does reconciliation find an event missing: records and events are stored
      together, and what retention deletes is out of every scan's window. */
  lemma ReconciliationNeverRebuilds(cfg: Settings, db0: Db, steps: seq<Step>, db: Db, step: Step)
    requires cfg.Valid() && Installation(db0) && Leads(cfg, db0, steps, db)
    requires step.Reconciling? && Possible(cfg, db, step)
    ensures Next(cfg, db, step).outbox.Keys == db.outbox.Keys
    ensures SummaryOf(db.(clock := step.now), step.records, step.now, step.reps).outboxRebuilt == 0
  {
    hide Inv, ReconcileAll, SummaryOf, Gained, Leads, RepairsTimely, Scanned, Installation;
    InstallationInv(db0);
    RunKeepsInv(cfg, db0, steps, db);
    ScannedHaveEvents(cfg, db, step.scope, step.now, step.records);
    ClockKeepsInv(db, step.now);
    var db1 := db.(clock := step.now);
    ReconcileKeepsInv(db1, step.records, step.now, step.reps);
    SameKeysNoneRebuilt(db1, step.records, step.now, step.reps);
  }
}
