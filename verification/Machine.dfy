/** The pipeline as one state machine: every operation is a step, and the promises are made
    over all runs. */
module Machine {
  import opened Common
  import opened Charges
  import opened Pipeline
  import opened DeliveryPass
  import opened Reconciliation
  import opened Collection
  import opened Feed
  import opened Invariants

  /** The deployment's settings, with the bounds the settings class enforces. */
  datatype Settings = Settings(retentionDays: nat, lookbackHours: nat, maxRecords: nat)
  {
    predicate Valid() {
      7 <= retentionDays && 1 <= lookbackHours <= 168 && 50 <= maxRecords
    }
  }

  /** `Processing` is a whole pass over the outbox; `Passing` is one event of such a pass, its
      batch interrupted by other steps, with the event still selectable when its turn comes. */
  datatype Step =
    | Collecting(account: AccountId, fetches: seq<Fetch>, runId: nat, endAt: Time)
    | Processing(scope: Option<UserId>, now: Time, batch: seq<EventKey>, passes: seq<Pass>)
    | Passing(event: EventKey, onePass: Pass)
    | Reconciling(scope: Option<UserId>, now: Time, records: seq<ChargeRecord>, reps: seq<Repair>)
    | Retrying(user: UserId, slot: Slot, now: Time)
    | CleaningUp(now: Time)
    | Announcing(k: EventKey, t: EventType, p: Payload, at: Time)
    | AddingChannel(c: ChannelId, user: UserId, enabled: bool)
    | EnablingChannel(c: ChannelId, enabled: bool)
    | Subscribing(subs: map<SubKey, Subscription>)
    | DeletingChannel(c: ChannelId)
    | TestingChannel(c: ChannelId, name: string, at: Time, pass: Pass)
    | BindingAccount(account: AccountId, user: UserId)
    | UnbindingAccount(account: AccountId)

  // ---------------------------------------------------------------- what can happen

  /** The instants of a page's items fit the state each item finds. */
  ghost predicate ScanTimely(p: Progress, prev: Option<Time>, items: seq<Arrival>) {
    items == [] ||
    var n := |items| - 1;
    && ScanTimely(p, prev, items[..n])
    && ScanItems(p, prev, items[..n]).p.db.clock <= items[n].queuedAt
    && items[n].storedAt <= items[n].queuedAt
  }

  ghost predicate FetchesTimely(db: Db, prev: Option<Time>, fetches: seq<Fetch>) {
    fetches == [] ||
    var n := |fetches| - 1;
    && FetchesTimely(db, prev, fetches[..n])
    && (fetches[n].Page? ==> ScanTimely(TakePages(db, prev, fetches[..n]).p, prev, fetches[n].items))
  }

  ghost predicate FetchesBuilt(fetches: seq<Fetch>, user: UserId, account: AccountId) {
    forall i, j ::
      0 <= i < |fetches| && fetches[i].Page? && 0 <= j < |fetches[i].items| && fetches[i].items[j].built.Some? ==>
        BuiltFor(fetches[i].items[j].built.value, user, account)
  }

  ghost predicate RepairsTimely(db: Db, batch: seq<ChargeRecord>, now: Time, reps: seq<Repair>) {
    && |batch| == |reps|
    && (batch == [] ||
        var n := |batch| - 1;
        && RepairsTimely(db, batch[..n], now, reps[..n])
        && ReconcileAll(db, batch[..n], now, reps[..n]).clock <= reps[n].at)
  }

  /** A channel test sends its own event to the one channel, subscribed for the occasion. */
  function TestKey(db: Db, c: ChannelId, name: string): EventKey
    requires c in db.channels
  {
    EventKey(db.channels[c].user, NamedTopic(name))
  }

  function TestReady(db: Db, c: ChannelId, name: string, at: Time): Db
    requires c in db.channels
  {
    var k := TestKey(db, c, name);
    SetSubscriptions(
      Enqueue(db, k, ScheduledJobFailed, Details("test"), at),
      db.subs[SubKey(c, ScheduledJobFailed) := Subscription(k.user, true)])
  }

  ghost predicate Possible(cfg: Settings, db: Db, step: Step) {
    match step
    case Collecting(account, fetches, runId, endAt) =>
      && account in db.accounts
      && FetchesBuilt(fetches, db.accounts[account].user, account)
      && FetchesTimely(db, db.accounts[account].watermark, fetches)
      && TakePages(db, db.accounts[account].watermark, fetches).p.db.clock <= endAt
    case Processing(scope, now, batch, passes) =>
      && db.clock <= now && Selected(db, scope, now, batch) && PassesOk(db.(clock := now), batch, passes)
    case Passing(k, p) => k in db.outbox && Selectable(db.outbox[k], db.clock) && PassOk(db, k, None, p)
    case Reconciling(scope, now, records, reps) =>
      && db.clock <= now
      && Scanned(db, scope, now - cfg.lookbackHours * HOUR, cfg.maxRecords, records)
      && RepairsOk(db.(clock := now), records, reps)
      && RepairsTimely(db.(clock := now), records, now, reps)
    case Retrying(user, slot, now) => db.clock <= now
    case CleaningUp(now) => db.clock <= now
    case Announcing(k, t, p, at) => db.clock <= at && !k.topic.ChargeTopic?
    case AddingChannel(c, user, enabled) => c !in db.channels && c !in db.hist.retired
    case EnablingChannel(c, enabled) => c in db.channels
    case Subscribing(subs) => true
    case DeletingChannel(c) => c in db.channels
    case TestingChannel(c, name, at, pass) =>
      && c in db.channels && db.channels[c].enabled
      && db.clock <= at && TestKey(db, c, name) !in db.outbox
      && PassOk(TestReady(db, c, name, at), TestKey(db, c, name), Some(c), pass)
    case BindingAccount(account, user) =>
      account !in db.hist.unbound && (account in db.accounts ==> db.accounts[account].user == user)
    case UnbindingAccount(account) => account in db.accounts
  }

  function Bind(db: Db, account: AccountId, user: UserId): Db {
    db.(accounts := db.accounts[account :=
        if account in db.accounts then db.accounts[account].(active := true) else Account(user, None, true, None)])
  }

  ghost function Next(cfg: Settings, db: Db, step: Step): Db
    requires Possible(cfg, db, step)
  {
    match step
    case Collecting(account, fetches, runId, endAt) => Collect(db, account, fetches, runId, endAt)
    case Processing(scope, now, batch, passes) => ProcessBatch(db, now, batch, passes)
    case Passing(k, p) => Deliver(db, k, p)
    case Reconciling(scope, now, records, reps) => ReconcileAll(db.(clock := now), records, now, reps)
    case Retrying(user, slot, now) => RetryDelivery(db, user, slot, now)
    case CleaningUp(now) => CleanUp(db, cfg.retentionDays, now)
    case Announcing(k, t, p, at) => Enqueue(db, k, t, p, at)
    case AddingChannel(c, user, enabled) => AddChannel(db, c, user, enabled)
    case EnablingChannel(c, enabled) => EnableChannel(db, c, enabled)
    case Subscribing(subs) => SetSubscriptions(db, subs)
    case DeletingChannel(c) => DeleteChannel(db, c)
    case TestingChannel(c, name, at, pass) =>
      SetSubscriptions(Deliver(TestReady(db, c, name, at), TestKey(db, c, name), pass), db.subs)
    case BindingAccount(account, user) => Bind(db, account, user)
    case UnbindingAccount(account) => Unbind(db, account)
  }

  ghost function ProcessBatch(db: Db, now: Time, batch: seq<EventKey>, passes: seq<Pass>): Db
    requires PassesOk(db.(clock := now), batch, passes)
  {
    PassesAreAligned(db.(clock := now), batch, passes);
    DeliverAll(db.(clock := now), batch, passes)
  }

  lemma {:induction false} PassesAreAligned(db: Db, batch: seq<EventKey>, passes: seq<Pass>)
    requires PassesOk(db, batch, passes)
    ensures forall i :: 0 <= i < |passes| ==> |passes[i].rows| == |passes[i].sends|
  {
    if batch != [] {
      var n := |batch| - 1;
      assert |passes[n].rows| == |passes[n].sends|;
    }
  }

  // ---------------------------------------------------------------- every step keeps the invariant

  lemma {:induction false} ScanKeepsInv(p: Progress, prev: Option<Time>, items: seq<Arrival>, user: UserId,
          account: AccountId)
    requires Inv(p.db) && ScanTimely(p, prev, items)
    requires account in p.db.accounts && p.db.accounts[account].user == user
    requires forall j :: 0 <= j < |items| && items[j].built.Some? ==> BuiltFor(items[j].built.value, user, account)
    ensures Inv(ScanItems(p, prev, items).p.db)
    ensures p.db.clock <= ScanItems(p, prev, items).p.db.clock
  {
    hide AbsorbDb, FateOf, Inv;
    if items != [] {
      var n := |items| - 1;
      ScanKeepsInv(p, prev, items[..n], user, account);
      ScanOnlyCollects(p, prev, items[..n]);
      var s := ScanItems(p, prev, items[..n]);
      if !s.raised && items[n].built.Some? {
        assert ScanItems(p, prev, items).p.db == AbsorbDb(s.p.db, items[n].built.value, prev, items[n]);
        hide ScanItems;
        AbsorbKeepsInv(s.p.db, items[n].built.value, prev, items[n]);
        AbsorbClock(s.p.db, items[n].built.value, prev, items[n]);
      }
    }
  }

  lemma AbsorbClock(db: Db, r: ChargeRecord, prev: Option<Time>, a: Arrival)
    ensures AbsorbDb(db, r, prev, a).clock == a.queuedAt
  {
    hide ChargeKey, NewChargePayload, AsStored, FateOf, Enrich;
    match FateOf(db, r)
    case Known =>
    case Conflict =>
    case Fresh => StoreClock(db, r, prev, a);
  }

  lemma StoreClock(db: Db, r: ChargeRecord, prev: Option<Time>, a: Arrival)
    ensures StoreCharge(db, r, prev, a).clock == a.queuedAt
  {
    hide ChargeKey, NewChargePayload, AsStored;
    var db1 := StoreRecord(db, RecordSlot(r.account, r.recordKey), AsStored(r, prev, a), prev, a.queuedAt);
    if ChargeKey(r) in db1.outbox {
    } else {
    }
  }

  /** Time does not run backwards in a collection. */
  lemma {:induction false} ScanClock(p: Progress, prev: Option<Time>, items: seq<Arrival>)
    requires ScanTimely(p, prev, items)
    ensures p.db.clock <= ScanItems(p, prev, items).p.db.clock
  {
    hide AbsorbDb, FateOf;
    if items != [] {
      var n := |items| - 1;
      ScanClock(p, prev, items[..n]);
      var s := ScanItems(p, prev, items[..n]);
      if !s.raised && items[n].built.Some? {
        assert ScanItems(p, prev, items).p.db == AbsorbDb(s.p.db, items[n].built.value, prev, items[n]);
        AbsorbClock(s.p.db, items[n].built.value, prev, items[n]);
      }
    }
  }

  lemma {:induction false} PagesClock(db: Db, prev: Option<Time>, fetches: seq<Fetch>)
    requires FetchesTimely(db, prev, fetches)
    ensures db.clock <= TakePages(db, prev, fetches).p.db.clock
  {
    if fetches != [] {
      var n := |fetches| - 1;
      PagesClock(db, prev, fetches[..n]);
      var run := TakePages(db, prev, fetches[..n]);
      if run.phase == Going {
        TakePagesSnoc(db, prev, fetches);
        if fetches[n].Page? {
          ScanClock(run.p, prev, fetches[n].items);
          hide TakePages, ScanItems, KnownPage;
          assert TakePage(run, prev, fetches[n]).p == ScanItems(run.p, prev, fetches[n].items).p;
        }
      }
    }
  }

  lemma ConcludeClock(run: Run, account: AccountId, runId: nat, endAt: Time)
    requires account in run.p.db.accounts
    ensures Conclude(run, account, runId, endAt).clock == endAt
  {
  }

  lemma {:induction false} ReconcileClock(db: Db, batch: seq<ChargeRecord>, now: Time, reps: seq<Repair>)
    requires RepairsTimely(db, batch, now, reps)
    ensures db.clock <= ReconcileAll(db, batch, now, reps).clock
  {
    if batch != [] {
      var n := |batch| - 1;
      ReconcileClock(db, batch[..n], now, reps[..n]);
      RepairClock(ReconcileAll(db, batch[..n], now, reps[..n]), ChargeKey(batch[n]), NewChargePayload(batch[n]), now, reps[n]);
      hide RepairEvent;
    }
  }

  lemma {:induction false} PagesKeepInv(db: Db, prev: Option<Time>, fetches: seq<Fetch>, user: UserId,
          account: AccountId)
    requires Inv(db) && FetchesTimely(db, prev, fetches) && FetchesBuilt(fetches, user, account)
    requires account in db.accounts && db.accounts[account].user == user
    ensures Inv(TakePages(db, prev, fetches).p.db)
    ensures db.clock <= TakePages(db, prev, fetches).p.db.clock
  {
    if fetches != [] {
      var n := |fetches| - 1;
      PagesKeepInv(db, prev, fetches[..n], user, account);
      PagesOnlyCollect(db, prev, fetches[..n]);
      var run := TakePages(db, prev, fetches[..n]);
      if run.phase == Going {
        TakePagesSnoc(db, prev, fetches);
        if fetches[n].Page? {
          ScanKeepsInv(run.p, prev, fetches[n].items, user, account);
          hide TakePages, Inv, ScanItems, KnownPage;
          assert TakePage(run, prev, fetches[n]).p == ScanItems(run.p, prev, fetches[n].items).p;
        }
      }
    }
  }

  lemma ReportKeepsInv(db: Db, user: UserId, account: AccountId, auth: bool, runId: nat, endAt: Time)
    requires Inv(db) && db.clock <= endAt
    ensures Inv(Report(db, user, account, auth, runId, endAt))
  {
    hide Inv;
    var ck, rk := EventKey(user, CookieTopic(account)), EventKey(user, RunTopic(runId));
    if auth {
      EnqueueKeepsInv(db, ck, CookieExpired, Details("account"), endAt);
      var db1 := Enqueue(db, ck, CookieExpired, Details("account"), endAt);
      EnqueueKeepsInv(db1, rk, CollectionFailed, Details("account"), endAt);
    } else {
      EnqueueKeepsInv(db, rk, CollectionFailed, Details("account"), endAt);
    }
  }

  lemma ConcludeKeepsInv(run: Run, account: AccountId, runId: nat, endAt: Time)
    requires Inv(run.p.db) && account in run.p.db.accounts && run.p.db.clock <= endAt
    ensures Inv(Conclude(run, account, runId, endAt))
  {
    hide Inv, Report;
    var db := run.p.db;
    var acc := db.accounts[account];
    if run.phase.Failed? {
      var accounts := db.accounts[account := Suspended(acc, run.phase.auth)];
      AccountsKeepInv(db, accounts);
      ReportKeepsInv(db.(accounts := accounts), acc.user, account, run.phase.auth, runId, endAt);
    } else {
      var accounts := db.accounts[account := acc.(watermark := run.p.newest, lastChecked := Some(endAt))];
      AccountsKeepInv(db, accounts);
      ClockKeepsInv(db.(accounts := accounts), endAt);
    }
  }

  /** Delivering a batch of selectable events keeps everything; an event not yet reached is
      still as the selection found it. */
  lemma {:induction false} BatchKeepsInv(db: Db, batch: seq<EventKey>, passes: seq<Pass>)
    requires Inv(db) && Distinct(batch) && PassesOk(db, batch, passes)
    requires forall i :: 0 <= i < |passes| ==> |passes[i].rows| == |passes[i].sends|
    requires forall k :: k in batch ==> k in db.outbox && Selectable(db.outbox[k], db.clock)
    ensures Inv(DeliverAll(db, batch, passes))
    ensures db.clock <= DeliverAll(db, batch, passes).clock
    ensures forall k :: k in db.outbox && k !in batch ==> DeliverAll(db, batch, passes).outbox[k] == db.outbox[k]
  {
    hide Inv, PassesOk, PassOk, Deliver, Selectable;
    if batch != [] {
      var n := |batch| - 1;
      var k := batch[n];
      LastPass(db, batch, passes);
      var mid := DeliverAll(db, batch[..n], passes[..n]);
      assert DeliverAll(db, batch, passes) == Deliver(mid, k, passes[n]);
      hide DeliverAll;
      BatchKeepsInv(db, batch[..n], passes[..n]);
      assert k in batch && mid.outbox[k] == db.outbox[k];
      LaterStill(db.outbox[k], db.clock, mid.clock);
      DeliverKeepsInv(mid, k, None, passes[n]);
      DeliverFrame(mid, k, passes[n]);
      forall j | j in db.outbox && j !in batch
        ensures Deliver(mid, k, passes[n]).outbox[j] == db.outbox[j]
      {
        assert j != k && j !in batch[..n];
      }
    }
  }

  /** An event that can be selected still can be later on. */
  lemma LaterStill(e: Event, now: Time, later: Time)
    requires Selectable(e, now) && now <= later
    ensures Selectable(e, later)
  {
  }

  /** The last pass of a batch, in the state the others leave. */
  lemma LastPass(db: Db, batch: seq<EventKey>, passes: seq<Pass>)
    requires batch != [] && Distinct(batch) && PassesOk(db, batch, passes)
    requires forall i :: 0 <= i < |passes| ==> |passes[i].rows| == |passes[i].sends|
    ensures var n := |batch| - 1;
            && |passes| == n + 1 && PassesOk(db, batch[..n], passes[..n])
            && (forall k :: k in batch ==> k in db.outbox) && batch[n] !in batch[..n]
            && (forall k :: k in batch[..n] ==> k in batch)
    ensures var n := |batch| - 1; var mid := DeliverAll(db, batch[..n], passes[..n]);
            && batch[n] in mid.outbox && PassOk(mid, batch[n], None, passes[n]) && mid.clock <= passes[n].endAt
  {
    hide Deliver, DeliverAll;
    assert forall k :: k in batch[..|batch| - 1] ==> k in batch;
  }

  /** Reconciling keeps everything and never finds an event missing. */
  lemma {:induction false} ReconcileKeepsInv(db: Db, batch: seq<ChargeRecord>, now: Time, reps: seq<Repair>)
    requires Inv(db) && RepairsOk(db, batch, reps) && RepairsTimely(db, batch, now, reps) && now <= db.clock
    requires forall r :: r in batch ==> ChargeKey(r) in db.outbox
    ensures Inv(ReconcileAll(db, batch, now, reps))
    ensures db.clock <= ReconcileAll(db, batch, now, reps).clock
    ensures ReconcileAll(db, batch, now, reps).outbox.Keys == db.outbox.Keys
    ensures ReconcileAll(db, batch, now, reps).hist == db.hist
  {
    if batch != [] {
      var n := |batch| - 1;
      ReconcileKeepsInv(db, batch[..n], now, reps[..n]);
      var mid := ReconcileAll(db, batch[..n], now, reps[..n]);
      LastRepair(db, batch, now, reps);
      assert batch[n] in batch;
      hide *;
      RepairKeepsInv(mid, ChargeKey(batch[n]), NewChargePayload(batch[n]), now, reps[n]);
      RepairClock(mid, ChargeKey(batch[n]), NewChargePayload(batch[n]), now, reps[n]);
    }
  }

  /** The last repair of a batch, in the state the others leave. */
  lemma LastRepair(db: Db, batch: seq<ChargeRecord>, now: Time, reps: seq<Repair>)
    requires batch != [] && RepairsOk(db, batch, reps) && RepairsTimely(db, batch, now, reps)
    ensures var n := |batch| - 1;
            var mid := ReconcileAll(db, batch[..n], now, reps[..n]);
            && RepairsOk(db, batch[..n], reps[..n]) && RepairsTimely(db, batch[..n], now, reps[..n])
            && ReconcileAll(db, batch, now, reps)
               == RepairEvent(mid, ChargeKey(batch[n]), NewChargePayload(batch[n]), now, reps[n])
            && Elements(reps[n].rows) == Matching(mid, ChargeKey(batch[n]).user, NewCharge)
            && mid.clock <= reps[n].at
  {
    hide RepairEvent, NewChargePayload, Complete, Matching;
    var n := |batch| - 1;
    assert ChargeKey(batch[n]).user == batch[n].user;
    hide ChargeKey;
    RunRepairs(db, batch[..n], now, reps[..n]);
    var mid := ReconcileAll(db, batch[..n], now, reps[..n]);
    SameMatching(db, mid, batch[n].user);
  }

  lemma RepairClock(db: Db, k: EventKey, p: Payload, now: Time, rep: Repair)
    ensures RepairEvent(db, k, p, now, rep).clock == rep.at
  {
    hide EnsureDeliveries;
    if k in db.outbox {
    } else {
    }
  }

  lemma TestKeepsInv(db: Db, c: ChannelId, name: string, at: Time, pass: Pass)
    requires Inv(db) && c in db.channels && db.clock <= at && TestKey(db, c, name) !in db.outbox
    requires PassOk(TestReady(db, c, name, at), TestKey(db, c, name), Some(c), pass)
    ensures Inv(SetSubscriptions(Deliver(TestReady(db, c, name, at), TestKey(db, c, name), pass), db.subs))
  {
    hide Inv, Deliver;
    var k := TestKey(db, c, name);
    var ready := TestReady(db, c, name, at);
    EnqueueKeepsInv(db, k, ScheduledJobFailed, Details("test"), at);
    SubscriptionsKeepInv(Enqueue(db, k, ScheduledJobFailed, Details("test"), at), ready.subs);
    assert Selectable(ready.outbox[k], ready.clock);
    DeliverKeepsInv(ready, k, Some(c), pass);
    SubscriptionsKeepInv(Deliver(ready, k, pass), db.subs);
  }

  lemma ScannedHaveEvents(cfg: Settings, db: Db, scope: Option<UserId>, now: Time, records: seq<ChargeRecord>)
    requires cfg.Valid() && Inv(db) && db.clock <= now
    requires Scanned(db, scope, now - cfg.lookbackHours * HOUR, cfg.maxRecords, records)
    ensures forall r :: r in records ==> ChargeKey(r) in db.outbox && ChargeKey(r) !in db.hist.erased
  {
    hide Inv;
    forall r | r in records
      ensures ChargeKey(r) in db.outbox && ChargeKey(r) !in db.hist.erased
    {
      RecentRecordHasEvent(db, r, now, cfg.lookbackHours);
    }
  }

  /** The invariant holds after every possible step. */
  lemma StepKeepsInv(cfg: Settings, db: Db, step: Step)
    requires cfg.Valid() && Inv(db) && Possible(cfg, db, step)
    ensures Inv(Next(cfg, db, step))
  {
    hide Inv, TakePages, DeliverAll, ReconcileAll, Deliver;
    match step
    case Collecting(account, fetches, runId, endAt) =>
      var acc := db.accounts[account];
      PagesKeepInv(db, acc.watermark, fetches, acc.user, account);
      PagesOnlyCollect(db, acc.watermark, fetches);
      ConcludeKeepsInv(TakePages(db, acc.watermark, fetches), account, runId, endAt);
    case Processing(scope, now, batch, passes) =>
      ClockKeepsInv(db, now);
      PassesAreAligned(db.(clock := now), batch, passes);
      BatchKeepsInv(db.(clock := now), batch, passes);
    case Passing(k, p) => DeliverKeepsInv(db, k, None, p);
    case Reconciling(scope, now, records, reps) =>
      ScannedHaveEvents(cfg, db, scope, now, records);
      ClockKeepsInv(db, now);
      ReconcileKeepsInv(db.(clock := now), records, now, reps);
    case Retrying(user, slot, now) => RetryKeepsInv(db, user, slot, now);
    case CleaningUp(now) => CleanUpKeepsInv(db, cfg.retentionDays, now);
    case Announcing(k, t, p, at) => EnqueueKeepsInv(db, k, t, p, at);
    case AddingChannel(c, user, enabled) => ChannelKeepsInv(db, c, Channel(user, enabled));
    case EnablingChannel(c, enabled) => ChannelKeepsInv(db, c, db.channels[c].(enabled := enabled));
    case Subscribing(subs) => SubscriptionsKeepInv(db, subs);
    case DeletingChannel(c) => DeleteChannelKeepsInv(db, c);
    case TestingChannel(c, name, at, pass) => TestKeepsInv(db, c, name, at, pass);
    case BindingAccount(account, user) => AccountsKeepInv(db, Bind(db, account, user).accounts);
    case UnbindingAccount(account) => UnbindKeepsInv(db, account);
  }
}
