/** Two ways the pipeline stops for good without failing: an event requeued with its budget
    used up, and an event behind a hundred that nobody listens to. */
module Stalls {
  import opened Common
  import opened Charges
  import opened Pipeline
  import opened DeliveryPass
  import opened Reconciliation
  import opened Collection
  import opened Feed
  import opened Invariants
  import opened Machine
  import opened Theorems

  // ---------------------------------------------------------------- what a batch leaves alone

  lemma DeliverLeaves(db: Db, k: EventKey, target: Option<ChannelId>, p: Pass, s: Slot)
    requires k in db.outbox && PassOk(db, k, target, p) && s.event != k
    ensures Get(Deliver(db, k, p).deliveries, s) == Get(db.deliveries, s)
    ensures Deliver(db, k, p).hist.sent[s] == db.hist.sent[s] && Deliver(db, k, p).hist.won[s] == db.hist.won[s]
  {
    hide Deliver;
    var r, w := Reached(db.deliveries, k, p.rows, p.sends), WonNow(db.deliveries, k, p.rows, p.sends);
    DeliverSlots(db, k, target, p, r, w);
    hide Reached, WonNow;
    assert SlotStep(db, k, p.endAt, s, Get(db.deliveries, s), Get(Deliver(db, k, p).deliveries, s), s in r, s in w);
  }

  /** A batch does not touch events that are not in it. */
  lemma {:induction false} BatchLeaves(db: Db, batch: seq<EventKey>, passes: seq<Pass>, s: Slot)
    requires PassesOk(db, batch, passes) && s.event !in batch
    requires forall i :: 0 <= i < |passes| ==> |passes[i].rows| == |passes[i].sends|
    ensures Get(DeliverAll(db, batch, passes).deliveries, s) == Get(db.deliveries, s)
    ensures DeliverAll(db, batch, passes).hist.sent[s] == db.hist.sent[s]
    ensures DeliverAll(db, batch, passes).hist.won[s] == db.hist.won[s]
    ensures Get(DeliverAll(db, batch, passes).outbox, s.event) == Get(db.outbox, s.event)
    ensures DeliverAll(db, batch, passes).channels == db.channels && DeliverAll(db, batch, passes).subs == db.subs
  {
    if batch != [] {
      var n := |batch| - 1;
      BatchLeaves(db, batch[..n], passes[..n], s);
      assert s.event != batch[n] by {
        assert batch[n] in batch;
      }
      var mid := DeliverAll(db, batch[..n], passes[..n]);
      assert DeliverAll(db, batch, passes) == Deliver(mid, batch[n], passes[n]);
      DeliverLeaves(mid, batch[n], None, passes[n], s);
      DeliverFrame(mid, batch[n], passes[n]);
      hide Deliver, DeliverAll, PassOk;
    }
  }

  // ---------------------------------------------------------------- the requeued event

  /** Waiting for a retry with the budget gone, and with nothing a manual retry accepts. */
  ghost predicate Stuck(db: Db, k: EventKey) {
    && k in db.outbox
    && db.outbox[k].status == EvRetry && db.outbox[k].attempts >= MAX_ATTEMPTS
    && (forall s :: s in db.deliveries && s.event == k ==> db.deliveries[s].status != DlFailed)
  }

  /** When reconciliation requeues a delivered event for a new channel, the event can be
      selected again exactly when it was delivered before its fifth attempt. */
  lemma RequeuedSelectableIff(db: Db, k: EventKey, rows: seq<ChannelId>, now: Time)
    requires k in db.outbox && db.outbox[k].status == EvDelivered
    requires exists c :: c in rows && Slot(k, c) !in db.deliveries
    ensures AttachDeliveries(db, k, rows, now).outbox[k].status == EvRetry
    ensures Selectable(AttachDeliveries(db, k, rows, now).outbox[k], now) <==> db.outbox[k].attempts < MAX_ATTEMPTS
  {
    EnsureDeliveriesEffect(db.deliveries, k, rows, now);
    var c :| c in rows && Slot(k, c) !in db.deliveries;
    assert c in Elements(rows);
  }

  /** A delivery of the event that failed, of a channel switched off or unsubscribed since, say. */
  ghost predicate HasFailedRow(db: Db, k: EventKey) {
    exists s :: s in db.deliveries && s.event == k && db.deliveries[s].status == DlFailed
  }

  /** Delivered on the fifth attempt and requeued, it is stuck exactly when no delivery of it failed. */
  lemma RequeuedStuckIff(db: Db, k: EventKey, rows: seq<ChannelId>, now: Time)
    requires k in db.outbox && db.outbox[k].status == EvDelivered && db.outbox[k].attempts >= MAX_ATTEMPTS
    requires exists c :: c in rows && Slot(k, c) !in db.deliveries
    ensures Stuck(AttachDeliveries(db, k, rows, now), k) <==> !HasFailedRow(db, k)
  {
    RequeuedSelectableIff(db, k, rows, now);
    EnsureDeliveriesEffect(db.deliveries, k, rows, now);
    hide EnsureDeliveries;
    var after := AttachDeliveries(db, k, rows, now);
    if s :| s in db.deliveries && s.event == k && db.deliveries[s].status == DlFailed {
      assert s in after.deliveries && after.deliveries[s].status == DlFailed;
    }
  }

  /** A stuck event stays as it is. */
  lemma StuckFrame(db: Db, db': Db, k: EventKey)
    requires Stuck(db, k)
    requires Get(db'.outbox, k) == Get(db.outbox, k)
    requires forall s :: s in db'.deliveries && s.event == k ==>
                           (s in db.deliveries && db'.deliveries[s] == db.deliveries[s])
                           || db'.deliveries[s].status == DlPending
    ensures Stuck(db', k)
  {
    assert Get(db'.outbox, k).Some?;
  }

  ghost predicate SentUnchanged(db: Db, db': Db, k: EventKey) {
    forall s: Slot :: s.event == k ==> db'.hist.sent[s] == db.hist.sent[s]
  }

  lemma CollectLeavesStuck(db: Db, account: AccountId, fetches: seq<Fetch>, runId: nat, endAt: Time, k: EventKey)
    requires account in db.accounts && Stuck(db, k)
    ensures Stuck(Collect(db, account, fetches, runId, endAt), k)
    ensures SentUnchanged(db, Collect(db, account, fetches, runId, endAt), k)
  {
    hide TakePages;
    var run := TakePages(db, db.accounts[account].watermark, fetches);
    PagesOnlyCollect(db, db.accounts[account].watermark, fetches);
    ConcludeFrame(run, account, runId, endAt);
    hide Conclude;
    StuckFrame(db, Collect(db, account, fetches, runId, endAt), k);
  }

  lemma BatchLeavesStuck(db: Db, batch: seq<EventKey>, passes: seq<Pass>, k: EventKey)
    requires Stuck(db, k) && PassesOk(db, batch, passes) && k !in batch
    requires forall i :: 0 <= i < |passes| ==> |passes[i].rows| == |passes[i].sends|
    ensures Stuck(DeliverAll(db, batch, passes), k)
    ensures SentUnchanged(db, DeliverAll(db, batch, passes), k)
  {
    hide DeliverAll;
    var db' := DeliverAll(db, batch, passes);
    BatchLeaves(db, batch, passes, Slot(k, 0));
    forall s: Slot | s.event == k
      ensures Get(db'.deliveries, s) == Get(db.deliveries, s)
      ensures db'.hist.sent[s] == db.hist.sent[s]
    {
      BatchLeaves(db, batch, passes, s);
    }
    forall s | s in db'.deliveries && s.event == k
      ensures s in db.deliveries && db'.deliveries[s] == db.deliveries[s]
    {
      assert Get(db'.deliveries, s) == Get(db.deliveries, s);
    }
    StuckFrame(db, db', k);
  }

  /** A pass over another event. */
  lemma PassLeavesStuck(db: Db, j: EventKey, p: Pass, k: EventKey)
    requires Stuck(db, k) && j in db.outbox && j != k && PassOk(db, j, None, p)
    ensures Stuck(Deliver(db, j, p), k)
    ensures SentUnchanged(db, Deliver(db, j, p), k)
  {
    hide Deliver;
    var db' := Deliver(db, j, p);
    DeliverFrame(db, j, p);
    forall s: Slot | s.event == k
      ensures Get(db'.deliveries, s) == Get(db.deliveries, s)
      ensures db'.hist.sent[s] == db.hist.sent[s]
    {
      DeliverLeaves(db, j, None, p, s);
    }
    forall s | s in db'.deliveries && s.event == k
      ensures s in db.deliveries && db'.deliveries[s] == db.deliveries[s]
    {
      assert Get(db'.deliveries, s) == Get(db.deliveries, s);
    }
    StuckFrame(db, db', k);
  }

  lemma ReconcileLeavesStuck(db: Db, batch: seq<ChargeRecord>, now: Time, reps: seq<Repair>, k: EventKey)
    requires Stuck(db, k) && RepairsOk(db, batch, reps)
    ensures Stuck(ReconcileAll(db, batch, now, reps), k)
    ensures SentUnchanged(db, ReconcileAll(db, batch, now, reps), k)
  {
    hide ReconcileAll;
    RunRepairs(db, batch, now, reps);
    RunKeepsTenants(db, batch, now, reps);
    StuckFrame(db, ReconcileAll(db, batch, now, reps), k);
  }

  lemma TestLeavesStuck(db: Db, c: ChannelId, name: string, at: Time, pass: Pass, k: EventKey)
    requires Stuck(db, k) && c in db.channels && TestKey(db, c, name) !in db.outbox
    requires PassOk(TestReady(db, c, name, at), TestKey(db, c, name), Some(c), pass)
    ensures Stuck(SetSubscriptions(Deliver(TestReady(db, c, name, at), TestKey(db, c, name), pass), db.subs), k)
    ensures SentUnchanged(db, Deliver(TestReady(db, c, name, at), TestKey(db, c, name), pass), k)
  {
    hide Deliver;
    var ready, tk := TestReady(db, c, name, at), TestKey(db, c, name);
    var db' := Deliver(ready, tk, pass);
    EnqueueOnlyCollects(db, tk, ScheduledJobFailed, Details("test"), at);
    DeliverFrame(ready, tk, pass);
    forall s: Slot | s.event == k
      ensures Get(db'.deliveries, s) == Get(db.deliveries, s)
      ensures db'.hist.sent[s] == db.hist.sent[s]
    {
      DeliverLeaves(ready, tk, Some(c), pass, s);
    }
    forall s | s in db'.deliveries && s.event == k
      ensures s in db.deliveries && db'.deliveries[s] == db.deliveries[s]
    {
      assert Get(db'.deliveries, s) == Get(db.deliveries, s);
    }
    StuckFrame(db, db', k);
  }

  lemma StepLeavesStuck(cfg: Settings, db: Db, step: Step, k: EventKey)
    requires Stuck(db, k) && Possible(cfg, db, step)
    ensures Stuck(Next(cfg, db, step), k)
    ensures SentUnchanged(db, Next(cfg, db, step), k)
  {
    hide DeliverAll, ReconcileAll, Deliver, Collect, FetchesTimely, FetchesBuilt, Scanned, RepairsTimely;
    match step
    case Collecting(account, fetches, runId, endAt) => CollectLeavesStuck(db, account, fetches, runId, endAt, k);
    case Processing(scope, now, batch, passes) =>
      PassesAreAligned(db.(clock := now), batch, passes);
      BatchLeavesStuck(db.(clock := now), batch, passes, k);
    case Passing(j, p) => PassLeavesStuck(db, j, p, k);
    case Reconciling(scope, now, records, reps) => ReconcileLeavesStuck(db.(clock := now), records, now, reps, k);
    case Announcing(j, t, p, at) =>
      EnqueueOnlyCollects(db, j, t, p, at);
      StuckFrame(db, Enqueue(db, j, t, p, at), k);
    case TestingChannel(c, name, at, pass) => TestLeavesStuck(db, c, name, at, pass, k);
    case CleaningUp(now) => CleanUpLeavesStuck(db, cfg.retentionDays, now, k);
    case Retrying(user, slot, now) => RetryLeavesStuck(db, user, slot, now, k);
    case _ =>
  }

  /** An event waiting for a retry never expires. */
  lemma CleanUpLeavesStuck(db: Db, retentionDays: nat, now: Time, k: EventKey)
    requires Stuck(db, k)
    ensures Stuck(CleanUp(db, retentionDays, now), k)
    ensures SentUnchanged(db, CleanUp(db, retentionDays, now), k)
  {
    assert k !in Outdated(db.outbox, now - retentionDays * DAY);
    hide Outdated;
  }

  /** A manual retry of a stuck event is refused: its rows are pending or have succeeded. */
  lemma RetryLeavesStuck(db: Db, user: UserId, slot: Slot, now: Time, k: EventKey)
    requires Stuck(db, k)
    ensures Stuck(RetryDelivery(db, user, slot, now), k)
    ensures SentUnchanged(db, RetryDelivery(db, user, slot, now), k)
    ensures slot.event == k ==> RetryCheck(db, user, slot) != Queued
  {
  }

  /** Whatever happens afterwards, manual retries included, a stuck event is never sent again. */
  lemma {:induction false} StuckForever(cfg: Settings, db: Db, steps: seq<Step>, db': Db, k: EventKey)
    requires Stuck(db, k) && Leads(cfg, db, steps, db')
    ensures Stuck(db', k)
    ensures SentUnchanged(db, db', k)
    decreases |steps|
  {
    hide Stuck, Possible, Next;
    if steps != [] {
      StepLeavesStuck(cfg, db, steps[0], k);
      StuckForever(cfg, Next(cfg, db, steps[0]), steps[1..], db', k);
    }
  }

  // ---------------------------------------------------------------- whose turn it is

  lemma {:induction false} DistinctSize<T>(s: seq<T>)
    requires Distinct(s)
    ensures |Elements(s)| == |s|
  {
    if s != [] {
      var n := |s| - 1;
      DistinctSize(s[..n]);
      assert s == s[..n] + [s[n]];
      assert Elements(s) == Elements(s[..n]) + {s[n]};
      assert s[n] !in Elements(s[..n]);
    }
  }

  lemma SubsetSize<T>(a: set<T>, b: set<T>)
    requires a <= b
    ensures |a| <= |b|
  {
    assert b == a + (b - a);
  }

  predicate Waits(db: Db, scope: Option<UserId>, now: Time, k: EventKey) {
    k in db.outbox && InScope(k, scope) && Selectable(db.outbox[k], now)
  }

  /** The events that wait in the scope of a pass and were created before a given one. */
  function Older(db: Db, scope: Option<UserId>, now: Time, k: EventKey): set<EventKey>
    requires k in db.outbox
  {
    set j | j in db.outbox && Waits(db, scope, now, j) && db.outbox[j].created < db.outbox[k].created
  }

  /** The others that wait and were created no later. */
  function NotYounger(db: Db, scope: Option<UserId>, now: Time, k: EventKey): set<EventKey>
    requires k in db.outbox
  {
    set j | j in db.outbox && j != k && Waits(db, scope, now, j) && db.outbox[j].created <= db.outbox[k].created
  }

  /** A waiting event with fewer than a hundred others created no later is selected. */
  lemma FewAheadIsSelected(db: Db, scope: Option<UserId>, now: Time, batch: seq<EventKey>, k: EventKey)
    requires Selected(db, scope, now, batch) && Waits(db, scope, now, k)
    requires |NotYounger(db, scope, now, k)| < 100
    ensures k in batch
  {
    if k !in batch {
      forall j | j in Elements(batch)
        ensures j in NotYounger(db, scope, now, k)
      {
        assert j in batch;
      }
      DistinctSize(batch);
      SubsetSize(Elements(batch), NotYounger(db, scope, now, k));
      assert false;
    }
  }

  /** One with a hundred created before it is not. */
  lemma ManyOlderIsNotSelected(db: Db, scope: Option<UserId>, now: Time, batch: seq<EventKey>, k: EventKey)
    requires Selected(db, scope, now, batch) && k in db.outbox
    requires |Older(db, scope, now, k)| >= 100
    ensures k !in batch
  {
    if k in batch {
      forall j | j in Older(db, scope, now, k)
        ensures j in Elements(batch)
      {
        assert j in batch;
      }
      DistinctSize(batch);
      assert |Older(db, scope, now, k) + {k}| == |Older(db, scope, now, k)| + 1;
      SubsetSize(Older(db, scope, now, k) + {k}, Elements(batch));
      assert false;
    }
  }

  /** Where no other waiting event was created in the same second, an event is in the selection
      exactly when it waits and fewer than a hundred others of the scope wait that were created no
      later. The two lemmas above are what remains true of ties. */
  lemma SelectedIff(db: Db, scope: Option<UserId>, now: Time, batch: seq<EventKey>, k: EventKey)
    requires Selected(db, scope, now, batch) && k in db.outbox
    requires forall j :: Waits(db, scope, now, j) && j != k ==> db.outbox[j].created != db.outbox[k].created
    ensures k in batch <==> Waits(db, scope, now, k) && |NotYounger(db, scope, now, k)| < 100
  {
    assert NotYounger(db, scope, now, k) == Older(db, scope, now, k);
    if Waits(db, scope, now, k) {
      if |NotYounger(db, scope, now, k)| < BATCH_LIMIT {
        FewAheadIsSelected(db, scope, now, batch, k);
      } else {
        ManyOlderIsNotSelected(db, scope, now, batch, k);
      }
    }
  }

  // ---------------------------------------------------------------- the starved event

  /** An event that waits to be sent, behind a hundred older ones of the same user that wait too and
      that no channel matches. */
  ghost predicate Starved(db: Db, k: EventKey, blockers: set<EventKey>) {
    && k in db.outbox && (db.outbox[k].status == EvPending || db.outbox[k].status == EvRetry)
    && k !in blockers && |blockers| >= BATCH_LIMIT
    && (forall b :: b in blockers ==> b.user == k.user && BlocksFor(db, b, k))
  }

  ghost predicate BlocksFor(db: Db, b: EventKey, k: EventKey)
    requires k in db.outbox
  {
    b in db.outbox && db.outbox[b].created < db.outbox[k].created && Blocking(db, b, db.outbox[b].created)
  }

  /** An event that waits, created at a given instant, with no channel to go to. */
  ghost predicate Blocking(db: Db, b: EventKey, created: Time) {
    && b in db.outbox && Selectable(db.outbox[b], db.clock) && db.outbox[b].created == created
    && Unheard(db, b)
  }

  ghost predicate Unheard(db: Db, b: EventKey)
    requires b in db.outbox
  {
    Matching(db, b.user, db.outbox[b].eventType) == {}
  }

  /** No selection takes it. */
  lemma StarvedNotSelected(db: Db, k: EventKey, blockers: set<EventKey>, scope: Option<UserId>, now: Time,
          batch: seq<EventKey>)
    requires Starved(db, k, blockers) && db.clock <= now && Selected(db, scope, now, batch)
    ensures k !in batch
  {
    if k in batch {
      forall b | b in blockers
        ensures b in Older(db, scope, now, k)
      {
        assert BlocksFor(db, b, k);
      }
      SubsetSize(blockers, Older(db, scope, now, k));
      ManyOlderIsNotSelected(db, scope, now, batch, k);
    }
  }

  /** A pass with nobody to tell leaves an event selectable, and as old as it was. */
  lemma IdleKeepsBlocker(db: Db, b: EventKey, p: Pass)
    requires b in db.outbox && PassOk(db, b, None, p) && Selectable(db.outbox[b], db.clock)
    requires Unheard(db, b)
    ensures Deliver(db, b, p).outbox[b] == db.outbox[b].(status := EvPending)
    ensures Selectable(Deliver(db, b, p).outbox[b], Deliver(db, b, p).clock)
  {
    DeliverOutcome(db, b, p);
  }

  lemma PassKeepsBlocker(db: Db, j: EventKey, p: Pass, b: EventKey, created: Time)
    requires Blocking(db, b, created) && j in db.outbox && PassOk(db, j, None, p) && db.clock <= p.endAt
    ensures Blocking(Deliver(db, j, p), b, created)
  {
    DeliverFrame(db, j, p);
    if b == j {
      IdleKeepsBlocker(db, b, p);
    }
    hide Deliver;
    var after := Deliver(db, j, p);
    assert Matching(after, b.user, after.outbox[b].eventType) == Matching(db, b.user, db.outbox[b].eventType);
  }

  lemma {:induction false} BatchKeepsBlocker(db: Db, batch: seq<EventKey>, passes: seq<Pass>, b: EventKey,
          created: Time)
    requires Blocking(db, b, created) && PassesOk(db, batch, passes)
    requires forall i :: 0 <= i < |passes| ==> |passes[i].rows| == |passes[i].sends|
    ensures Blocking(DeliverAll(db, batch, passes), b, created)
    ensures db.clock <= DeliverAll(db, batch, passes).clock
  {
    if batch != [] {
      var n := |batch| - 1;
      BatchKeepsBlocker(db, batch[..n], passes[..n], b, created);
      var mid := DeliverAll(db, batch[..n], passes[..n]);
      assert DeliverAll(db, batch, passes) == Deliver(mid, batch[n], passes[n]);
      DeliverFrame(mid, batch[n], passes[n]);
      hide Deliver, DeliverAll, Blocking;
      PassKeepsBlocker(mid, batch[n], passes[n], b, created);
    }
  }

  /** What happened to a waiting event that no pass reached: nothing, or a manual retry. */
  ghost predicate PassedOver(db: Db, db': Db, j: EventKey)
    requires j in db.outbox
  {
    && db.clock <= db'.clock && j in db'.outbox
    && (db'.outbox[j] == db.outbox[j]
        || db'.outbox[j] == db.outbox[j].(status := EvRetry, attempts := 0, due := db'.clock))
    && SentUnchanged(db, db', j)
  }

  lemma CollectLeavesWaiting(cfg: Settings, db: Db, account: AccountId, fetches: seq<Fetch>, runId: nat, endAt: Time,
                             j: EventKey)
    requires Possible(cfg, db, Collecting(account, fetches, runId, endAt)) && j in db.outbox
    ensures PassedOver(db, Collect(db, account, fetches, runId, endAt), j)
  {
    hide TakePages;
    var run := TakePages(db, db.accounts[account].watermark, fetches);
    PagesOnlyCollect(db, db.accounts[account].watermark, fetches);
    PagesClock(db, db.accounts[account].watermark, fetches);
    ConcludeFrame(run, account, runId, endAt);
    ConcludeClock(run, account, runId, endAt);
    hide Conclude;
  }

  lemma ReconcileLeavesWaiting(db: Db, batch: seq<ChargeRecord>, now: Time, reps: seq<Repair>, j: EventKey)
    requires j in db.outbox && db.outbox[j].status != EvDelivered
    requires RepairsOk(db, batch, reps) && RepairsTimely(db, batch, now, reps)
    ensures PassedOver(db, ReconcileAll(db, batch, now, reps), j)
  {
    RunRepairs(db, batch, now, reps);
    ReconcileClock(db, batch, now, reps);
    hide ReconcileAll, RepairsOk, RepairsTimely;
  }

  lemma TestLeavesWaiting(db: Db, c: ChannelId, name: string, at: Time, pass: Pass, j: EventKey)
    requires j in db.outbox && c in db.channels && db.clock <= at && TestKey(db, c, name) !in db.outbox
    requires PassOk(TestReady(db, c, name, at), TestKey(db, c, name), Some(c), pass)
    ensures PassedOver(db, Deliver(TestReady(db, c, name, at), TestKey(db, c, name), pass), j)
  {
    hide Deliver;
    var ready, tk := TestReady(db, c, name, at), TestKey(db, c, name);
    EnqueueOnlyCollects(db, tk, ScheduledJobFailed, Details("test"), at);
    DeliverFrame(ready, tk, pass);
    forall s: Slot | s.event == j
      ensures Deliver(ready, tk, pass).hist.sent[s] == db.hist.sent[s]
    {
      DeliverLeaves(ready, tk, Some(c), pass, s);
    }
  }

  lemma RetryLeavesWaiting(db: Db, user: UserId, slot: Slot, now: Time, j: EventKey)
    requires j in db.outbox && db.clock <= now
    ensures PassedOver(db, RetryDelivery(db, user, slot, now), j)
  {
    hide RetryCheck;
    if RetryCheck(db, user, slot) == Queued {
      assert slot in db.deliveries && slot.event in db.outbox by { QueuedMeansThere(db, user, slot); }
    }
  }

  lemma QueuedMeansThere(db: Db, user: UserId, slot: Slot)
    requires RetryCheck(db, user, slot) == Queued
    ensures slot in db.deliveries && slot.event in db.outbox
  {
  }

  lemma CleanUpLeavesWaiting(db: Db, retentionDays: nat, now: Time, j: EventKey)
    requires j in db.outbox && (db.outbox[j].status == EvPending || db.outbox[j].status == EvRetry) && db.clock <= now
    ensures PassedOver(db, CleanUp(db, retentionDays, now), j)
  {
    assert j !in Outdated(db.outbox, now - retentionDays * DAY);
    hide Outdated;
  }

  /** No step but a pass changes a waiting event, except that a manual retry makes it due at once. */
  lemma StepLeavesWaiting(cfg: Settings, db: Db, step: Step, j: EventKey)
    requires Possible(cfg, db, step) && !step.Processing? && !step.Passing?
    requires j in db.outbox && (db.outbox[j].status == EvPending || db.outbox[j].status == EvRetry)
    ensures PassedOver(db, Next(cfg, db, step), j)
  {
    hide Collect, ReconcileAll, Deliver, RetryDelivery, CleanUp;
    match step
    case Collecting(account, fetches, runId, endAt) =>
      CollectLeavesWaiting(cfg, db, account, fetches, runId, endAt, j);
    case Reconciling(scope, now, records, reps) => ReconcileLeavesWaiting(db.(clock := now), records, now, reps, j);
    case Retrying(user, slot, now) => RetryLeavesWaiting(db, user, slot, now, j);
    case CleaningUp(now) => CleanUpLeavesWaiting(db, cfg.retentionDays, now, j);
    case Announcing(k, t, p, at) => EnqueueOnlyCollects(db, k, t, p, at);
    case TestingChannel(c, name, at, pass) => TestLeavesWaiting(db, c, name, at, pass, j);
    case _ =>
  }

  /** Every step but a pass over the event itself leaves it starved, as long as the ones before it get
      no channel. */
  lemma StepLeavesStarved(cfg: Settings, db: Db, step: Step, k: EventKey, blockers: set<EventKey>)
    requires Starved(db, k, blockers) && Possible(cfg, db, step) && !(step.Passing? && step.event == k)
    requires forall b :: b in blockers && b in Next(cfg, db, step).outbox ==> Unheard(Next(cfg, db, step), b)
    ensures Starved(Next(cfg, db, step), k, blockers)
    ensures SentUnchanged(db, Next(cfg, db, step), k)
  {
    hide DeliverAll, Deliver, Unheard, Starved, SentUnchanged;
    match step
    case Processing(scope, now, batch, passes) => ProcessingLeavesStarved(cfg, db, step, k, blockers);
    case Passing(j, p) => PassLeavesStarved(db, j, p, k, blockers);
    case _ => OtherStepLeavesStarved(cfg, db, step, k, blockers);
  }

  lemma OtherStepLeavesStarved(cfg: Settings, db: Db, step: Step, k: EventKey, blockers: set<EventKey>)
    requires Starved(db, k, blockers) && Possible(cfg, db, step) && !step.Processing? && !step.Passing?
    requires forall b :: b in blockers && b in Next(cfg, db, step).outbox ==> Unheard(Next(cfg, db, step), b)
    ensures Starved(Next(cfg, db, step), k, blockers)
    ensures SentUnchanged(db, Next(cfg, db, step), k)
  {
    hide Unheard, Next, Possible;
    var db' := Next(cfg, db, step);
    StepLeavesWaiting(cfg, db, step, k);
    forall b | b in blockers
      ensures BlocksFor(db', b, k)
    {
      assert BlocksFor(db, b, k);
      StepLeavesWaiting(cfg, db, step, b);
    }
  }

  lemma PassLeavesStarved(db: Db, j: EventKey, p: Pass, k: EventKey, blockers: set<EventKey>)
    requires Starved(db, k, blockers) && j in db.outbox && j != k && PassOk(db, j, None, p)
    ensures Starved(Deliver(db, j, p), k, blockers)
    ensures SentUnchanged(db, Deliver(db, j, p), k)
  {
    hide Deliver, Blocking;
    DeliverFrame(db, j, p);
    forall b | b in blockers
      ensures BlocksFor(Deliver(db, j, p), b, k)
    {
      assert BlocksFor(db, b, k);
      PassKeepsBlocker(db, j, p, b, db.outbox[b].created);
      BlockingIsThere(Deliver(db, j, p), b, db.outbox[b].created);
    }
    forall s: Slot | s.event == k
      ensures Deliver(db, j, p).hist.sent[s] == db.hist.sent[s]
    {
      DeliverLeaves(db, j, None, p, s);
    }
  }

  lemma BlockingIsThere(db: Db, b: EventKey, created: Time)
    requires Blocking(db, b, created)
    ensures b in db.outbox && db.outbox[b].created == created
  {
  }

  lemma ProcessingLeavesStarved(cfg: Settings, db: Db, step: Step, k: EventKey, blockers: set<EventKey>)
    requires Starved(db, k, blockers) && step.Processing? && Possible(cfg, db, step)
    ensures Starved(Next(cfg, db, step), k, blockers)
    ensures SentUnchanged(db, Next(cfg, db, step), k)
  {
    hide DeliverAll;
    StarvedNotSelected(db, k, blockers, step.scope, step.now, step.batch);
    var db1 := db.(clock := step.now);
    var db' := DeliverAll(db1, step.batch, step.passes);
    PassesAreAligned(db1, step.batch, step.passes);
    BatchLeaves(db1, step.batch, step.passes, Slot(k, 0));
    hide Selected, PassesOk;
    forall s: Slot | s.event == k
      ensures db'.hist.sent[s] == db.hist.sent[s]
    {
      BatchLeaves(db1, step.batch, step.passes, s);
    }
    forall b | b in blockers
      ensures BlocksFor(db', b, k)
    {
      assert BlocksFor(db, b, k);
      assert Matching(db1, b.user, db1.outbox[b].eventType) == Matching(db, b.user, db.outbox[b].eventType);
      BatchKeepsBlocker(db1, step.batch, step.passes, b, db.outbox[b].created);
    }
  }

  /** In no state of a run do the blockers get a channel, and no pass is over the event itself. */
  ghost predicate KeptBehind(cfg: Settings, db: Db, steps: seq<Step>, k: EventKey, blockers: set<EventKey>)
    decreases |steps|
  {
    steps == [] ||
    (&& Possible(cfg, db, steps[0]) && !(steps[0].Passing? && steps[0].event == k)
     && (forall b :: b in blockers && b in Next(cfg, db, steps[0]).outbox ==> Unheard(Next(cfg, db, steps[0]), b))
     && KeptBehind(cfg, Next(cfg, db, steps[0]), steps[1..], k, blockers))
  }

  /** Whatever else happens, collections, repairs, retries, clean-ups and changes of channels included,
      a starved event is not sent as long as no channel matches the events before it. */
  lemma {:induction false} StarvedForever(cfg: Settings, db: Db, steps: seq<Step>, db': Db, k: EventKey,
          blockers: set<EventKey>)
    requires Starved(db, k, blockers) && Leads(cfg, db, steps, db') && KeptBehind(cfg, db, steps, k, blockers)
    ensures Starved(db', k, blockers)
    ensures SentUnchanged(db, db', k)
    decreases |steps|
  {
    hide Starved, Possible, Next, Unheard;
    if steps != [] {
      StepLeavesStarved(cfg, db, steps[0], k, blockers);
      StarvedForever(cfg, Next(cfg, db, steps[0]), steps[1..], db', k, blockers);
    }
  }
}
