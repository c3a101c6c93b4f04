/** Charges with several events: what the migration's merging means for how often one is sent. */
module MergedSends {
  import opened Common
  import opened Charges
  import opened Pipeline
  import opened DeliveryPass
  import opened Reconciliation
  import opened Collection
  import opened Feed
  import opened Invariants
  import opened Machine
  import opened Migration
  import opened Upgrade
  import opened Theorems
  import opened Stalls
  import opened Revival

  /** A charge event whose key an earlier release made. */
  predicate OldCharge(k: EventKey) {
    k.topic.ChargeTopic? && k.topic.eventId.Legacy?
  }

  // ---------------------------------------------------------------- events that are never sent again

  predicate HasBudget(e: Event) {
    (e.status == EvPending || e.status == EvRetry) && e.attempts < MAX_ATTEMPTS
  }

  /** An event that has a delivery pass to come, now or after a manual retry. */
  ghost predicate StillOpen(db: Db, k: EventKey) {
    k in db.outbox && db.outbox[k].status != EvMerged && (HasBudget(db.outbox[k]) || HasFailedRow(db, k))
  }

  /** One that has not: deleted by retention, merged, or finished without a failed delivery. */
  ghost predicate Closed(db: Db, k: EventKey) {
    (k in db.outbox || k in db.hist.erased) && !StillOpen(db, k)
  }

  /** What a step that does not concern an event leaves of it. */
  ghost predicate Untouched(db: Db, db': Db, k: EventKey) {
    && Get(db'.outbox, k) == Get(db.outbox, k)
    && (forall s: Slot :: s.event == k ==> SlotUntouched(db, db', s))
  }

  ghost predicate SlotUntouched(db: Db, db': Db, s: Slot) {
    s in db'.deliveries ==> s in db.deliveries && db'.deliveries[s] == db.deliveries[s]
  }

  lemma CollectLeaves(db: Db, account: AccountId, fetches: seq<Fetch>, runId: nat, endAt: Time, k: EventKey)
    requires account in db.accounts && k in db.outbox
    ensures Untouched(db, Collect(db, account, fetches, runId, endAt), k)
  {
    hide TakePages;
    var run := TakePages(db, db.accounts[account].watermark, fetches);
    PagesOnlyCollect(db, db.accounts[account].watermark, fetches);
    ConcludeFrame(run, account, runId, endAt);
    hide Conclude;
  }

  lemma PassLeaves(db: Db, j: EventKey, target: Option<ChannelId>, p: Pass, k: EventKey)
    requires j in db.outbox && j != k && PassOk(db, j, target, p)
    ensures Untouched(db, Deliver(db, j, p), k)
  {
    hide Deliver;
    DeliverFrame(db, j, p);
    forall s: Slot | s.event == k
      ensures SlotUntouched(db, Deliver(db, j, p), s)
    {
      DeliverLeaves(db, j, target, p, s);
      assert Get(Deliver(db, j, p).deliveries, s) == Get(db.deliveries, s);
    }
  }

  lemma BatchLeavesEvent(db: Db, batch: seq<EventKey>, passes: seq<Pass>, k: EventKey)
    requires PassesOk(db, batch, passes) && k !in batch
    requires forall i :: 0 <= i < |passes| ==> |passes[i].rows| == |passes[i].sends|
    ensures Untouched(db, DeliverAll(db, batch, passes), k)
  {
    hide DeliverAll;
    BatchLeaves(db, batch, passes, Slot(k, 0));
    forall s: Slot | s.event == k
      ensures SlotUntouched(db, DeliverAll(db, batch, passes), s)
    {
      BatchLeaves(db, batch, passes, s);
      assert Get(DeliverAll(db, batch, passes).deliveries, s) == Get(db.deliveries, s);
    }
  }

  lemma AttachLeaves(db: Db, j: EventKey, rows: seq<ChannelId>, now: Time, k: EventKey)
    requires j in db.outbox && j != k
    ensures Untouched(db, AttachDeliveries(db, j, rows, now), k)
  {
    EnsureDeliveriesEffect(db.deliveries, j, rows, now);
    hide EnsureDeliveries, Requeued;
  }

  lemma EnqueueLeaves(db: Db, j: EventKey, t: EventType, p: Payload, at: Time, k: EventKey)
    requires j != k
    ensures Untouched(db, Enqueue(db, j, t, p, at), k)
  {
    if j in db.outbox {
    } else {
    }
  }

  lemma UntouchedTwice(a: Db, b: Db, c: Db, k: EventKey)
    requires Untouched(a, b, k) && Untouched(b, c, k)
    ensures Untouched(a, c, k)
  {
    forall s: Slot | s.event == k
      ensures SlotUntouched(a, c, s)
    {
      assert SlotUntouched(a, b, s) && SlotUntouched(b, c, s);
    }
  }

  lemma RepairLeaves(db: Db, j: EventKey, p: Payload, now: Time, rep: Repair, k: EventKey)
    requires j != k
    ensures Untouched(db, RepairEvent(db, j, p, now, rep), k)
  {
    hide Untouched, AttachDeliveries;
    var db1 := Enqueue(db, j, NewCharge, p, rep.at);
    EnqueueLeaves(db, j, NewCharge, p, rep.at, k);
    if db1.outbox[j].status != EvFailed {
      AttachLeaves(db1, j, rep.rows, now, k);
      UntouchedTwice(db, db1, AttachDeliveries(db1, j, rep.rows, now), k);
    }
  }

  lemma {:induction false} ReconcileLeaves(db: Db, batch: seq<ChargeRecord>, now: Time, reps: seq<Repair>, k: EventKey)
    requires |batch| == |reps| && forall i :: 0 <= i < |batch| ==> ChargeKey(batch[i]) != k
    ensures Untouched(db, ReconcileAll(db, batch, now, reps), k)
  {
    hide RepairEvent, ChargeKey;
    if batch != [] {
      var n := |batch| - 1;
      ReconcileLeaves(db, batch[..n], now, reps[..n], k);
      var mid := ReconcileAll(db, batch[..n], now, reps[..n]);
      RepairLeaves(mid, ChargeKey(batch[n]), NewChargePayload(batch[n]), now, reps[n], k);
      hide Untouched;
      UntouchedTwice(db, mid, ReconcileAll(db, batch, now, reps), k);
    }
  }

  /** Reconciliation never looks an old event up: the records it scans are newer. */
  lemma ScansNoOldCharge(cfg: Settings, db: Db, scope: Option<UserId>, now: Time, records: seq<ChargeRecord>, k: EventKey)
    requires Inv(db) && OldCharge(k)
    requires Scanned(db, scope, now - cfg.lookbackHours * HOUR, cfg.maxRecords, records)
    ensures forall i :: 0 <= i < |records| ==> ChargeKey(records[i]) != k
  {
    forall i | 0 <= i < |records|
      ensures ChargeKey(records[i]) != k
    {
      var r := records[i];
      assert r in records;
      assert RecordInv(db, RecordSlot(r.account, r.recordKey));
    }
  }

  lemma TestLeaves(db: Db, c: ChannelId, name: string, at: Time, pass: Pass, k: EventKey)
    requires c in db.channels && TestKey(db, c, name) != k
    requires PassOk(TestReady(db, c, name, at), TestKey(db, c, name), Some(c), pass)
    ensures Untouched(db, SetSubscriptions(Deliver(TestReady(db, c, name, at), TestKey(db, c, name), pass), db.subs), k)
  {
    hide Deliver;
    var ready, tk := TestReady(db, c, name, at), TestKey(db, c, name);
    PassLeaves(ready, tk, Some(c), pass, k);
    assert Get(ready.outbox, k) == Get(db.outbox, k);
    forall s: Slot | s.event == k
      ensures SlotUntouched(db, Deliver(ready, tk, pass), s)
    {
      assert SlotUntouched(ready, Deliver(ready, tk, pass), s);
    }
  }

  /** A step leaves an old event without a pass to come as it is, unless it retries one of its
      deliveries or deletes it. */
  lemma StepLeavesOld(cfg: Settings, db: Db, step: Step, k: EventKey)
    requires Inv(db) && Possible(cfg, db, step) && OldCharge(k)
    requires k in db.outbox && !HasBudget(db.outbox[k])
    requires !step.CleaningUp? && !(step.Retrying? && step.slot.event == k)
    ensures Untouched(db, Next(cfg, db, step), k)
  {
    hide Inv, DeliverAll, ReconcileAll, Deliver, Collect, FetchesTimely, FetchesBuilt, Scanned, RepairsTimely, RepairsOk;
    hide Untouched, Enqueue, PassOk, TakePages;
    match step
    case Collecting(account, fetches, runId, endAt) => CollectLeaves(db, account, fetches, runId, endAt, k);
    case Processing(scope, now, batch, passes) =>
      PassesAreAligned(db.(clock := now), batch, passes);
      BatchLeavesEvent(db.(clock := now), batch, passes, k);
      ClockAside(db, now, Next(cfg, db, step), k);
    case Passing(j, p) => PassLeaves(db, j, None, p, k);
    case Reconciling(scope, now, records, reps) =>
      ScansNoOldCharge(cfg, db, scope, now, records, k);
      ReconcileAligned(db.(clock := now), records, reps);
      ReconcileLeaves(db.(clock := now), records, now, reps, k);
      ClockAside(db, now, Next(cfg, db, step), k);
    case Announcing(j, t, p, at) => EnqueueLeaves(db, j, t, p, at, k);
    case TestingChannel(c, name, at, pass) => TestLeaves(db, c, name, at, pass, k);
    case Retrying(user, slot, now) => RetryLeaves(db, user, slot, now, k);
    case DeletingChannel(c) => DeletionLeaves(db, c, k);
    case CleaningUp(_) =>
    case _ => NothingTouched(db, Next(cfg, db, step), k);
  }

  lemma ClockAside(db: Db, t: Time, db': Db, k: EventKey)
    requires Untouched(db.(clock := t), db', k)
    ensures Untouched(db, db', k)
  {
    var db1 := db.(clock := t);
    forall s: Slot | s.event == k
      ensures SlotUntouched(db, db', s)
    {
      assert SlotUntouched(db1, db', s);
    }
  }

  lemma NothingTouched(db: Db, db': Db, k: EventKey)
    requires db'.outbox == db.outbox && db'.deliveries == db.deliveries
    ensures Untouched(db, db', k)
  {
  }

  lemma RetryLeaves(db: Db, user: UserId, slot: Slot, now: Time, k: EventKey)
    requires slot.event != k
    ensures Untouched(db, RetryDelivery(db, user, slot, now), k)
  {
  }

  lemma DeletionLeaves(db: Db, c: ChannelId, k: EventKey)
    ensures Untouched(db, DeleteChannel(db, c), k)
  {
  }

  lemma ReconcileAligned(db: Db, records: seq<ChargeRecord>, reps: seq<Repair>)
    requires RepairsOk(db, records, reps)
    ensures |records| == |reps|
  {
  }

  ghost predicate WonUnchanged(db: Db, db': Db, k: EventKey) {
    forall s: Slot :: s.event == k ==> db'.hist.won[s] == db.hist.won[s]
  }

  /** No step sends an event without a pass to come. */
  lemma StepWinsNothing(cfg: Settings, db: Db, step: Step, k: EventKey)
    requires Possible(cfg, db, step) && k.topic.ChargeTopic?
    requires k in db.outbox ==> !HasBudget(db.outbox[k])
    ensures WonUnchanged(db, Next(cfg, db, step), k)
  {
    hide DeliverAll, ReconcileAll, Deliver, TakePages, FetchesTimely, FetchesBuilt, Scanned, RepairsTimely, RepairsOk;
    match step
    case Collecting(account, fetches, runId, endAt) =>
      PagesOnlyCollect(db, db.accounts[account].watermark, fetches);
      ConcludeFrame(TakePages(db, db.accounts[account].watermark, fetches), account, runId, endAt);
      hide Conclude;
    case Processing(scope, now, batch, passes) =>
      PassesAreAligned(db.(clock := now), batch, passes);
      BatchWinsNothing(db.(clock := now), batch, passes, k);
    case Passing(j, p) => PassWinsNothing(db, j, None, p, k);
    case Reconciling(scope, now, records, reps) => RunRepairs(db.(clock := now), records, now, reps);
    case Announcing(j, t, p, at) => EnqueueOnlyCollects(db, j, t, p, at);
    case TestingChannel(c, name, at, pass) =>
      EnqueueOnlyCollects(db, TestKey(db, c, name), ScheduledJobFailed, Details("test"), at);
      PassWinsNothing(TestReady(db, c, name, at), TestKey(db, c, name), Some(c), pass, k);
    case _ =>
  }

  lemma PassWinsNothing(db: Db, j: EventKey, target: Option<ChannelId>, p: Pass, k: EventKey)
    requires j in db.outbox && j != k && PassOk(db, j, target, p)
    ensures WonUnchanged(db, Deliver(db, j, p), k)
  {
    hide Deliver;
    forall s: Slot | s.event == k
      ensures Deliver(db, j, p).hist.won[s] == db.hist.won[s]
    {
      DeliverLeaves(db, j, target, p, s);
    }
  }

  lemma BatchWinsNothing(db: Db, batch: seq<EventKey>, passes: seq<Pass>, k: EventKey)
    requires PassesOk(db, batch, passes) && k !in batch
    requires forall i :: 0 <= i < |passes| ==> |passes[i].rows| == |passes[i].sends|
    ensures WonUnchanged(db, DeliverAll(db, batch, passes), k)
  {
    hide DeliverAll;
    forall s: Slot | s.event == k
      ensures DeliverAll(db, batch, passes).hist.won[s] == db.hist.won[s]
    {
      BatchLeaves(db, batch, passes, s);
    }
  }

  lemma UntouchedStaysClosed(db: Db, db': Db, k: EventKey)
    requires Closed(db, k) && k in db.outbox && Untouched(db, db', k)
    ensures Closed(db', k)
  {
    if s :| s in db'.deliveries && s.event == k && db'.deliveries[s].status == DlFailed {
      assert SlotUntouched(db, db', s);
    }
    assert Get(db'.outbox, k) == Get(db.outbox, k);
  }

  /** The two steps that can concern such an event: a retry is refused, and retention may delete it. */
  lemma ClosedIsNotRetried(db: Db, user: UserId, slot: Slot, now: Time, k: EventKey)
    requires Closed(db, k) && k in db.outbox
    ensures Closed(RetryDelivery(db, user, slot, now), k)
  {
    if slot.event == k {
      assert RetryCheck(db, user, slot) != Queued;
    }
  }

  lemma ClosedCleanedUp(db: Db, retentionDays: nat, now: Time, k: EventKey)
    requires Closed(db, k) && k in db.outbox && (k.topic.ChargeTopic? ==> k !in db.hist.erased)
    ensures Closed(CleanUp(db, retentionDays, now), k)
  {
    hide Outdated;
  }

  lemma ErasedIsGone(db: Db, k: EventKey)
    requires Inv(db) && k in db.hist.erased && k.topic.ChargeTopic?
    ensures k !in db.outbox
  {
    assert ErasedInv(db, k);
  }

  lemma StepKeepsClosed(cfg: Settings, db: Db, step: Step, k: EventKey)
    requires cfg.Valid() && Inv(db) && Possible(cfg, db, step) && OldCharge(k) && Closed(db, k)
    ensures Closed(Next(cfg, db, step), k)
    ensures WonUnchanged(db, Next(cfg, db, step), k)
  {
    hide Inv, Possible, HasFailedRow, CleanUp, RetryDelivery;
    if k in db.hist.erased {
      ErasedIsGone(db, k);
      StepKeepsErased(cfg, db, step);
      StepKeepsInv(cfg, db, step);
      ErasedIsGone(Next(cfg, db, step), k);
      hide Next;
    } else if step.CleaningUp? {
      ClosedCleanedUp(db, cfg.retentionDays, step.now, k);
    } else if step.Retrying? && step.slot.event == k {
      ClosedIsNotRetried(db, step.user, step.slot, step.now, k);
    } else {
      hide Next;
      StepLeavesOld(cfg, db, step, k);
      UntouchedStaysClosed(db, Next(cfg, db, step), k);
    }
    StepWinsNothing(cfg, db, step, k);
  }

  lemma {:induction false} RunKeepsClosed(cfg: Settings, db: Db, steps: seq<Step>, db': Db, k: EventKey)
    requires cfg.Valid() && Inv(db) && Leads(cfg, db, steps, db') && OldCharge(k) && Closed(db, k)
    ensures WonUnchanged(db, db', k)
    decreases |steps|
  {
    hide Inv, Possible, Next, Closed;
    if steps != [] {
      StepKeepsInv(cfg, db, steps[0]);
      StepKeepsClosed(cfg, db, steps[0], k);
      RunKeepsClosed(cfg, Next(cfg, db, steps[0]), steps[1..], db', k);
    }
  }

  // ---------------------------------------------------------------- the events of one charge

  /** An event of a record that the migration keeps, and the key it then has. */
  ghost predicate IsKept(rs: Records, os: Outboxes, order: seq<nat>, id: nat) {
    && Upgradable(rs, os, order) && id in os && Owner(rs, os[id].key).Some?
    && id in MergedOutbox(rs, os, order) && MergedOutbox(rs, os, order)[id].mergedInto.None?
  }

  ghost function KeptKey(rs: Records, os: Outboxes, order: seq<nat>, id: nat): EventKey
    requires IsKept(rs, os, order, id)
  {
    MergedOutbox(rs, os, order)[id].key
  }

  /** The keys of the events that the migration merged into one. */
  ghost function MergedInto(rs: Records, os: Outboxes, order: seq<nat>, id: nat): set<EventKey>
    requires Upgradable(rs, os, order)
  {
    set t | t in os && MergedOutbox(rs, os, order)[t].mergedInto == Some(id) :: MergedOutbox(rs, os, order)[t].key
  }

  /** A success on record. */
  predicate Told(db: Db, k: EventKey, c: ChannelId) {
    Won(Get(db.deliveries, Slot(k, c)))
  }

  ghost predicate TwoTold(db: Db, ks: set<EventKey>, c: ChannelId) {
    exists j, k :: j in ks && k in ks && j != k && Told(db, j, c) && Told(db, k, c)
  }

  /** Over all its events, one charge has been sent successfully to a channel more than once. */
  ghost predicate SentTwice(db: Db, ks: set<EventKey>, c: ChannelId) {
    || (exists k :: k in ks && db.hist.won[Slot(k, c)] > 1)
    || (exists j, k :: j in ks && k in ks && j != k && db.hist.won[Slot(j, c)] > 0 && db.hist.won[Slot(k, c)] > 0)
  }

  ghost predicate CanBeSentTwice(cfg: Settings, db: Db, ks: set<EventKey>, c: ChannelId) {
    exists steps, db' :: Leads(cfg, db, steps, db') && SentTwice(db', ks, c)
  }

  /** What the migration leaves of the events of one charge. */
  ghost predicate OneCharge(db: Db, kept: EventKey, merged: set<EventKey>) {
    && OldCharge(kept) && kept !in merged
    && kept in db.outbox
    && (forall m :: m in merged ==> MergedEvent(db, m, kept.user))
  }

  ghost predicate MergedEvent(db: Db, m: EventKey, user: UserId) {
    OldCharge(m) && m.user == user && m in db.outbox && db.outbox[m].status == EvMerged
  }

  lemma KeptIsOld(db: Db, rs: Records, os: Outboxes, order: seq<nat>, id: nat)
    requires UpgradedFrom(db, rs, os, order) && IsKept(rs, os, order, id)
    ensures OldCharge(KeptKey(rs, os, order, id)) && KeptKey(rs, os, order, id) in db.outbox
  {
    hide MergedOutbox, MergedRecords, Members, Peers, Owner, DeliveriesInStep, HistoryBegins;
    RowAfter(rs, os, order, id);
    FirstOfPeers(rs, order, Owner(rs, os[id].key).value);
  }

  lemma MergedIsOld(db: Db, rs: Records, os: Outboxes, order: seq<nat>, t: nat, id: nat)
    requires UpgradedFrom(db, rs, os, order) && IsKept(rs, os, order, id)
    requires t in os && MergedOutbox(rs, os, order)[t].mergedInto == Some(id)
    ensures t in MergedOutbox(rs, os, order)
    ensures MergedOutbox(rs, os, order)[t].key != KeptKey(rs, os, order, id)
    ensures MergedEvent(db, MergedOutbox(rs, os, order)[t].key, KeptKey(rs, os, order, id).user)
  {
    hide MergedOutbox, MergedRecords, Members, Peers, Owner, DeliveriesInStep, HistoryBegins;
    RowAfter(rs, os, order, t);
    var r := Owner(rs, os[t].key).value;
    var first := Peers(rs, order, r)[0];
    FirstOfPeers(rs, order, r);
    SameAccount(rs, order, r);
    StatusAfter(db, rs, os, order, t);
  }

  lemma SameAccount(rs: Records, order: seq<nat>, r: nat)
    requires QueryOrder(rs, order) && r in rs
    ensures Peers(rs, order, r)[0] in rs && rs[Peers(rs, order, r)[0]].account == rs[r].account
  {
    MembersAre(rs, order, GroupOf(rs[r]));
    assert Peers(rs, order, r)[0] in Peers(rs, order, r);
  }

  lemma StatusAfter(db: Db, rs: Records, os: Outboxes, order: seq<nat>, t: nat)
    requires UpgradedFrom(db, rs, os, order) && t in os
    ensures t in MergedOutbox(rs, os, order) && MergedOutbox(rs, os, order)[t].key in db.outbox
    ensures db.outbox[MergedOutbox(rs, os, order)[t].key].status == MergedOutbox(rs, os, order)[t].status
  {
    NoOutboxIsLost(rs, os, order);
    hide MergedOutbox, MergedRecords, DeliveriesInStep, HistoryBegins;
  }

  lemma UpgradedCharge(db: Db, rs: Records, os: Outboxes, order: seq<nat>, id: nat)
    requires UpgradedFrom(db, rs, os, order) && IsKept(rs, os, order, id)
    ensures Upgradable(rs, os, order)
    ensures OneCharge(db, KeptKey(rs, os, order, id), MergedInto(rs, os, order, id))
  {
    hide UpgradedFrom, MergedOutbox, MergedInto, MergedEvent, Owner, OldCharge, Upgradable;
    KeptIsOld(db, rs, os, order, id);
    var kept, merged := KeptKey(rs, os, order, id), MergedInto(rs, os, order, id);
    forall m | m in merged
      ensures m != kept && MergedEvent(db, m, kept.user)
    {
      var t := RowOf(rs, os, order, id, m);
      MergedIsOld(db, rs, os, order, t, id);
    }
  }

  lemma RowOf(rs: Records, os: Outboxes, order: seq<nat>, id: nat, m: EventKey) returns (t: nat)
    requires Upgradable(rs, os, order) && m in MergedInto(rs, os, order, id)
    ensures t in os && t in MergedOutbox(rs, os, order)
    ensures MergedOutbox(rs, os, order)[t].mergedInto == Some(id) && MergedOutbox(rs, os, order)[t].key == m
  {
    hide MergedOutbox, Before, KeysDistinct, DistinctCharges;
    NoOutboxIsLost(rs, os, order);
    t :| t in os && MergedOutbox(rs, os, order)[t].mergedInto == Some(id) && MergedOutbox(rs, os, order)[t].key == m;
  }

  // ---------------------------------------------------------------- sent twice

  /** An event that is still open can be sent to any channel of its owner it has not been sent to. */
  lemma OpenCanBeSent(cfg: Settings, db: Db, k: EventKey, c: ChannelId) returns (steps: seq<Step>, db': Db)
    requires Inv(db) && StillOpen(db, k) && !Told(db, k, c)
    requires c in db.channels && db.channels[c].user == k.user
    ensures Leads(cfg, db, steps, db') && db'.hist.won[Slot(k, c)] > db.hist.won[Slot(k, c)]
  {
    hide Inv, Leads;
    NoSteps(cfg, db);
    var row := Get(db.deliveries, Slot(k, c));
    var t := MaxTime(Some(db.clock), if row.Some? then row.value.due else db.clock);
    if HasFailedRow(db, k) {
      var s :| s in db.deliveries && s.event == k && db.deliveries[s].status == DlFailed;
      RowHasChannel(db, s);
      var first, db1 := FailedCanBeRetried(cfg, db, [], db, s, t);
      steps, db' := SendableIsSent(cfg, db, first, db1, k, c);
    } else {
      t := MaxTime(Some(t), db.outbox[k].due);
      var other := k.user + 1;
      LeadsOn(cfg, db, [], db, Retrying(other, Slot(k, c), t));
      assert RetryDelivery(db, other, Slot(k, c), t) == db.(clock := t);
      steps, db' := SendableIsSent(cfg, db, [] + [Retrying(other, Slot(k, c), t)], db.(clock := t), k, c);
    }
  }

  lemma WonIsTold(db: Db, k: EventKey, c: ChannelId)
    requires HistoryBegins(db)
    ensures db.hist.won[Slot(k, c)] > 0 <==> Told(db, k, c)
    ensures db.hist.won[Slot(k, c)] <= 1
  {
  }

  /** A run that sends one of the charge's events a second time found two sent to begin with, or sends
      the kept one after a merged one. */
  lemma SentTwiceMeans(cfg: Settings, db: Db, kept: EventKey, merged: set<EventKey>, c: ChannelId, steps: seq<Step>,
          db': Db)
    requires cfg.Valid() && Inv(db) && HistoryBegins(db) && OneCharge(db, kept, merged)
    requires Leads(cfg, db, steps, db') && SentTwice(db', merged + {kept}, c)
    ensures || TwoTold(db, merged + {kept}, c)
            || (!Told(db, kept, c) && StillOpen(db, kept) && exists m :: m in merged && Told(db, m, c))
  {
    RunKeepsInv(cfg, db, steps, db');
    hide Leads, HistoryBegins, Told;
    forall k | k in merged + {kept}
      ensures db'.hist.won[Slot(k, c)] <= 1
      ensures db'.hist.won[Slot(k, c)] > 0 ==> Told(db, k, c) || (k == kept && StillOpen(db, kept))
    {
      assert WonInv(db', Slot(k, c));
      WonIsTold(db, k, c);
      if !StillOpen(db, k) {
        RunKeepsClosed(cfg, db, steps, db', k);
      }
    }
    hide Inv, StillOpen;
  }

  /** Over its kept event and those merged into it, some run sends a charge to a channel a second time
      exactly when two of them had succeeded there before the upgrade, or a merged one had while the
      kept one had not and is still open. */
  lemma SentTwiceIff(cfg: Settings, db: Db, rs: Records, os: Outboxes, order: seq<nat>, id: nat, c: ChannelId)
    requires cfg.Valid() && UpgradedFrom(db, rs, os, order) && IsKept(rs, os, order, id)
    ensures var kept, merged := KeptKey(rs, os, order, id), MergedInto(rs, os, order, id);
            CanBeSentTwice(cfg, db, merged + {kept}, c) <==>
            || TwoTold(db, merged + {kept}, c)
            || (!Told(db, kept, c) && StillOpen(db, kept) && exists m :: m in merged && Told(db, m, c))
  {
    hide UpgradedFrom, IsKept, KeptKey, Upgradable, MergedInto, Inv, Leads, OneCharge, HistoryBegins, StillOpen;
    UpgradedCharge(db, rs, os, order, id);
    UpgradedInv(db, rs, os, order);
    UpgradedBegins(db, rs, os, order);
    var kept, merged := KeptKey(rs, os, order, id), MergedInto(rs, os, order, id);
    if CanBeSentTwice(cfg, db, merged + {kept}, c) {
      var steps, db' :| Leads(cfg, db, steps, db') && SentTwice(db', merged + {kept}, c);
      SentTwiceMeans(cfg, db, kept, merged, c, steps, db');
    }
    if TwoTold(db, merged + {kept}, c) {
      TwoToldIsTwice(cfg, db, merged + {kept}, c);
    }
    if m :| m in merged && Told(db, m, c) && !Told(db, kept, c) && StillOpen(db, kept) {
      SecondSend(cfg, db, kept, merged, c, m);
    }
  }

  lemma UpgradedBegins(db: Db, rs: Records, os: Outboxes, order: seq<nat>)
    requires UpgradedFrom(db, rs, os, order)
    ensures HistoryBegins(db)
  {
    hide MergedOutbox, MergedRecords, Upgradable, HistoryBegins, DeliveriesInStep;
  }

  lemma TwoToldIsTwice(cfg: Settings, db: Db, ks: set<EventKey>, c: ChannelId)
    requires HistoryBegins(db) && TwoTold(db, ks, c)
    ensures CanBeSentTwice(cfg, db, ks, c)
  {
    hide HistoryBegins, Told, Leads;
    var j, k :| j in ks && k in ks && j != k && Told(db, j, c) && Told(db, k, c);
    WonIsTold(db, j, c);
    WonIsTold(db, k, c);
    assert SentTwice(db, ks, c);
    NoSteps(cfg, db);
  }

  lemma SecondSend(cfg: Settings, db: Db, kept: EventKey, merged: set<EventKey>, c: ChannelId, m: EventKey)
    requires cfg.Valid() && Inv(db) && HistoryBegins(db) && OneCharge(db, kept, merged)
    requires m in merged && Told(db, m, c) && !Told(db, kept, c) && StillOpen(db, kept)
    ensures CanBeSentTwice(cfg, db, merged + {kept}, c)
  {
    hide Inv, Leads, HistoryBegins;
    assert MergedEvent(db, m, kept.user);
    RowHasChannel(db, Slot(m, c));
    var steps, db' := OpenCanBeSent(cfg, db, kept, c);
    WonIsTold(db, m, c);
    RunKeepsClosed(cfg, db, steps, db', m);
    assert SentTwice(db', merged + {kept}, c);
  }
}
