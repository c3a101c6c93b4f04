/** Rebuilding missing outbox events and delivery rows from stored charge records. */
module Reconciliation {
  import opened Common
  import opened Charges
  import opened Pipeline

  datatype Summary = Summary(
    scanned: nat, missingOutbox: nat, outboxRebuilt: nat, missingDeliveries: nat, deliveriesCreated: nat,
    requeued: nat, alreadyComplete: nat, skipped: nat, errors: nat)

  const EMPTY_SUMMARY := Summary(0, 0, 0, 0, 0, 0, 0, 0, 0)

  /** What one record's repair sees: the enabled subscribed channels as the query lists them,
      and the instant a rebuilt event is created. */
  datatype Repair = Repair(rows: seq<ChannelId>, at: Time)

  function EnsureDeliveries(ds: map<Slot, Delivery>, k: EventKey, rows: seq<ChannelId>, now: Time)
    : (r: map<Slot, Delivery>)
    ensures |ds| <= |r|
  {
    if rows == [] then ds
    else
      var n := |rows| - 1;
      var before := EnsureDeliveries(ds, k, rows[..n], now);
      var slot := Slot(k, rows[n]);
      if slot in before then before else before[slot := Delivery(DlPending, 0, now, None)]
  }

  /** A delivered event whose deliveries grew becomes due again. */
  function Requeued(e: Event, grew: bool, now: Time): Event {
    if grew && e.status == EvDelivered then e.(status := EvRetry, due := now) else e
  }

  function AttachDeliveries(db: Db, k: EventKey, rows: seq<ChannelId>, now: Time): Db
    requires k in db.outbox
  {
    var ds := EnsureDeliveries(db.deliveries, k, rows, now);
    db.(deliveries := ds, outbox := db.outbox[k := Requeued(db.outbox[k], |ds| > |db.deliveries|, now)])
  }

  /** Repairing the event `k` of one record, whose payload would be `p`. */
  function RepairEvent(db: Db, k: EventKey, p: Payload, now: Time, rep: Repair): Db {
    var db1 := Enqueue(db, k, NewCharge, p, rep.at);
    if db1.outbox[k].status == EvFailed then db1 else AttachDeliveries(db1, k, rep.rows, now)
  }

  function One(b: bool): nat {
    if b then 1 else 0
  }

  /** How many rows a repair of `k` adds. */
  function Created(db: Db, k: EventKey, now: Time, rep: Repair): nat {
    if k in db.outbox && db.outbox[k].status == EvFailed then 0
    else |EnsureDeliveries(db.deliveries, k, rep.rows, now)| - |db.deliveries|
  }

  predicate Is(db: Db, k: EventKey, status: EventStatus) {
    k in db.outbox && db.outbox[k].status == status
  }

  /** The counters after one repair. */
  function Note(s: Summary, db: Db, k: EventKey, now: Time, rep: Repair): Summary {
    var created := Created(db, k, now, rep);
    Summary(
      s.scanned,
      s.missingOutbox + One(k !in db.outbox),
      s.outboxRebuilt + One(k !in db.outbox),
      s.missingDeliveries + created,
      s.deliveriesCreated + created,
      s.requeued + One(created > 0 && Is(db, k, EvDelivered)),
      s.alreadyComplete + One(created == 0 && k in db.outbox && !Is(db, k, EvFailed)),
      s.skipped + One(Is(db, k, EvFailed)),
      s.errors)
  }

  /** Reconciling a list of records one after the other. */
  function ReconcileAll(db: Db, batch: seq<ChargeRecord>, now: Time, reps: seq<Repair>): Db
    requires |batch| == |reps|
  {
    if batch == [] then db
    else
      var n := |batch| - 1;
      var before := ReconcileAll(db, batch[..n], now, reps[..n]);
      RepairEvent(before, ChargeKey(batch[n]), NewChargePayload(batch[n]), now, reps[n])
  }

  function SummaryOf(db: Db, batch: seq<ChargeRecord>, now: Time, reps: seq<Repair>): Summary
    requires |batch| == |reps|
  {
    if batch == [] then EMPTY_SUMMARY
    else
      var n := |batch| - 1;
      var s := SummaryOf(db, batch[..n], now, reps[..n]);
      Note(s.(scanned := s.scanned + 1), ReconcileAll(db, batch[..n], now, reps[..n]), ChargeKey(batch[n]), now, reps[n])
  }

  predicate InWindow(r: ChargeRecord, user: Option<UserId>, cutoff: Time) {
    r.created >= cutoff && r.eligible && (user.None? || r.user == user.value)
  }

  predicate Stored(db: Db, r: ChargeRecord) {
    Get(db.records, RecordSlot(r.account, r.recordKey)) == Some(r)
  }

  /** A result of the scan query: the newest eligible records inside the window, at most `limit`. */
  ghost predicate Scanned(db: Db, user: Option<UserId>, cutoff: Time, limit: nat, batch: seq<ChargeRecord>) {
    && Distinct(batch)
    && |batch| <= limit
    && (forall r :: r in batch ==> Stored(db, r) && InWindow(r, user, cutoff))
    && (forall i, j :: 0 <= i < j < |batch| ==> batch[i].created >= batch[j].created)
    && (forall r :: Stored(db, r) && InWindow(r, user, cutoff) && r !in batch ==>
                      |batch| == limit && forall q :: q in batch ==> q.created >= r.created)
  }

  ghost predicate RepairsOk(db: Db, batch: seq<ChargeRecord>, reps: seq<Repair>) {
    && |batch| == |reps|
    && (forall i :: 0 <= i < |batch| ==>
                      db.clock <= reps[i].at
                      && Distinct(reps[i].rows)
                      && Elements(reps[i].rows) == Matching(db, batch[i].user, NewCharge))
    && (forall i, j :: 0 <= i < j < |reps| ==> reps[i].at <= reps[j].at)
  }

  // ---------------------------------------------------------------- one record

  /** Rows are only ever added, as pending and due at once, for exactly the listed channels. */
  lemma {:induction false} EnsureDeliveriesEffect(ds: map<Slot, Delivery>, k: EventKey, rows: seq<ChannelId>, now: Time)
    ensures forall s :: s in ds ==> s in EnsureDeliveries(ds, k, rows, now) && EnsureDeliveries(ds, k, rows, now)[s] == ds[s]
    ensures forall c :: c in Elements(rows) ==> Slot(k, c) in EnsureDeliveries(ds, k, rows, now)
    ensures forall s :: s in EnsureDeliveries(ds, k, rows, now) && s !in ds ==>
                          s.event == k && s.channel in Elements(rows)
                          && EnsureDeliveries(ds, k, rows, now)[s] == Delivery(DlPending, 0, now, None)
    ensures |ds| <= |EnsureDeliveries(ds, k, rows, now)|
    ensures |EnsureDeliveries(ds, k, rows, now)| == |ds| <==> EnsureDeliveries(ds, k, rows, now) == ds
  {
    if rows != [] {
      var n := |rows| - 1;
      EnsureDeliveriesEffect(ds, k, rows[..n], now);
      assert Elements(rows) == Elements(rows[..n]) + {rows[n]} by {
        assert rows == rows[..n] + [rows[n]];
      }
      var before := EnsureDeliveries(ds, k, rows[..n], now);
      if Slot(k, rows[n]) !in before {
        assert |EnsureDeliveries(ds, k, rows, now)| == |before| + 1;
      }
    }
  }

  /** An event needs no repair: it exists, and has failed for good or has a delivery row for
      every enabled subscribed channel of its owner. */
  ghost predicate Complete(db: Db, k: EventKey) {
    && k in db.outbox
    && (db.outbox[k].status == EvFailed || forall c :: c in Matching(db, k.user, NewCharge) ==> Slot(k, c) in db.deliveries)
  }

  /** The only changes a repair makes to what existed: a delivered event becomes due again. */
  ghost predicate OnlyRepairs(db: Db, db': Db, now: Time) {
    && db'.records == db.records && db'.channels == db.channels && db'.subs == db.subs
    && db'.accounts == db.accounts && db'.audit == db.audit
    && (forall s :: s in db.deliveries ==> s in db'.deliveries && db'.deliveries[s] == db.deliveries[s])
    && (forall k :: k in db.outbox ==>
                      k in db'.outbox
                      && (db'.outbox[k] == db.outbox[k]
                          || (db.outbox[k].status == EvDelivered
                              && db'.outbox[k] == db.outbox[k].(status := EvRetry, due := now))))
    && db'.hist.sent == db.hist.sent && db'.hist.won == db.hist.won
  }

  lemma AttachCompletes(db: Db, k: EventKey, rows: seq<ChannelId>, now: Time)
    requires k in db.outbox && Elements(rows) == Matching(db, k.user, NewCharge)
    ensures Complete(AttachDeliveries(db, k, rows, now), k)
  {
    var db' := AttachDeliveries(db, k, rows, now);
    assert Matching(db', k.user, NewCharge) == Matching(db, k.user, NewCharge);
    EnsureDeliveriesEffect(db.deliveries, k, rows, now);
  }

  lemma RepairCompletes(db: Db, k: EventKey, p: Payload, now: Time, rep: Repair)
    requires Elements(rep.rows) == Matching(db, k.user, NewCharge)
    ensures Complete(RepairEvent(db, k, p, now, rep), k)
  {
    var db1 := Enqueue(db, k, NewCharge, p, rep.at);
    if k in db.outbox {
      assert Matching(db1, k.user, NewCharge) == Matching(db, k.user, NewCharge);
    } else {
      assert Matching(db1, k.user, NewCharge) == Matching(db, k.user, NewCharge);
    }
    if db1.outbox[k].status != EvFailed {
      AttachCompletes(db1, k, rep.rows, now);
    }
  }

  lemma AttachOnlyRepairs(db: Db, k: EventKey, rows: seq<ChannelId>, now: Time)
    requires k in db.outbox
    ensures OnlyRepairs(db, AttachDeliveries(db, k, rows, now), now)
    ensures AttachDeliveries(db, k, rows, now).outbox.Keys == db.outbox.Keys
  {
    EnsureDeliveriesEffect(db.deliveries, k, rows, now);
  }

  lemma EnqueueOnlyAdds(db: Db, k: EventKey, p: Payload, at: Time, now: Time)
    ensures OnlyRepairs(db, Enqueue(db, k, NewCharge, p, at), now)
  {
    if k in db.outbox {
    } else {
    }
  }

  lemma OnlyRepairsTransitive(a: Db, b: Db, c: Db, now: Time)
    requires OnlyRepairs(a, b, now) && OnlyRepairs(b, c, now)
    ensures OnlyRepairs(a, c, now)
  {
  }

  lemma RepairOnlyRepairs(db: Db, k: EventKey, p: Payload, now: Time, rep: Repair)
    ensures OnlyRepairs(db, RepairEvent(db, k, p, now, rep), now)
  {
    var db1 := Enqueue(db, k, NewCharge, p, rep.at);
    EnqueueOnlyAdds(db, k, p, rep.at, now);
    if db1.outbox[k].status != EvFailed {
      AttachOnlyRepairs(db1, k, rep.rows, now);
      OnlyRepairsTransitive(db, db1, AttachDeliveries(db1, k, rep.rows, now), now);
    }
  }

  /** A repair adds only pending delivery rows of its event, due at once, for matching
      channels of the event's owner. */
  lemma RepairAddsRows(db: Db, k: EventKey, p: Payload, now: Time, rep: Repair)
    requires Elements(rep.rows) == Matching(db, k.user, NewCharge)
    ensures forall s: Slot :: s in RepairEvent(db, k, p, now, rep).deliveries && s !in db.deliveries ==>
                                && s.event == k && s.channel in Matching(db, k.user, NewCharge)
                                && RepairEvent(db, k, p, now, rep).deliveries[s] == Delivery(DlPending, 0, now, None)
  {
    EnsureDeliveriesEffect(db.deliveries, k, rep.rows, now);
    if k !in db.outbox {
    } else if db.outbox[k].status == EvFailed {
    } else {
    }
  }

  lemma EnqueueKeys(db: Db, k: EventKey, p: Payload, at: Time)
    ensures Enqueue(db, k, NewCharge, p, at).outbox.Keys == db.outbox.Keys + {k}
    ensures k !in db.outbox ==> Enqueue(db, k, NewCharge, p, at).outbox[k] == Event(NewCharge, p, EvPending, 0, at, at)
  {
    if k in db.outbox {
    } else {
    }
  }

  /** A repair adds no event but the record's own, as new. */
  lemma RepairAddsEvent(db: Db, k: EventKey, p: Payload, now: Time, rep: Repair)
    ensures RepairEvent(db, k, p, now, rep).outbox.Keys == db.outbox.Keys + {k}
    ensures k !in db.outbox ==>
              RepairEvent(db, k, p, now, rep).outbox[k] == Event(NewCharge, p, EvPending, 0, rep.at, rep.at)
  {
    var db1 := Enqueue(db, k, NewCharge, p, rep.at);
    EnqueueKeys(db, k, p, rep.at);
    if db1.outbox[k].status != EvFailed {
      AttachOnlyRepairs(db1, k, rep.rows, now);
    }
  }

  lemma CompleteIsFixpoint(db: Db, k: EventKey, p: Payload, now: Time, rep: Repair)
    requires Complete(db, k) && Elements(rep.rows) == Matching(db, k.user, NewCharge)
    ensures db.outbox[k].status != EvFailed ==> EnsureDeliveries(db.deliveries, k, rep.rows, now) == db.deliveries
    ensures RepairEvent(db, k, p, now, rep) == db.(clock := rep.at)
  {
    if db.outbox[k].status != EvFailed {
      EnsureDeliveriesEffect(db.deliveries, k, rep.rows, now);
      var ds := EnsureDeliveries(db.deliveries, k, rep.rows, now);
      forall s | s in ds
        ensures s in db.deliveries
      {
        assert s.event == k && s.channel in Elements(rep.rows) ==> s == Slot(k, s.channel);
      }
      assert ds == db.deliveries;
      assert db.outbox[k := db.outbox[k]] == db.outbox;
    }
  }

  lemma CompletePersists(db: Db, db': Db, k: EventKey, now: Time)
    requires Complete(db, k) && OnlyRepairs(db, db', now)
    ensures Complete(db', k)
  {
    assert Matching(db', k.user, NewCharge) == Matching(db, k.user, NewCharge);
  }

  // ---------------------------------------------------------------- one run

  /** Whatever the run scans ends complete; the run only adds rows or requeues. */
  lemma {:induction false} RunRepairs(db: Db, batch: seq<ChargeRecord>, now: Time, reps: seq<Repair>)
    requires RepairsOk(db, batch, reps)
    ensures OnlyRepairs(db, ReconcileAll(db, batch, now, reps), now)
    ensures forall r :: r in batch ==> Complete(ReconcileAll(db, batch, now, reps), ChargeKey(r))
  {
    if batch != [] {
      var n := |batch| - 1;
      RunRepairs(db, batch[..n], now, reps[..n]);
      var mid, after := ReconcileAll(db, batch[..n], now, reps[..n]), ReconcileAll(db, batch, now, reps);
      var k, p := ChargeKey(batch[n]), NewChargePayload(batch[n]);
      assert Matching(mid, k.user, NewCharge) == Matching(db, k.user, NewCharge);
      RepairOnlyRepairs(mid, k, p, now, reps[n]);
      OnlyRepairsTransitive(db, mid, after, now);
      RepairCompletes(mid, k, p, now, reps[n]);
      forall r | r in batch
        ensures Complete(after, ChargeKey(r))
      {
        if r in batch[..n] {
          CompletePersists(mid, after, ChargeKey(r), now);
        } else {
          assert r == batch[n];
        }
      }
    }
  }

  /** Every delivery row a run adds is pending, and belongs to a scanned record's event and to
      a channel of that record's user. */
  lemma {:induction false} RunKeepsTenants(db: Db, batch: seq<ChargeRecord>, now: Time, reps: seq<Repair>)
    requires RepairsOk(db, batch, reps)
    ensures forall s: Slot :: s in ReconcileAll(db, batch, now, reps).deliveries && s !in db.deliveries ==>
                                (exists r :: r in batch && s.event == ChargeKey(r))
                                && s.channel in db.channels && db.channels[s.channel].user == s.event.user
                                && ReconcileAll(db, batch, now, reps).deliveries[s] == Delivery(DlPending, 0, now, None)
  {
    hide RepairEvent, Complete, NewChargePayload, Matching, RepairsOk;
    if batch != [] {
      var n := |batch| - 1;
      PrefixOk(db, batch, reps);
      RunKeepsTenants(db, batch[..n], now, reps[..n]);
      var mid, after := ReconcileAll(db, batch[..n], now, reps[..n]), ReconcileAll(db, batch, now, reps);
      var k := ChargeKey(batch[n]);
      assert k.user == batch[n].user && batch[n] in batch;
      assert after == RepairEvent(mid, k, NewChargePayload(batch[n]), now, reps[n]);
      hide ReconcileAll, ChargeKey;
      RunRepairs(db, batch[..n], now, reps[..n]);
      SameMatching(db, mid, k.user);
      MatchingIsOwn(db, k.user);
      RepairAddsRows(mid, k, NewChargePayload(batch[n]), now, reps[n]);
      RepairOnlyRepairs(mid, k, NewChargePayload(batch[n]), now, reps[n]);
      forall s: Slot | s in after.deliveries && s !in db.deliveries
        ensures exists r :: r in batch && s.event == ChargeKey(r)
        ensures s.channel in db.channels && db.channels[s.channel].user == s.event.user
        ensures after.deliveries[s] == Delivery(DlPending, 0, now, None)
      {
        if s in mid.deliveries {
          var r :| r in batch[..n] && s.event == ChargeKey(r);
          assert r in batch;
        }
      }
    }
  }

  lemma PrefixOk(db: Db, batch: seq<ChargeRecord>, reps: seq<Repair>)
    requires batch != [] && RepairsOk(db, batch, reps)
    ensures var n := |batch| - 1;
            && |reps| == n + 1 && RepairsOk(db, batch[..n], reps[..n])
            && Elements(reps[n].rows) == Matching(db, batch[n].user, NewCharge)
  {
    hide Matching;
  }

  lemma SameMatching(db: Db, db': Db, user: UserId)
    requires db'.channels == db.channels && db'.subs == db.subs
    ensures Matching(db', user, NewCharge) == Matching(db, user, NewCharge)
  {
    assert forall c :: Matches(db', user, NewCharge, c) == Matches(db, user, NewCharge, c);
  }

  lemma MatchingIsOwn(db: Db, user: UserId)
    ensures forall c :: c in Matching(db, user, NewCharge) ==> c in db.channels && db.channels[c].user == user
  {
  }

  lemma CompleteNote(s: Summary, db: Db, k: EventKey, now: Time, rep: Repair)
    requires Complete(db, k)
    requires db.outbox[k].status != EvFailed ==> EnsureDeliveries(db.deliveries, k, rep.rows, now) == db.deliveries
    ensures Note(s, db, k, now, rep) ==
            if db.outbox[k].status == EvFailed then s.(skipped := s.skipped + 1)
            else s.(alreadyComplete := s.alreadyComplete + 1)
  {
  }

  lemma {:induction false} CompleteRunIsIdle(db: Db, batch: seq<ChargeRecord>, now: Time, reps: seq<Repair>)
    requires RepairsOk(db, batch, reps)
    requires forall r :: r in batch ==> Complete(db, ChargeKey(r))
    ensures ReconcileAll(db, batch, now, reps) == db.(clock := ReconcileAll(db, batch, now, reps).clock)
    ensures SummaryOf(db, batch, now, reps).alreadyComplete + SummaryOf(db, batch, now, reps).skipped == |batch|
    ensures SummaryOf(db, batch, now, reps).(alreadyComplete := 0, skipped := 0) == EMPTY_SUMMARY.(scanned := |batch|)
  {
    hide RepairEvent, Note, NewChargePayload, Matching, Complete;
    if batch != [] {
      var n := |batch| - 1;
      CompleteRunIsIdle(db, batch[..n], now, reps[..n]);
      var mid := ReconcileAll(db, batch[..n], now, reps[..n]);
      var k := ChargeKey(batch[n]);
      assert batch[n] in batch && k.user == batch[n].user;
      hide ChargeKey;
      CompleteAnyClock(db, mid, k);
      CompleteIsFixpoint(mid, k, NewChargePayload(batch[n]), now, reps[n]);
      var s := SummaryOf(db, batch[..n], now, reps[..n]);
      CompleteNote(s.(scanned := s.scanned + 1), mid, k, now, reps[n]);
    }
  }

  lemma CompleteAnyClock(db: Db, db': Db, k: EventKey)
    requires Complete(db, k) && db' == db.(clock := db'.clock)
    ensures Complete(db', k)
    ensures Matching(db', k.user, NewCharge) == Matching(db, k.user, NewCharge)
  {
    assert Matching(db', k.user, NewCharge) == Matching(db, k.user, NewCharge);
  }

  /** A second run over the same records, from the state the first left, changes nothing and
      reports every record as complete or skipped. */
  lemma ReconciliationIdempotent(db: Db, batch: seq<ChargeRecord>, now: Time, reps: seq<Repair>, reps': seq<Repair>)
    requires RepairsOk(db, batch, reps)
    requires RepairsOk(ReconcileAll(db, batch, now, reps), batch, reps')
    ensures var first := ReconcileAll(db, batch, now, reps);
            var again := ReconcileAll(first, batch, now, reps');
            var s := SummaryOf(first, batch, now, reps');
            && again == first.(clock := again.clock)
            && s.alreadyComplete + s.skipped == s.scanned == |batch|
            && s.outboxRebuilt == s.deliveriesCreated == s.requeued == 0
  {
    RunRepairs(db, batch, now, reps);
    CompleteRunIsIdle(ReconcileAll(db, batch, now, reps), batch, now, reps');
  }

  // ---------------------------------------------------------------- the counters

  /** How many records of a run had an outbox event, not failed, that gained delivery rows. */
  ghost function Gained(db: Db, batch: seq<ChargeRecord>, now: Time, reps: seq<Repair>): nat
    requires |batch| == |reps|
  {
    if batch == [] then 0
    else
      var n := |batch| - 1;
      var mid := ReconcileAll(db, batch[..n], now, reps[..n]);
      var after := ReconcileAll(db, batch, now, reps);
      Gained(db, batch[..n], now, reps[..n])
      + (if ChargeKey(batch[n]) in mid.outbox && |after.deliveries| > |mid.deliveries| then 1 else 0)
  }

  lemma RepairSizes(db: Db, k: EventKey, p: Payload, now: Time, rep: Repair)
    ensures |RepairEvent(db, k, p, now, rep).outbox| == |db.outbox| + One(k !in db.outbox)
    ensures |RepairEvent(db, k, p, now, rep).deliveries| == |db.deliveries| + Created(db, k, now, rep)
  {
    RepairAddsEvent(db, k, p, now, rep);
    KeysSize(RepairEvent(db, k, p, now, rep).outbox, db.outbox, k);
    if k !in db.outbox {
    } else if db.outbox[k].status == EvFailed {
    } else {
    }
  }

  lemma KeysSize(m: map<EventKey, Event>, was: map<EventKey, Event>, k: EventKey)
    requires m.Keys == was.Keys + {k}
    ensures |m| == |was| + One(k !in was)
  {
    assert |m| == |m.Keys| && |was| == |was.Keys|;
    if k in was {
      assert m.Keys == was.Keys;
    }
  }

  /** Every counter is the size of the change it names, and each scanned record is counted once. */
  lemma {:induction false} CountersMatch(db: Db, batch: seq<ChargeRecord>, now: Time, reps: seq<Repair>)
    requires |batch| == |reps|
    ensures var s, after := SummaryOf(db, batch, now, reps), ReconcileAll(db, batch, now, reps);
            && s.scanned == |batch|
            && s.missingOutbox == s.outboxRebuilt == |after.outbox| - |db.outbox|
            && s.missingDeliveries == s.deliveriesCreated == |after.deliveries| - |db.deliveries|
            && s.scanned == s.alreadyComplete + s.skipped + s.outboxRebuilt + Gained(db, batch, now, reps)
            && s.requeued <= Gained(db, batch, now, reps)
            && s.errors == 0
  {
    if batch != [] {
      var n := |batch| - 1;
      CountersMatch(db, batch[..n], now, reps[..n]);
      var s := SummaryOf(db, batch[..n], now, reps[..n]);
      var mid := ReconcileAll(db, batch[..n], now, reps[..n]);
      RepairSizes(mid, ChargeKey(batch[n]), NewChargePayload(batch[n]), now, reps[n]);
    }
  }

  /** An event that is rebuilt tells what its record tells, as the one collected with it did. */
  lemma RebuiltTells(db: Db, r: ChargeRecord, now: Time, rep: Repair)
    requires ChargeKey(r) !in db.outbox
    ensures var after := RepairEvent(db, ChargeKey(r), NewChargePayload(r), now, rep).outbox;
            && ChargeKey(r) in after
            && var e := after[ChargeKey(r)];
               && e.eventType == NewCharge && e.status == EvPending && e.attempts == 0 && e.due == e.created == rep.at
               && e.payload.ChargePayload? && e.payload.amount == r.amount && e.payload.brokerage == r.brokerage
               && e.payload.supporter == r.supporterName && e.payload.chargedAt == r.chargedAt
  {
    hide ChargeKey;
    RepairAddsEvent(db, ChargeKey(r), NewChargePayload(r), now, rep);
    hide RepairEvent;
  }

  /** The events that were delivered before and wait for a retry afterwards. */
  ghost function RequeuedIn(db: Db, db': Db): set<EventKey> {
    set k | k in db.outbox && db.outbox[k].status == EvDelivered && Is(db', k, EvRetry)
  }

  /** What a repair makes of the events: its own is new, or requeued if delivered and short of a row. */
  lemma RepairOutbox(db: Db, k: EventKey, p: Payload, now: Time, rep: Repair)
    ensures var after := RepairEvent(db, k, p, now, rep).outbox;
            && (forall j :: j != k ==> Get(after, j) == Get(db.outbox, j))
            && k in after
            && (k !in db.outbox ==> after[k].status == EvPending)
            && (k in db.outbox ==>
                  after[k].status == if Created(db, k, now, rep) > 0 && Is(db, k, EvDelivered) then EvRetry
                                     else db.outbox[k].status)
  {
    var db1 := Enqueue(db, k, NewCharge, p, rep.at);
    EnqueueKeys(db, k, p, rep.at);
    EnqueueSame(db, k, p, rep.at);
    assert k in db.outbox ==> Get(db1.outbox, k) == Get(db.outbox, k);
    hide Enqueue;
    if db1.outbox[k].status != EvFailed {
      AttachOutbox(db1, k, rep.rows, now);
    }
    hide AttachDeliveries, EnsureDeliveries;
  }

  lemma EnqueueSame(db: Db, k: EventKey, p: Payload, at: Time)
    ensures Enqueue(db, k, NewCharge, p, at).deliveries == db.deliveries
    ensures forall j :: j != k || k in db.outbox ==> Get(Enqueue(db, k, NewCharge, p, at).outbox, j) == Get(db.outbox, j)
  {
    if k in db.outbox {
    } else {
    }
  }

  lemma AttachOutbox(db: Db, k: EventKey, rows: seq<ChannelId>, now: Time)
    requires k in db.outbox
    ensures var after := AttachDeliveries(db, k, rows, now).outbox;
            && (forall j :: j != k ==> Get(after, j) == Get(db.outbox, j)) && k in after
            && after[k].status == if |EnsureDeliveries(db.deliveries, k, rows, now)| > |db.deliveries|
                                     && db.outbox[k].status == EvDelivered then EvRetry else db.outbox[k].status
  {
    hide EnsureDeliveries;
  }

  lemma OneRequeued(db: Db, mid: Db, after: Db, k: EventKey, grew: bool)
    requires forall j :: j in mid.outbox && mid.outbox[j].status == EvDelivered ==> Is(db, j, EvDelivered)
    requires forall j :: j != k ==> Get(after.outbox, j) == Get(mid.outbox, j)
    requires k in after.outbox && (k !in mid.outbox ==> after.outbox[k].status == EvPending && k !in db.outbox)
    requires k in mid.outbox ==>
               after.outbox[k].status == if grew && Is(mid, k, EvDelivered) then EvRetry else mid.outbox[k].status
    ensures |RequeuedIn(db, after)| == |RequeuedIn(db, mid)| + One(grew && Is(mid, k, EvDelivered))
    ensures forall j :: j in after.outbox && after.outbox[j].status == EvDelivered ==> Is(db, j, EvDelivered)
  {
    assert forall j :: Is(after, j, EvRetry) <==>
                         if j == k then Is(mid, k, EvRetry) || (grew && Is(mid, k, EvDelivered)) else Is(mid, j, EvRetry) by {
      forall j
        ensures j != k ==> (Is(after, j, EvRetry) <==> Is(mid, j, EvRetry))
      {
        assert j != k ==> Get(after.outbox, j) == Get(mid.outbox, j);
      }
    }
    forall j | j in after.outbox && after.outbox[j].status == EvDelivered
      ensures Is(db, j, EvDelivered)
    {
      assert j != k ==> Get(after.outbox, j) == Get(mid.outbox, j);
    }
    if grew && Is(mid, k, EvDelivered) {
      assert RequeuedIn(db, after) == RequeuedIn(db, mid) + {k} && k !in RequeuedIn(db, mid);
    } else {
      assert RequeuedIn(db, after) == RequeuedIn(db, mid);
    }
  }

  /** As many events are reported as requeued as were delivered before the run and wait after it. */
  lemma {:induction false} RequeuedCount(db: Db, batch: seq<ChargeRecord>, now: Time, reps: seq<Repair>)
    requires |batch| == |reps|
    ensures var after := ReconcileAll(db, batch, now, reps);
            && SummaryOf(db, batch, now, reps).requeued == |RequeuedIn(db, after)|
            && db.outbox.Keys <= after.outbox.Keys
            && forall j :: j in after.outbox && after.outbox[j].status == EvDelivered ==> Is(db, j, EvDelivered)
  {
    hide RepairEvent, ChargeKey, NewChargePayload, Created, RequeuedIn;
    if batch == [] {
      NoneRequeued(db);
    } else {
      var n := |batch| - 1;
      RequeuedCount(db, batch[..n], now, reps[..n]);
      var mid, after := ReconcileAll(db, batch[..n], now, reps[..n]), ReconcileAll(db, batch, now, reps);
      var k, p := ChargeKey(batch[n]), NewChargePayload(batch[n]);
      assert after == RepairEvent(mid, k, p, now, reps[n]);
      RepairOutbox(mid, k, p, now, reps[n]);
      OneRequeued(db, mid, after, k, Created(mid, k, now, reps[n]) > 0);
      forall j | j in db.outbox
        ensures j in after.outbox
      {
        assert j != k ==> Get(after.outbox, j) == Get(mid.outbox, j);
      }
      hide ReconcileAll;
    }
  }

  lemma NoneRequeued(db: Db)
    ensures |RequeuedIn(db, db)| == 0
  {
    assert RequeuedIn(db, db) == {};
  }
}
