/** What every operation of the pipeline keeps, stated row by row, and its preservation by the
    elementary changes the operations are made of. */
module Invariants {
  import opened Common
  import opened Charges
  import opened Pipeline
  import opened DeliveryPass
  import opened Reconciliation
  import opened Collection
  import opened Feed

  /** A charge event whose key the current release made. */
  predicate CurrentCharge(k: EventKey) {
    k.topic.ChargeTopic? && !k.topic.eventId.Legacy?
  }

  function RecordOf(k: EventKey): RecordSlot
    requires k.topic.ChargeTopic?
  {
    RecordSlot(k.topic.account, k.topic.eventId)
  }

  /** A record sits under its own key, belongs to its account's owner, is eligible exactly when
      newer than the watermark its run began with, and if eligible has had its event. */
  ghost predicate RecordInv(db: Db, rs: RecordSlot)
    requires rs in db.records
  {
    var r := db.records[rs];
    && rs == SlotOf(r) && !r.recordKey.Legacy?
    && (r.eventId.Legacy? || r.eventId == r.recordKey)
    && rs.account in db.accounts && db.accounts[rs.account].user == r.user
    && (r.eligible ==> !r.eventId.Legacy? && (ChargeKey(r) in db.outbox || ChargeKey(r) in db.hist.erased))
    && (!r.eventId.Legacy? ==> rs in db.hist.baseline && (r.eligible <==> Eligible(db.hist.baseline[rs], r.chargedAt)))
  }

  /** The eligible record behind a charge event of the current release, unless its account is gone. */
  ghost predicate HasRecord(db: Db, k: EventKey, before: Time)
    requires k.topic.ChargeTopic?
  {
    k.topic.account in db.hist.unbound
    || (&& RecordOf(k) in db.records
        && db.records[RecordOf(k)].eligible
        && db.records[RecordOf(k)].user == k.user
        && db.records[RecordOf(k)].created <= before)
  }

  ghost predicate EventInv(db: Db, k: EventKey)
    requires k in db.outbox
  {
    var e := db.outbox[k];
    && e.attempts <= MAX_ATTEMPTS
    && (e.status == EvFailed ==> e.attempts == MAX_ATTEMPTS)
    && (e.status == EvDelivered ==> e.due <= db.clock)
    && k in db.hist.passes && k in db.hist.retries
    && db.hist.passes[k] <= MAX_ATTEMPTS * db.hist.retries[k] + e.attempts
    && (k.topic.ChargeTopic? ==> k !in db.hist.erased && e.eventType == NewCharge)
    && (CurrentCharge(k) ==> HasRecord(db, k, e.created))
  }

  /** What retention deleted was older than a week, and so was its record. */
  ghost predicate ErasedInv(db: Db, k: EventKey)
    requires k in db.hist.erased
  {
    && k in db.hist.passes && k in db.hist.retries
    && (k.topic.ChargeTopic? ==> k !in db.outbox && db.hist.passes[k] <= MAX_ATTEMPTS * (db.hist.retries[k] + 1))
    && (CurrentCharge(k) ==> HasRecord(db, k, db.clock - 7 * DAY - 1))
  }

  /** A delivery hangs on an event and on a channel of the event's owner. Until someone retries
      by hand, it has been attempted no more often than its event, and, unless its event has
      failed for good, it is due no later than its event or already due. */
  ghost predicate SlotInv(db: Db, s: Slot)
    requires s in db.deliveries
  {
    && s.event in db.outbox
    && s.channel in db.channels && db.channels[s.channel].user == s.event.user
    && (Count(db.hist.retries, s.event) == 0 ==>
          var e, d := db.outbox[s.event], db.deliveries[s];
          && d.attempts <= e.attempts
          && (e.status == EvFailed || e.status == EvMerged || d.Success() || d.due <= e.due || d.due <= db.clock))
  }

  /** No charge is sent successfully to a channel twice: after the first time, the success is
      on record, or the channel is gone, or the event is. */
  ghost predicate WonInv(db: Db, s: Slot) {
    s.event.topic.ChargeTopic? ==>
      && db.hist.won[s] <= 1
      && (db.hist.won[s] > 0 ==> Won(Get(db.deliveries, s)) || s.channel in db.hist.retired || s.event in db.hist.erased)
  }

  ghost predicate WonInvAll(db: Db) {
    forall s: Slot :: WonInv(db, s)
  }

  /** The four facts `WonInv` depends on only change in ways that keep it. */
  lemma WonFrame(db: Db, db': Db)
    requires WonInvAll(db)
    requires db'.hist.won == db.hist.won
    requires db.hist.retired <= db'.hist.retired && db.hist.erased <= db'.hist.erased
    requires forall s :: s in db.deliveries && db.deliveries[s].Success() ==>
                           (s in db'.deliveries && db'.deliveries[s].Success())
                           || s.channel in db'.hist.retired || s.event in db'.hist.erased
    ensures WonInvAll(db')
  {
    forall s: Slot
      ensures WonInv(db', s)
    {
      assert WonInv(db, s);
    }
  }

  ghost predicate Inv(db: Db) {
    && (forall rs :: rs in db.records ==> RecordInv(db, rs))
    && (forall k :: k in db.outbox ==> EventInv(db, k))
    && (forall k :: k in db.hist.erased ==> ErasedInv(db, k))
    && (forall s :: s in db.deliveries ==> SlotInv(db, s))
    && WonInvAll(db)
    && db.hist.retired !! db.channels.Keys && db.hist.unbound !! db.accounts.Keys
  }

  lemma InvGivesAligned(db: Db)
    requires Inv(db)
    ensures Aligned(db.records)
  {
  }

  // ---------------------------------------------------------------- elementary changes

  /** Time passing. */
  lemma ClockKeepsInv(db: Db, t: Time)
    requires Inv(db) && db.clock <= t
    ensures Inv(db.(clock := t))
  {
    WonFrame(db, db.(clock := t));
  }

  /** An event that is not about a charge. */
  lemma EnqueueKeepsInv(db: Db, k: EventKey, t: EventType, p: Payload, at: Time)
    requires Inv(db) && db.clock <= at && !k.topic.ChargeTopic?
    ensures Inv(Enqueue(db, k, t, p, at))
  {
    if k in db.outbox {
      ClockKeepsInv(db, at);
    } else {
      var db' := Enqueue(db, k, t, p, at);
      WonFrame(db, db');
      hide WonInvAll;
      forall rs | rs in db'.records
        ensures RecordInv(db', rs)
      {
        assert RecordInv(db, rs);
      }
      hide RecordInv;
      forall j | j in db'.outbox
        ensures EventInv(db', j)
      {
        assert j != k ==> EventInv(db, j);
      }
      hide EventInv;
      forall s | s in db'.deliveries
        ensures SlotInv(db', s)
      {
        assert SlotInv(db, s);
      }
    }
  }

  /** Accounts may come, and change anything but their owner. */
  lemma AccountsKeepInv(db: Db, accounts: map<AccountId, Account>)
    requires Inv(db)
    requires forall a :: a in db.accounts ==> a in accounts && accounts[a].user == db.accounts[a].user
    requires forall a :: a in accounts ==> a in db.accounts || a !in db.hist.unbound
    ensures Inv(db.(accounts := accounts))
  {
    WonFrame(db, db.(accounts := accounts));
  }

  /** An account that goes takes its records along; what its events need them for is over. */
  lemma UnbindKeepsInv(db: Db, a: AccountId)
    requires Inv(db)
    ensures Inv(Unbind(db, a))
  {
    var db' := Unbind(db, a);
    WonFrame(db, db');
    hide WonInvAll;
    forall q | q in db'.records
      ensures RecordInv(db', q)
    {
      assert RecordInv(db, q);
    }
    hide RecordInv;
    forall k | k in db'.outbox
      ensures EventInv(db', k)
    {
      assert EventInv(db, k);
      UnbindKeepsRecord(db, a, k);
    }
    hide EventInv;
    forall k | k in db'.hist.erased
      ensures ErasedInv(db', k)
    {
      assert ErasedInv(db, k);
      UnbindKeepsRecord(db, a, k);
    }
    hide ErasedInv;
    forall s | s in db'.deliveries
      ensures SlotInv(db', s)
    {
      assert SlotInv(db, s);
    }
  }

  lemma UnbindKeepsRecord(db: Db, a: AccountId, k: EventKey)
    requires Inv(db)
    ensures k.topic.ChargeTopic? ==> forall t :: HasRecord(db, k, t) ==> HasRecord(Unbind(db, a), k, t)
  {
    if k.topic.ChargeTopic? && RecordOf(k) in db.records {
      assert RecordInv(db, RecordOf(k));
    }
  }

  /** Subscriptions are not part of the invariant. */
  lemma SubscriptionsKeepInv(db: Db, subs: map<SubKey, Subscription>)
    requires Inv(db)
    ensures Inv(SetSubscriptions(db, subs))
  {
    WonFrame(db, SetSubscriptions(db, subs));
  }

  lemma ChannelKeepsInv(db: Db, c: ChannelId, channel: Channel)
    requires Inv(db)
    requires if c in db.channels then channel.user == db.channels[c].user else c !in db.hist.retired
    ensures Inv(db.(channels := db.channels[c := channel]))
  {
    WonFrame(db, db.(channels := db.channels[c := channel]));
  }

  /** Deleting a channel retires it: its successes stay final. */
  lemma DeleteChannelKeepsInv(db: Db, c: ChannelId)
    requires Inv(db)
    ensures Inv(DeleteChannel(db, c))
  {
    var db' := DeleteChannel(db, c);
    WonFrame(db, db');
    forall s | s in db'.deliveries
      ensures SlotInv(db', s)
    {
      assert SlotInv(db, s);
    }
  }

  /** Retention erases what it deletes for good. */
  lemma CleanUpKeepsInv(db: Db, retentionDays: nat, now: Time)
    requires Inv(db) && db.clock <= now && 7 <= retentionDays
    ensures Inv(CleanUp(db, retentionDays, now))
  {
    var db' := CleanUp(db, retentionDays, now);
    WonFrame(db, db');
    forall s | s in db'.deliveries
      ensures SlotInv(db', s)
    {
      assert SlotInv(db, s);
    }
    forall k | k in db'.hist.erased
      ensures ErasedInv(db', k)
    {
      if k in db.hist.erased {
        assert ErasedInv(db, k);
      } else {
        assert EventInv(db, k);
      }
    }
    forall k | k in db'.outbox
      ensures EventInv(db', k)
    {
      assert EventInv(db, k);
    }
    forall rs | rs in db'.records
      ensures RecordInv(db', rs)
    {
      assert RecordInv(db, rs);
    }
  }

  /** A manual retry. */
  lemma RetryKeepsInv(db: Db, user: UserId, s: Slot, now: Time)
    requires Inv(db) && db.clock <= now
    ensures Inv(RetryDelivery(db, user, s, now))
  {
    if RetryCheck(db, user, s) == Queued {
      ResetKeepsInv(db, s, now);
    } else {
      ClockKeepsInv(db, now);
    }
  }

  lemma ResetKeepsInv(db: Db, s: Slot, now: Time)
    requires Inv(db) && db.clock <= now
    requires s in db.deliveries && s.event in db.outbox && !db.deliveries[s].Success()
    ensures Inv(ResetForRetry(db, s, now))
  {
    var db' := ResetForRetry(db, s, now);
    WonFrame(db, db');
    ResetKeepsEvents(db, s, now);
    ResetKeepsSlots(db, s, now);
    hide WonInvAll, ChargeKey, EventInv, ErasedInv, SlotInv;
    forall rs | rs in db'.records
      ensures RecordInv(db', rs)
    {
      assert RecordInv(db, rs);
    }
  }

  lemma ResetKeepsEvents(db: Db, s: Slot, now: Time)
    requires Inv(db) && db.clock <= now
    requires s in db.deliveries && s.event in db.outbox
    ensures forall k :: k in ResetForRetry(db, s, now).outbox ==> EventInv(ResetForRetry(db, s, now), k)
    ensures forall k :: k in ResetForRetry(db, s, now).hist.erased ==> ErasedInv(ResetForRetry(db, s, now), k)
  {
    hide WonInvAll, RecordInv, SlotInv;
    var db' := ResetForRetry(db, s, now);
    forall k | k in db'.outbox
      ensures EventInv(db', k)
    {
      assert EventInv(db, k) && EventInv(db, s.event);
    }
    forall k | k in db'.hist.erased
      ensures ErasedInv(db', k)
    {
      assert ErasedInv(db, k);
    }
  }

  lemma ResetKeepsSlots(db: Db, s: Slot, now: Time)
    requires Inv(db) && db.clock <= now
    requires s in db.deliveries && s.event in db.outbox
    ensures forall q :: q in ResetForRetry(db, s, now).deliveries ==> SlotInv(ResetForRetry(db, s, now), q)
  {
    hide WonInvAll, RecordInv, ErasedInv;
    var db' := ResetForRetry(db, s, now);
    assert EventInv(db, s.event) && SlotInv(db, s);
    hide EventInv;
    forall q | q in db'.deliveries
      ensures SlotInv(db', q)
    {
      assert SlotInv(db, q);
    }
  }

  // ---------------------------------------------------------------- a delivery pass

  /** What a pass does to the event it is for, with `t` the tally of its turns. */
  lemma SettleKeepsEventInv(db: Db, k: EventKey, t: Tally, endAt: Time)
    requires k in db.outbox && EventInv(db, k)
    requires Selectable(db.outbox[k], db.clock) && db.clock <= endAt
    ensures EventInv(Settle(db, k, t, endAt), k)
  {
    var e := db.outbox[k];
    assert Count(db.hist.passes, k) == db.hist.passes[k];
  }

  lemma DeliverKeepsEventInv(db: Db, k: EventKey, p: Pass)
    requires k in db.outbox && EventInv(db, k) && |p.rows| == |p.sends|
    requires Selectable(db.outbox[k], db.clock) && db.clock <= p.endAt
    ensures EventInv(Deliver(db, k, p), k)
  {
    hide TakeTurns;
    if p.rows != [] {
      SettleKeepsEventInv(db, k, TakeTurns(db.deliveries, k, p.rows, p.sends), p.endAt);
      hide Settle;
    }
  }

  /** What a pass leaves alone, and how it moves its event. */
  ghost predicate PassFrame(db: Db, db': Db, k: EventKey, endAt: Time, idle: bool)
    requires k in db.outbox
  {
    && db'.clock == endAt
    && db'.records == db.records && db'.accounts == db.accounts && db'.channels == db.channels && db'.subs == db.subs
    && db'.hist.retries == db.hist.retries && db'.hist.erased == db.hist.erased
    && db'.hist.retired == db.hist.retired && db'.hist.baseline == db.hist.baseline
    && db'.hist.unbound == db.hist.unbound
    && (k in db'.outbox && db'.outbox == db.outbox[k := db'.outbox[k]])
    && db'.outbox[k].attempts == (if idle then db.outbox[k].attempts else db.outbox[k].attempts + 1)
    && (db'.outbox[k].status == EvPending <==> idle)
    && db'.outbox[k].status != EvMerged
    && db'.outbox[k].due ==
       (if db'.outbox[k].status == EvRetry then endAt + Backoff(db'.outbox[k].attempts) else db.outbox[k].due)
  }

  lemma SettleFrame(db: Db, k: EventKey, t: Tally, endAt: Time)
    requires k in db.outbox
    ensures PassFrame(db, Settle(db, k, t, endAt), k, endAt, false)
  {
    hide Backoff;
  }

  lemma DeliverFrame(db: Db, k: EventKey, p: Pass)
    requires k in db.outbox && |p.rows| == |p.sends|
    ensures PassFrame(db, Deliver(db, k, p), k, p.endAt, p.rows == [])
  {
    hide TakeTurns, Backoff;
    if p.rows != [] {
      SettleFrame(db, k, TakeTurns(db.deliveries, k, p.rows, p.sends), p.endAt);
      hide Settle, PassFrame;
    }
  }

  /** An attempted row stays in step with its event: it is due again no later than the event. */
  lemma AttemptKeepsSlotInv(db: Db, db': Db, k: EventKey, endAt: Time, s: Slot, idle: bool, sent: bool, won: bool)
    requires s in db.deliveries ==> SlotInv(db, s)
    requires k in db.outbox && Selectable(db.outbox[k], db.clock) && db.clock <= endAt
    requires PassFrame(db, db', k, endAt, idle)
    requires s in db'.deliveries
    requires SlotStep(db, k, endAt, s, Get(db.deliveries, s), Get(db'.deliveries, s), sent, won)
    requires sent ==> !idle && (db'.outbox[k].status == EvDelivered ==> won)
    ensures SlotInv(db', s)
  {
    var d' := db'.deliveries[s];
    assert Get(db'.deliveries, s) == Some(d');
    if sent && d'.attempts <= db'.outbox[k].attempts {
      Pow2Monotone(d'.attempts, db'.outbox[k].attempts);
    }
  }

  lemma DeliverWonKeepsInv(db: Db, db': Db, k: EventKey, endAt: Time, r: set<Slot>, w: set<Slot>)
    requires WonInvAll(db) && db.hist.retired !! db.channels.Keys
    requires k in db.outbox && (k.topic.ChargeTopic? ==> k !in db.hist.erased)
    requires db'.hist.won == db.hist.won + multiset(w)
    requires db'.hist.retired == db.hist.retired && db'.hist.erased == db.hist.erased
    requires forall s: Slot :: SlotStep(db, k, endAt, s, Get(db.deliveries, s), Get(db'.deliveries, s), s in r, s in w)
    ensures WonInvAll(db')
  {
    forall s: Slot
      ensures WonInv(db', s)
    {
      assert WonInv(db, s);
      assert SlotStep(db, k, endAt, s, Get(db.deliveries, s), Get(db'.deliveries, s), s in r, s in w);
    }
  }

  /** A pass over a selectable event, targeted or not, keeps everything. */
  lemma DeliverKeepsInv(db: Db, k: EventKey, target: Option<ChannelId>, p: Pass)
    requires Inv(db) && k in db.outbox && PassOk(db, k, target, p) && Selectable(db.outbox[k], db.clock)
    ensures Inv(Deliver(db, k, p))
  {
    hide Deliver, Reached, WonNow, SlotStep, WonInvAll;
    var r, w := Reached(db.deliveries, k, p.rows, p.sends), WonNow(db.deliveries, k, p.rows, p.sends);
    var db' := Deliver(db, k, p);
    assert EventInv(db, k);
    DeliverSlots(db, k, target, p, r, w);
    DeliverFrame(db, k, p);
    DeliverKeepsEventInv(db, k, p);
    DeliverWonKeepsInv(db, db', k, p.endAt, r, w);
    if db'.outbox[k].status == EvDelivered {
      DeliveredMeansWon(db, k, target, p);
    }
    forall s | s in db'.deliveries
      ensures SlotInv(db', s)
    {
      AttemptKeepsSlotInv(db, db', k, p.endAt, s, p.rows == [], s in r, s in w);
    }
    DeliverKeepsRest(db, k, p);
  }

  lemma DeliverKeepsRest(db: Db, k: EventKey, p: Pass)
    requires Inv(db) && k in db.outbox && |p.rows| == |p.sends| && db.clock <= p.endAt
    requires EventInv(Deliver(db, k, p), k)
    ensures forall j :: j in Deliver(db, k, p).outbox ==> EventInv(Deliver(db, k, p), j)
    ensures forall j :: j in Deliver(db, k, p).hist.erased ==> ErasedInv(Deliver(db, k, p), j)
    ensures forall rs :: rs in Deliver(db, k, p).records ==> RecordInv(Deliver(db, k, p), rs)
  {
    DeliverFrame(db, k, p);
    DeliverParts(db, k, p);
    hide Deliver, TakeTurns, WonInvAll, SlotInv;
    PassKeepsRest(db, Deliver(db, k, p), k, p.endAt, p.rows == []);
  }

  lemma PassKeepsRest(db: Db, db': Db, k: EventKey, endAt: Time, idle: bool)
    requires Inv(db) && k in db.outbox && db.clock <= endAt && PassFrame(db, db', k, endAt, idle) && EventInv(db', k)
    requires forall j :: j != k ==> Get(db'.hist.passes, j) == Get(db.hist.passes, j)
    requires k in db'.hist.passes
    ensures forall j :: j in db'.outbox ==> EventInv(db', j)
    ensures forall j :: j in db'.hist.erased ==> ErasedInv(db', j)
    ensures forall rs :: rs in db'.records ==> RecordInv(db', rs)
  {
    hide WonInvAll, SlotInv;
    forall rs | rs in db'.records
      ensures RecordInv(db', rs)
    {
      assert RecordInv(db, rs);
    }
    hide RecordInv;
    forall j | j in db'.hist.erased
      ensures ErasedInv(db', j)
    {
      assert ErasedInv(db, j);
      assert j != k ==> Get(db'.hist.passes, j) == Get(db.hist.passes, j);
    }
    hide ErasedInv;
    forall j | j in db'.outbox
      ensures EventInv(db', j)
    {
      if j != k {
        assert EventInv(db, j);
        assert Get(db'.hist.passes, j) == Get(db.hist.passes, j);
      }
    }
  }

  // ---------------------------------------------------------------- one collected item

  /** A record seen again. */
  lemma EnrichKeepsInv(db: Db, r: ChargeRecord, at: Time)
    requires Inv(db) && db.clock <= at && SlotOf(r) in db.records
    ensures Inv(db.(clock := at, records := db.records[SlotOf(r) := Enrich(db.records[SlotOf(r)], r)]))
  {
    var rs := SlotOf(r);
    var was := db.records[rs];
    var now := Enrich(was, r);
    assert RecordInv(db, rs);
    assert now.account == was.account && now.user == was.user && now.eligible == was.eligible && now.created == was.created
           && now.eventId == was.eventId && now.recordKey == was.recordKey && now.chargedAt == was.chargedAt;
    hide Enrich;
    RecordUpdateKeepsInv(db, rs, now, at);
  }

  /** Changing a record in ways its event and eligibility do not depend on. */
  lemma RecordUpdateKeepsInv(db: Db, rs: RecordSlot, now: ChargeRecord, at: Time)
    requires Inv(db) && db.clock <= at && rs in db.records
    requires var was := db.records[rs];
             && now.account == was.account && now.user == was.user
             && now.eligible == was.eligible && now.created == was.created
             && now.eventId == was.eventId && now.recordKey == was.recordKey && now.chargedAt == was.chargedAt
    ensures Inv(db.(clock := at, records := db.records[rs := now]))
  {
    var db' := db.(clock := at, records := db.records[rs := now]);
    hide ChargeKey;
    WonFrame(db, db');
    hide WonInvAll;
    SameKey(now, db.records[rs]);
    forall q | q in db'.records
      ensures RecordInv(db', q)
    {
      assert RecordInv(db, q);
    }
    hide RecordInv;
    forall k | k in db'.outbox
      ensures EventInv(db', k)
    {
      assert EventInv(db, k);
    }
    hide EventInv;
    forall k | k in db'.hist.erased
      ensures ErasedInv(db', k)
    {
      assert ErasedInv(db, k);
    }
  }

  lemma SameKey(r: ChargeRecord, q: ChargeRecord)
    requires r.user == q.user && r.account == q.account && r.eventId == q.eventId
    ensures ChargeKey(r) == ChargeKey(q)
  {
  }

  /** The state after storing a new record, with its event if eligible. */
  function WithNewCharge(db: Db, rs: RecordSlot, r: ChargeRecord, k: EventKey, e: Event, prev: Option<Time>,
          at: Time): Db {
    db.(clock := at,
        records := db.records[rs := r],
        outbox := db.outbox[k := e],
        hist := db.hist.(
        baseline := db.hist.baseline[rs := prev],
        passes := db.hist.passes[k := 0],
        retries := db.hist.retries[k := 0]))
  }

  lemma NewRecordKeepsInv(db: Db, rs: RecordSlot, r: ChargeRecord, prev: Option<Time>, at: Time)
    requires Inv(db) && db.clock <= at && rs !in db.records
    requires rs == SlotOf(r) && BuiltFor(r, r.user, r.account)
    requires r.account in db.accounts && db.accounts[r.account].user == r.user
    requires !r.eligible && !Eligible(prev, r.chargedAt)
    ensures Inv(StoreRecord(db, rs, r, prev, at))
  {
    var db' := StoreRecord(db, rs, r, prev, at);
    WonFrame(db, db');
    hide WonInvAll;
    forall q | q in db'.records
      ensures RecordInv(db', q)
    {
      if q != rs {
        assert RecordInv(db, q);
      }
    }
    forall k | k in db'.outbox
      ensures EventInv(db', k)
    {
      assert EventInv(db, k);
    }
    forall k | k in db'.hist.erased
      ensures ErasedInv(db', k)
    {
      assert ErasedInv(db, k);
    }
  }

  /** No event exists, or ever existed, for a charge that is not stored. */
  lemma NewChargeHasNoEvent(db: Db, r: ChargeRecord)
    requires Inv(db) && r.eventId == r.recordKey && !r.recordKey.Legacy? && SlotOf(r) !in db.records
    requires r.account in db.accounts
    ensures ChargeKey(r) !in db.outbox && ChargeKey(r) !in db.hist.erased
  {
    var k := ChargeKey(r);
    assert CurrentCharge(k) && RecordOf(k) == SlotOf(r);
    assert k in db.outbox ==> EventInv(db, k);
    assert k in db.hist.erased ==> ErasedInv(db, k);
  }

  lemma NewEventKeepsInv(db: Db, rs: RecordSlot, r: ChargeRecord, k: EventKey, p: Payload, prev: Option<Time>, at: Time)
    requires Inv(db) && db.clock <= at && rs !in db.records
    requires rs == SlotOf(r) && BuiltFor(r, r.user, r.account) && r.created <= at
    requires r.account in db.accounts && db.accounts[r.account].user == r.user
    requires r.eligible && Eligible(prev, r.chargedAt) && k == ChargeKey(r)
    ensures Inv(WithNewCharge(db, rs, r, k, Event(NewCharge, p, EvPending, 0, at, at), prev, at))
  {
    var e := Event(NewCharge, p, EvPending, 0, at, at);
    var db' := WithNewCharge(db, rs, r, k, e, prev, at);
    NewChargeHasNoEvent(db, r);
    WonFrame(db, db');
    assert RecordOf(k) == rs;
    NewEventKeepsRecords(db, rs, r, k, e, prev, at);
    NewEventKeepsEvents(db, rs, r, k, e, prev, at);
    hide WonInvAll, RecordInv, EventInv, SlotInv;
    forall j | j in db'.hist.erased
      ensures ErasedInv(db', j)
    {
      assert ErasedInv(db, j);
    }
  }

  lemma NewEventKeepsRecords(db: Db, rs: RecordSlot, r: ChargeRecord, k: EventKey, e: Event, prev: Option<Time>,
          at: Time)
    requires Inv(db) && rs !in db.records && rs == SlotOf(r) && BuiltFor(r, r.user, r.account)
    requires r.account in db.accounts && db.accounts[r.account].user == r.user
    requires r.eligible && Eligible(prev, r.chargedAt) && k == ChargeKey(r)
    ensures var db' := WithNewCharge(db, rs, r, k, e, prev, at);
            forall q :: q in db'.records ==> RecordInv(db', q)
  {
    hide WonInvAll, ErasedInv, SlotInv, EventInv;
    var db' := WithNewCharge(db, rs, r, k, e, prev, at);
    forall q | q in db'.records
      ensures RecordInv(db', q)
    {
      if q != rs {
        assert RecordInv(db, q);
      }
    }
  }

  lemma NewEventKeepsEvents(db: Db, rs: RecordSlot, r: ChargeRecord, k: EventKey, e: Event, prev: Option<Time>,
          at: Time)
    requires Inv(db) && db.clock <= at && rs !in db.records && rs == SlotOf(r) && r.eligible && r.created <= at
    requires k == ChargeKey(r) && RecordOf(k) == rs && k !in db.outbox && k !in db.hist.erased
    requires e.eventType == NewCharge && e.status == EvPending && e.attempts == 0 && e.created == at && e.due == at
    ensures var db' := WithNewCharge(db, rs, r, k, e, prev, at);
            && (forall j :: j in db'.outbox ==> EventInv(db', j))
            && (forall s :: s in db'.deliveries ==> SlotInv(db', s))
  {
    hide WonInvAll, ErasedInv, RecordInv, ChargeKey;
    var db' := WithNewCharge(db, rs, r, k, e, prev, at);
    assert k.user == r.user by { KeyUser(r); }
    forall j | j in db'.outbox
      ensures EventInv(db', j)
    {
      if j != k {
        assert EventInv(db, j);
      }
    }
    hide EventInv;
    forall s | s in db'.deliveries
      ensures SlotInv(db', s)
    {
      assert SlotInv(db, s);
    }
  }

  lemma KeyUser(r: ChargeRecord)
    ensures ChargeKey(r).user == r.user && ChargeKey(r).topic.ChargeTopic?
  {
  }

  lemma StoreChargeShape(db: Db, r: ChargeRecord, prev: Option<Time>, a: Arrival)
    requires ChargeKey(r) !in db.outbox && Eligible(prev, r.chargedAt)
    ensures StoreCharge(db, r, prev, a) ==
            WithNewCharge(db, SlotOf(r), AsStored(r, prev, a), ChargeKey(r),
                    Event(NewCharge, NewChargePayload(r), EvPending, 0, a.queuedAt, a.queuedAt), prev, a.queuedAt)
  {
    hide ChargeKey, NewChargePayload, AsStored;
  }

  /** One collected item, whatever becomes of it. */
  lemma AbsorbKeepsInv(db: Db, r: ChargeRecord, prev: Option<Time>, a: Arrival)
    requires Inv(db) && db.clock <= a.queuedAt && a.storedAt <= a.queuedAt
    requires BuiltFor(r, r.user, r.account) && r.account in db.accounts && db.accounts[r.account].user == r.user
    ensures Inv(AbsorbDb(db, r, prev, a))
  {
    match FateOf(db, r)
    case Known =>
      EnrichKeepsInv(db, r, a.queuedAt);
    case Conflict =>
      ClockKeepsInv(db, a.queuedAt);
    case Fresh =>
      var stored := AsStored(r, prev, a);
      assert ChargeKey(stored) == ChargeKey(r) && SlotOf(stored) == SlotOf(r);
      if Eligible(prev, r.chargedAt) {
        NewChargeHasNoEvent(db, r);
        StoreChargeShape(db, r, prev, a);
        NewEventKeepsInv(db, SlotOf(r), stored, ChargeKey(r), NewChargePayload(r), prev, a.queuedAt);
      } else {
        NewRecordKeepsInv(db, SlotOf(r), stored, prev, a.queuedAt);
      }
  }

  // ---------------------------------------------------------------- one reconciled record

  /** An eligible record that retention has not outlived still has its event. */
  lemma RecentRecordHasEvent(db: Db, r: ChargeRecord, now: Time, lookbackHours: nat)
    requires Inv(db) && Stored(db, r) && r.eligible
    requires db.clock <= now && lookbackHours <= 168 && r.created >= now - lookbackHours * HOUR
    ensures ChargeKey(r) in db.outbox && ChargeKey(r) !in db.hist.erased
  {
    assert RecordInv(db, SlotOf(r));
    assert ChargeKey(r) in db.hist.erased ==> ErasedInv(db, ChargeKey(r));
  }

  lemma AttachKeepsSlotInv(db: Db, k: EventKey, rows: seq<ChannelId>, now: Time, s: Slot)
    requires k in db.outbox && EventInv(db, k) && now <= db.clock
    requires Elements(rows) == Matching(db, k.user, NewCharge)
    requires s in AttachDeliveries(db, k, rows, now).deliveries
    requires s in db.deliveries ==> SlotInv(db, s)
    ensures SlotInv(AttachDeliveries(db, k, rows, now), s)
  {
    EnsureDeliveriesEffect(db.deliveries, k, rows, now);
    hide EnsureDeliveries;
    if s !in db.deliveries {
      assert s.channel in Matching(db, k.user, NewCharge);
    }
  }

  lemma AttachKeepsSuccesses(db: Db, k: EventKey, rows: seq<ChannelId>, now: Time)
    requires k in db.outbox && WonInvAll(db)
    ensures WonInvAll(AttachDeliveries(db, k, rows, now))
  {
    EnsureDeliveriesEffect(db.deliveries, k, rows, now);
    hide EnsureDeliveries;
    WonFrame(db, AttachDeliveries(db, k, rows, now));
    hide WonInvAll;
  }

  /** Adding delivery rows for an event that exists, and requeueing it if it was delivered. */
  lemma AttachKeepsInv(db: Db, k: EventKey, rows: seq<ChannelId>, now: Time)
    requires Inv(db) && k in db.outbox && now <= db.clock
    requires Elements(rows) == Matching(db, k.user, NewCharge)
    requires db.outbox[k].status != EvFailed
    ensures Inv(AttachDeliveries(db, k, rows, now))
  {
    hide WonInvAll, EnsureDeliveries;
    var db' := AttachDeliveries(db, k, rows, now);
    AttachKeepsSuccesses(db, k, rows, now);
    forall s | s in db'.deliveries
      ensures SlotInv(db', s)
    {
      AttachKeepsSlotInv(db, k, rows, now, s);
    }
    forall j | j in db'.outbox
      ensures EventInv(db', j)
    {
      assert EventInv(db, j);
    }
    forall j | j in db'.hist.erased
      ensures ErasedInv(db', j)
    {
      assert ErasedInv(db, j);
    }
    forall rs | rs in db'.records
      ensures RecordInv(db', rs)
    {
      assert RecordInv(db, rs);
    }
  }

  lemma RepairKeepsInv(db: Db, k: EventKey, p: Payload, now: Time, rep: Repair)
    requires Inv(db) && k in db.outbox && now <= db.clock <= rep.at
    requires Elements(rep.rows) == Matching(db, k.user, NewCharge)
    ensures Inv(RepairEvent(db, k, p, now, rep))
    ensures RepairEvent(db, k, p, now, rep).outbox.Keys == db.outbox.Keys
    ensures RepairEvent(db, k, p, now, rep).hist == db.hist
  {
    var db1 := db.(clock := rep.at);
    ClockKeepsInv(db, rep.at);
    assert Matching(db1, k.user, NewCharge) == Matching(db, k.user, NewCharge);
    if db.outbox[k].status != EvFailed {
      AttachKeepsInv(db1, k, rep.rows, now);
    }
    hide Inv, EnsureDeliveries;
  }
}
