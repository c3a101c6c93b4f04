/** What is done for one user leaves what belongs to the others alone. */
module Tenants {
  import opened Common
  import opened Charges
  import opened Pipeline
  import opened DeliveryPass
  import opened Reconciliation
  import opened Collection
  import opened Invariants
  import opened Machine
  import opened Stalls
  import opened MergedSends
  import opened SubscriptionRules

  /** A pass over the outbox, a reconciliation or a manual retry that a user asked for. */
  predicate AskedBy(step: Step, user: UserId) {
    match step
    case Processing(scope, _, _, _) => scope == Some(user)
    case Reconciling(scope, _, _, _) => scope == Some(user)
    case Retrying(u, _, _) => u == user
    case _ => false
  }

  /** No event of another user is made, changed or sent. */
  lemma OthersAreLeft(cfg: Settings, db: Db, step: Step, user: UserId, k: EventKey)
    requires Possible(cfg, db, step) && AskedBy(step, user) && k.user != user
    ensures Untouched(db, Next(cfg, db, step), k) && SentUnchanged(db, Next(cfg, db, step), k)
  {
    hide DeliverAll, ReconcileAll, Untouched, PassesOk, RepairsTimely, SentUnchanged;
    match step
    case Processing(scope, now, batch, passes) =>
      var db1 := db.(clock := now);
      PassesAreAligned(db1, batch, passes);
      BatchLeavesEvent(db1, batch, passes, k);
      ClockAside(db, now, Next(cfg, db, step), k);
      BatchSendsNone(db, now, batch, passes, k);
    case Reconciling(scope, now, records, reps) =>
      var db1 := db.(clock := now);
      OwnRecords(cfg, db, user, now, records, k);
      ReconcileLeaves(db1, records, now, reps, k);
      ClockAside(db, now, Next(cfg, db, step), k);
      RepairsSendNone(db, now, records, reps, k);
    case Retrying(u, slot, now) =>
      if slot.event.user == user {
        RetryLeaves(db, user, slot, now, k);
      } else {
        assert RetryCheck(db, user, slot) == NotFound;
        NothingTouched(db, db.(clock := now), k);
      }
      RetrySendsNone(db, user, slot, now, k);
  }

  lemma BatchSendsNone(db: Db, now: Time, batch: seq<EventKey>, passes: seq<Pass>, k: EventKey)
    requires PassesOk(db.(clock := now), batch, passes) && k !in batch
    requires forall i :: 0 <= i < |passes| ==> |passes[i].rows| == |passes[i].sends|
    ensures SentUnchanged(db, DeliverAll(db.(clock := now), batch, passes), k)
  {
    hide DeliverAll;
    forall s: Slot | s.event == k
      ensures DeliverAll(db.(clock := now), batch, passes).hist.sent[s] == db.hist.sent[s]
    {
      BatchLeaves(db.(clock := now), batch, passes, s);
    }
  }

  lemma RepairsSendNone(db: Db, now: Time, records: seq<ChargeRecord>, reps: seq<Repair>, k: EventKey)
    requires RepairsOk(db.(clock := now), records, reps)
    ensures SentUnchanged(db, ReconcileAll(db.(clock := now), records, now, reps), k)
  {
    RunRepairs(db.(clock := now), records, now, reps);
    hide ReconcileAll;
  }

  lemma RetrySendsNone(db: Db, user: UserId, slot: Slot, now: Time, k: EventKey)
    ensures SentUnchanged(db, RetryDelivery(db, user, slot, now), k)
  {
  }

  lemma OwnRecords(cfg: Settings, db: Db, user: UserId, now: Time, records: seq<ChargeRecord>, k: EventKey)
    requires Scanned(db, Some(user), now - cfg.lookbackHours * HOUR, cfg.maxRecords, records) && k.user != user
    ensures forall i :: 0 <= i < |records| ==> ChargeKey(records[i]) != k
  {
    forall i | 0 <= i < |records|
      ensures ChargeKey(records[i]) != k
    {
      assert records[i] in records;
    }
  }

  // ---------------------------------------------------------------- what a user asks for is what is sent

  /** After a user's rules have been replaced, a pass over an event of the user has turns for exactly the
      channels the rules ask for that are switched on. */
  lemma RequestedIsDelivered(db: Db, subs: Subs, rules: seq<Rule>, k: EventKey, p: Pass)
    requires OwnedRows(db.subs, db.channels) && OnlyOwn(rules, OwnChannels(db.channels, k.user))
    requires Replaced(db.subs, subs, db.channels, k.user, rules)
    requires k in db.outbox && PassOk(SetSubscriptions(db, subs), k, None, p)
    ensures forall c :: c in p.rows <==>
                        && Requested(rules, SubKey(c, db.outbox[k].eventType))
                        && c in db.channels && db.channels[c].enabled
  {
    var db', t := SetSubscriptions(db, subs), db.outbox[k].eventType;
    forall c
      ensures c in p.rows <==> Requested(rules, SubKey(c, t)) && c in db.channels && db.channels[c].enabled
    {
      assert c in p.rows <==> c in Elements(p.rows);
      MatchesIsListed(db', k.user, t, c);
      hide Matches, Listed;
      ListedOne(db.subs, subs, db.channels, k.user, rules, SubKey(c, t));
    }
  }

  lemma MatchesIsListed(db: Db, user: UserId, t: EventType, c: ChannelId)
    ensures Matches(db, user, t, c) <==>
            Listed(db.subs, db.channels, user, SubKey(c, t)) && c in db.channels && db.channels[c].enabled
  {
  }

  lemma ListedOne(before: Subs, after: Subs, channels: Channels, user: UserId, rules: seq<Rule>, k: SubKey)
    requires OwnedRows(before, channels) && OnlyOwn(rules, OwnChannels(channels, user))
    requires Replaced(before, after, channels, user, rules)
    ensures Listed(after, channels, user, k) <==> Requested(rules, k)
  {
    if Requested(rules, k) {
      RequestedOwn(rules, OwnChannels(channels, user), k);
    }
  }
}
