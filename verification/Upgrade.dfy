/** A database that the canonical-key migration has just upgraded meets the pipeline's invariant. */
module Upgrade {
  import opened Common
  import opened Charges
  import opened Pipeline
  import opened DeliveryPass
  import opened Collection
  import opened Feed
  import opened Invariants
  import opened Migration

  /** The delivery tables are as the delivery service leaves them, whatever release made the events. */
  ghost predicate DeliveriesInStep(db: Db) {
    && (forall k :: k in db.outbox ==>
                      var e := db.outbox[k];
                      && e.attempts <= MAX_ATTEMPTS && (e.status == EvFailed ==> e.attempts == MAX_ATTEMPTS)
                      && (e.status == EvDelivered ==> e.due <= db.clock)
                      && (k.topic.ChargeTopic? ==> e.eventType == NewCharge))
    && (forall s :: s in db.deliveries ==> SlotInv(db, s))
  }

  /** No history yet, except that the successes on record have happened, and any manual retries. */
  ghost predicate HistoryBegins(db: Db) {
    && (forall k :: k in db.outbox ==> Get(db.hist.passes, k) == Some(0) && k in db.hist.retries)
    && db.hist.erased == {} && db.hist.retired == {} && db.hist.unbound == {}
    && db.hist.won == multiset(set s | s in db.deliveries && db.deliveries[s].Success())
  }

  /** Event identifiers were computed otherwise before the migration, and records had their account. */
  ghost predicate MadeEarlier(db: Db, rs: Records, os: Outboxes) {
    && (forall id :: id in rs ==>
                       && rs[id].eventId.Legacy?
                       && rs[id].account in db.accounts && db.accounts[rs[id].account].user == rs[id].user)
    && (forall id :: id in os && os[id].key.topic.ChargeTopic? ==> os[id].key.topic.eventId.Legacy?)
  }

  /** The records of `db` are those the migration makes of `rs`. */
  ghost predicate RecordsFrom(db: Db, rs: Records, order: seq<nat>)
    requires forall i :: i in order <==> i in rs
  {
    && (forall q :: q in db.records ==>
                      && q == SlotOf(db.records[q])
                      && exists a :: a in MergedRecords(rs, order) && db.records[q] == MergedRecords(rs, order)[a])
    && (forall a :: a in MergedRecords(rs, order) ==> SlotOf(MergedRecords(rs, order)[a]) in db.records)
  }

  /** The events of `db` are those the migration makes of `os`. */
  ghost predicate EventsFrom(db: Db, rs: Records, os: Outboxes, order: seq<nat>)
    requires KeysDistinct(os) && forall i :: i in order <==> i in rs
  {
    && (forall k :: k in db.outbox ==> exists id :: id in os && MergedOutbox(rs, os, order)[id].key == k
                                                    && MergedOutbox(rs, os, order)[id].status == db.outbox[k].status)
    && (forall id :: id in os ==> MergedOutbox(rs, os, order)[id].key in db.outbox)
  }

  ghost predicate UpgradedFrom(db: Db, rs: Records, os: Outboxes, order: seq<nat>) {
    && Upgradable(rs, os, order)
    && MadeEarlier(db, rs, os) && RecordsFrom(db, rs, order) && EventsFrom(db, rs, os, order)
    && DeliveriesInStep(db) && HistoryBegins(db)
  }

  /** Every event about a charge still has an identifier of an earlier release. */
  lemma KeysStayLegacy(rs: Records, os: Outboxes, order: seq<nat>, id: nat)
    requires Upgradable(rs, os, order) && id in os
    requires forall i :: i in rs ==> rs[i].eventId.Legacy?
    requires os[id].key.topic.ChargeTopic? ==> os[id].key.topic.eventId.Legacy?
    ensures MergedOutbox(rs, os, order).Keys == os.Keys
    ensures !CurrentCharge(MergedOutbox(rs, os, order)[id].key)
  {
    RowAfter(rs, os, order, id);
    hide MergedOutbox, Peers, Members;
    if Owner(rs, os[id].key).Some? {
      FirstOfPeers(rs, order, Owner(rs, os[id].key).value);
    }
  }

  lemma UpgradedRecord(db: Db, rs: Records, os: Outboxes, order: seq<nat>, q: RecordSlot)
    requires UpgradedFrom(db, rs, os, order) && q in db.records
    ensures RecordInv(db, q)
  {
    hide MergedRecords, MergedOutbox, MigrationKey, DeliveriesInStep, HistoryBegins;
    var a :| a in MergedRecords(rs, order) && db.records[q] == MergedRecords(rs, order)[a];
    RecordAfter(rs, order, a);
    SurvivorIdentity(rs, order, a);
    KeyIsCurrent(db.records[q]);
    SurvivorIs(rs, order, a);
  }

  lemma KeyIsCurrent(r: ChargeRecord)
    ensures !MigrationKey(r).Legacy?
  {
  }

  lemma SurvivorIs(rs: Records, order: seq<nat>, a: nat)
    requires QueryOrder(rs, order) && a in MergedRecords(rs, order)
    ensures a in rs
    ensures MergedRecords(rs, order)[a].eventId == rs[a].eventId
    ensures MergedRecords(rs, order)[a].user == rs[a].user && MergedRecords(rs, order)[a].account == rs[a].account
  {
    SurvivorIdentity(rs, order, a);
  }

  lemma UpgradedEvent(db: Db, rs: Records, os: Outboxes, order: seq<nat>, k: EventKey)
    requires UpgradedFrom(db, rs, os, order) && k in db.outbox
    ensures !CurrentCharge(k)
  {
    hide MergedRecords, SlotInv, CurrentCharge, DeliveriesInStep, HistoryBegins;
    var id :| id in os && MergedOutbox(rs, os, order)[id].key == k
              && MergedOutbox(rs, os, order)[id].status == db.outbox[k].status;
    hide MergedOutbox;
    KeysStayLegacy(rs, os, order, id);
  }

  lemma EventsBegin(db: Db, k: EventKey)
    requires DeliveriesInStep(db) && HistoryBegins(db) && k in db.outbox && !CurrentCharge(k)
    ensures EventInv(db, k)
  {
    hide SlotInv;
  }

  lemma SuccessesBegin(db: Db)
    requires HistoryBegins(db)
    ensures WonInvAll(db)
  {
    forall s: Slot
      ensures WonInv(db, s)
    {
    }
  }

  /** So every promise made of runs that begin with the invariant holds of upgraded installations. */
  lemma UpgradedInv(db: Db, rs: Records, os: Outboxes, order: seq<nat>)
    requires UpgradedFrom(db, rs, os, order)
    ensures Inv(db)
  {
    assert DeliveriesInStep(db) && HistoryBegins(db) && db.hist.erased == {} && db.hist.retired == {} && db.hist.unbound == {};
    SuccessesBegin(db);
    hide UpgradedFrom, SlotInv, RecordInv, EventInv, WonInvAll, HistoryBegins;
    forall q | q in db.records
      ensures RecordInv(db, q)
    {
      UpgradedRecord(db, rs, os, order, q);
    }
    forall k | k in db.outbox
      ensures EventInv(db, k)
    {
      UpgradedEvent(db, rs, os, order, k);
      EventsBegin(db, k);
    }
  }
}
