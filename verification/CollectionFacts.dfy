/** The accounting of a collection run, its idempotence, and its limits. */
module CollectionFacts {
  import opened Common
  import opened Charges
  import opened ChargeIdentity
  import opened Pipeline
  import opened Collection
  import opened Feed

  // ---------------------------------------------------------------- accounting

  /** Every event of the current release about a charge of the account has its record stored. */
  ghost predicate Backed(db: Db, account: AccountId) {
    forall k :: k in db.outbox && k.topic.ChargeTopic? && k.topic.account == account && !k.topic.eventId.Legacy? ==>
                  RecordSlot(k.topic.account, k.topic.eventId) in db.records
  }

  lemma AbsorbOutbox(db: Db, r: ChargeRecord, prev: Option<Time>, a: Arrival)
    ensures AbsorbDb(db, r, prev, a).outbox.Keys ==
            if FateOf(db, r) == Fresh && Eligible(prev, r.chargedAt) then db.outbox.Keys + {ChargeKey(r)} else db.outbox.Keys
  {
    if FateOf(db, r) == Fresh && Eligible(prev, r.chargedAt) {
      var db1 := StoreRecord(db, SlotOf(r), AsStored(r, prev, a), prev, a.queuedAt);
      var k, p := ChargeKey(r), NewChargePayload(r);
      EnqueueAddsKey(db1, k, NewCharge, p, a.queuedAt);
    }
  }

  lemma EnqueueAddsKey(db: Db, k: EventKey, t: EventType, p: Payload, at: Time)
    ensures Enqueue(db, k, t, p, at).outbox.Keys == db.outbox.Keys + {k}
  {
    if k in db.outbox {
    } else {
    }
  }

  /** One item: it is inserted or a duplicate, and an event appears exactly when it is inserted
      and not suppressed. */
  lemma AbsorbCounts(p: Progress, r: ChargeRecord, prev: Option<Time>, a: Arrival)
    requires Backed(p.db, r.account) && r.eventId == r.recordKey && !r.recordKey.Legacy?
    ensures var p' := Absorb(p, r, prev, a);
            && Backed(p'.db, r.account)
            && p'.seen - p.seen == (p'.inserted - p.inserted) + (p'.duplicates - p.duplicates) == 1
            && |p'.db.records| - |p.db.records| == p'.inserted - p.inserted
            && |p'.db.outbox| - |p.db.outbox| == (p'.inserted - p.inserted) - (p'.suppressed - p.suppressed)
  {
    hide AbsorbDb, Eligible, Backed, FateOf, ChargeKey;
    AbsorbBacked(p.db, r, prev, a);
    AbsorbSizes(p.db, r, prev, a);
  }

  lemma AbsorbBacked(db: Db, r: ChargeRecord, prev: Option<Time>, a: Arrival)
    requires Backed(db, r.account) && r.eventId == r.recordKey && !r.recordKey.Legacy?
    ensures Backed(AbsorbDb(db, r, prev, a), r.account)
  {
    hide AbsorbDb, Eligible;
    AbsorbOnlyCollects(db, r, prev, a);
    AbsorbOutbox(db, r, prev, a);
    hide OnlyCollects, FateOf;
    assert ChargeKey(r).topic == ChargeTopic(r.account, r.recordKey);
    hide ChargeKey;
  }

  lemma AbsorbSizes(db: Db, r: ChargeRecord, prev: Option<Time>, a: Arrival)
    requires Backed(db, r.account) && r.eventId == r.recordKey && !r.recordKey.Legacy?
    ensures var db' := AbsorbDb(db, r, prev, a); var isNew := FateOf(db, r) == Fresh;
            && |db'.records| - |db.records| == (if isNew then 1 else 0)
            && |db'.outbox| - |db.outbox| == (if isNew && Eligible(prev, r.chargedAt) then 1 else 0)
  {
    hide AbsorbDb, Eligible;
    var db' := AbsorbDb(db, r, prev, a);
    AbsorbOnlyCollects(db, r, prev, a);
    AbsorbOutbox(db, r, prev, a);
    hide OnlyCollects;
    assert |db'.outbox| == |db'.outbox.Keys| && |db.outbox| == |db.outbox.Keys|;
    assert |db'.records| == |db'.records.Keys| && |db.records| == |db.records.Keys|;
    assert ChargeKey(r).topic == ChargeTopic(r.account, r.recordKey);
    hide ChargeKey;
    match FateOf(db, r)
    case Known => assert db'.records.Keys == db.records.Keys;
    case Conflict =>
    case Fresh => assert ChargeKey(r) !in db.outbox;
  }

  /** The counters of a run are the sizes of what it did; the item a run raised on is seen and counts
      as nothing else. */
  ghost predicate Balanced(p: Progress, p0: Progress, raised: bool) {
    && p.seen - p0.seen == (p.inserted - p0.inserted) + (p.duplicates - p0.duplicates) + (if raised then 1 else 0)
    && |p.db.records| - |p0.db.records| == p.inserted - p0.inserted
    && |p.db.outbox| - |p0.db.outbox| == (p.inserted - p0.inserted) - (p.suppressed - p0.suppressed)
  }

  /** The items that parse make records of the account as the collector does. */
  ghost predicate Current(items: seq<Arrival>, account: AccountId) {
    forall j :: 0 <= j < |items| && items[j].built.Some? ==>
                  BuiltFor(items[j].built.value, items[j].built.value.user, account)
  }

  lemma {:induction false} ScanCounts(p: Progress, prev: Option<Time>, items: seq<Arrival>, account: AccountId)
    requires Backed(p.db, account) && Current(items, account)
    ensures Backed(ScanItems(p, prev, items).p.db, account)
    ensures Balanced(ScanItems(p, prev, items).p, p, ScanItems(p, prev, items).raised)
  {
    if items != [] {
      var n := |items| - 1;
      ScanCounts(p, prev, items[..n], account);
      var s := ScanItems(p, prev, items[..n]);
      if !s.raised && items[n].built.Some? {
        ScanSnoc(p, prev, items);
        hide ScanItems, Absorb;
        AbsorbCounts(s.p, items[n].built.value, prev, items[n]);
      } else {
        hide Absorb, Backed;
      }
    }
  }

  lemma ScanSnoc(p: Progress, prev: Option<Time>, items: seq<Arrival>)
    requires items != [] && !ScanItems(p, prev, items[..|items| - 1]).raised && items[|items| - 1].built.Some?
    ensures ScanItems(p, prev, items).p ==
            Absorb(ScanItems(p, prev, items[..|items| - 1]).p, items[|items| - 1].built.value, prev, items[|items| - 1])
    ensures !ScanItems(p, prev, items).raised
  {
    hide Absorb;
  }

  ghost predicate PagesCurrent(fetches: seq<Fetch>, account: AccountId) {
    forall i :: 0 <= i < |fetches| && fetches[i].Page? ==> Current(fetches[i].items, account)
  }

  /** A run ended on an item that does not parse. */
  ghost predicate RaisedOnItem(db: Db, prev: Option<Time>, fetches: seq<Fetch>) {
    && fetches != []
    && var n := |fetches| - 1;
       var run := TakePages(db, prev, fetches[..n]);
       if run.phase == Going then fetches[n].Page? && ScanItems(run.p, prev, fetches[n].items).raised
       else RaisedOnItem(db, prev, fetches[..n])
  }

  lemma {:induction false} RaisedFails(db: Db, prev: Option<Time>, fetches: seq<Fetch>)
    requires RaisedOnItem(db, prev, fetches)
    ensures TakePages(db, prev, fetches).phase == Failed(false)
  {
    var n := |fetches| - 1;
    if TakePages(db, prev, fetches[..n]).phase == Going {
      TakePagesSnoc(db, prev, fetches);
      hide TakePages, ScanItems;
    } else {
      RaisedFails(db, prev, fetches[..n]);
    }
  }

  /** Over a whole run, however it ends: seen = inserted + duplicates, and one more if it raised on an
      item; new records = inserted; new events = inserted - suppressed. */
  lemma {:induction false} RunCounts(db: Db, prev: Option<Time>, fetches: seq<Fetch>, account: AccountId)
    requires Backed(db, account) && PagesCurrent(fetches, account)
    ensures Backed(TakePages(db, prev, fetches).p.db, account)
    ensures Balanced(TakePages(db, prev, fetches).p, Start(db, prev).p, RaisedOnItem(db, prev, fetches))
  {
    if fetches != [] {
      var n := |fetches| - 1;
      RunCounts(db, prev, fetches[..n], account);
      var run := TakePages(db, prev, fetches[..n]);
      if run.phase == Going {
        NotRaisedYet(db, prev, fetches);
        TakePagesSnoc(db, prev, fetches);
        assert fetches[n].Page? ==> Current(fetches[n].items, account);
        hide TakePages, Start, RaisedOnItem, PagesCurrent;
        if fetches[n].Page? {
          PageProgress(run, prev, fetches[n]);
          ScanCounts(run.p, prev, fetches[n].items, account);
          hide ScanItems, TakePage, Current;
          BalancedTwice(TakePage(run, prev, fetches[n]).p, run.p, Start(db, prev).p,
                        ScanItems(run.p, prev, fetches[n].items).raised);
        }
      }
    }
  }

  lemma NotRaisedYet(db: Db, prev: Option<Time>, fetches: seq<Fetch>)
    requires fetches != [] && TakePages(db, prev, fetches[..|fetches| - 1]).phase == Going
    ensures !RaisedOnItem(db, prev, fetches[..|fetches| - 1])
    ensures var n := |fetches| - 1;
            RaisedOnItem(db, prev, fetches) <==>
            fetches[n].Page? && ScanItems(TakePages(db, prev, fetches[..n]).p, prev, fetches[n].items).raised
  {
    if RaisedOnItem(db, prev, fetches[..|fetches| - 1]) {
      RaisedFails(db, prev, fetches[..|fetches| - 1]);
    }
  }

  lemma PageProgress(run: Run, prev: Option<Time>, f: Fetch)
    requires f.Page?
    ensures TakePage(run, prev, f).p == ScanItems(run.p, prev, f.items).p
  {
    hide ScanItems, KnownPage;
  }

  lemma BalancedTwice(p: Progress, mid: Progress, p0: Progress, raised: bool)
    requires Balanced(mid, p0, false) && Balanced(p, mid, raised)
    ensures Balanced(p, p0, raised)
  {
  }

  /** Some page of the run, and some item of it, shows a time. */
  ghost predicate Shown(fetches: seq<Fetch>, t: Time) {
    exists i, j :: 0 <= i < |fetches| && fetches[i].Page? && 0 <= j < |fetches[i].items|
                   && fetches[i].items[j].built.Some? && fetches[i].items[j].built.value.chargedAt == t
  }

  /** No item of a page is newer than a time. */
  ghost predicate NotAfter(f: Fetch, newest: Option<Time>) {
    f.Page? ==>
      forall j :: 0 <= j < |f.items| && f.items[j].built.Some? ==>
                    newest.Some? && f.items[j].built.value.chargedAt <= newest.value
  }

  predicate AtLeast(a: Option<Time>, b: Option<Time>) {
    b.Some? ==> a.Some? && b.value <= a.value
  }

  lemma {:induction false} NewestOfPage(start: Option<Time>, items: seq<Arrival>, more: bool)
    requires Parsed(items)
    ensures AtLeast(NewestOf(start, items), start) && NotAfter(Page(items, more), NewestOf(start, items))
    ensures NewestOf(start, items) == start
            || exists j :: 0 <= j < |items| && NewestOf(start, items) == Some(items[j].built.value.chargedAt)
  {
    if items != [] {
      var n := |items| - 1;
      NewestOfPage(start, items[..n], more);
      var before := NewestOf(start, items[..n]);
      forall j | 0 <= j < |items|
        ensures NewestOf(start, items).Some? && items[j].built.value.chargedAt <= NewestOf(start, items).value
      {
        if j < n {
          assert Page(items[..n], more).items[j] == items[j];
        }
      }
      if j :| 0 <= j < n && before == Some(items[..n][j].built.value.chargedAt) {
        assert items[j] == items[..n][j];
      }
      assert items[n] == items[|items| - 1];
    }
  }

  /** The run's newest time is the latest of the watermark it began with and of all times on the
      pages it read, and one of them. */
  ghost predicate LatestSeen(run: Run, prev: Option<Time>, fetches: seq<Fetch>) {
    && run.pages <= |fetches|
    && AtLeast(run.p.newest, prev)
    && (forall i :: 0 <= i < run.pages ==> NotAfter(fetches[i], run.p.newest))
    && (run.p.newest == prev || (run.p.newest.Some? && Shown(fetches, run.p.newest.value)))
  }

  lemma {:induction false} NotRaisedParses(p: Progress, prev: Option<Time>, items: seq<Arrival>)
    requires !ScanItems(p, prev, items).raised
    ensures Parsed(items)
  {
    hide Absorb;
    if items != [] {
      NotRaisedParses(p, prev, items[..|items| - 1]);
      assert items == items[..|items| - 1] + [items[|items| - 1]];
    }
  }

  /** The watermark a run leaves is the latest of the one it began with and all times on the pages
      it read. */
  lemma {:induction false} NewestIsMaximum(db: Db, prev: Option<Time>, fetches: seq<Fetch>)
    requires !RaisedOnItem(db, prev, fetches)
    ensures LatestSeen(TakePages(db, prev, fetches), prev, fetches)
    ensures TakePages(db, prev, fetches).phase == Going ==> TakePages(db, prev, fetches).pages == |fetches|
  {
    if fetches != [] {
      var n := |fetches| - 1;
      var run := TakePages(db, prev, fetches[..n]);
      if run.phase == Going {
        NotRaisedYet(db, prev, fetches);
      }
      NewestIsMaximum(db, prev, fetches[..n]);
      LatestGrows(run, prev, fetches);
      if run.phase == Going {
        TakePagesSnoc(db, prev, fetches);
        hide TakePages, LatestSeen, RaisedOnItem;
        if fetches[n].Page? {
          NotRaisedParses(run.p, prev, fetches[n].items);
          hide ScanItems;
          PageKeepsLatest(run, prev, fetches);
        } else {
          FailureKeepsLatest(run, prev, fetches);
        }
      }
    }
  }

  lemma LatestGrows(run: Run, prev: Option<Time>, fetches: seq<Fetch>)
    requires fetches != [] && LatestSeen(run, prev, fetches[..|fetches| - 1])
    ensures LatestSeen(run, prev, fetches)
  {
    ShownSnoc(fetches);
    hide Shown, NotAfter, AtLeast;
    forall i | 0 <= i < run.pages
      ensures NotAfter(fetches[i], run.p.newest)
    {
      assert fetches[..|fetches| - 1][i] == fetches[i];
    }
  }

  lemma FailureKeepsLatest(run: Run, prev: Option<Time>, fetches: seq<Fetch>)
    requires fetches != [] && LatestSeen(run, prev, fetches) && !fetches[|fetches| - 1].Page?
    ensures LatestSeen(TakePage(run, prev, fetches[|fetches| - 1]), prev, fetches)
    ensures TakePage(run, prev, fetches[|fetches| - 1]).phase != Going
  {
    var run' := TakePage(run, prev, fetches[|fetches| - 1]);
    assert run' == run.(phase := run'.phase) && run'.phase.Failed? by {
      match fetches[|fetches| - 1]
      case RequestFailed =>
      case AuthExpired =>
    }
    hide TakePage, Shown, NotAfter, AtLeast;
  }

  lemma PageNewest(run: Run, prev: Option<Time>, fetches: seq<Fetch>)
    requires fetches != [] && run.pages == |fetches| - 1
    requires fetches[|fetches| - 1].Page? && Parsed(fetches[|fetches| - 1].items)
    ensures var f := fetches[|fetches| - 1]; var run' := TakePage(run, prev, f);
            && run'.pages == |fetches| && run'.p.newest == NewestOf(run.p.newest, f.items)
            && AtLeast(run'.p.newest, run.p.newest)
            && (run'.p.newest == run.p.newest || (run'.p.newest.Some? && Shown(fetches, run'.p.newest.value)))
  {
    var n := |fetches| - 1;
    var f := fetches[n];
    ScanTimes(run.p, prev, f.items);
    hide TakePage, ScanItems, Shown, KnownPage, NewestOf, NotAfter;
    TakePageFields(run, prev, f);
    PageCounted(run, prev, f);
    NewestOfPage(run.p.newest, f.items, f.hasMore);
    if j :| 0 <= j < |f.items| && NewestOf(run.p.newest, f.items) == Some(f.items[j].built.value.chargedAt) {
      ShownAt(fetches, n, j);
    }
  }

  lemma AtLeastTwice(a: Option<Time>, b: Option<Time>, c: Option<Time>)
    requires AtLeast(a, b) && AtLeast(b, c)
    ensures AtLeast(a, c)
  {
  }

  lemma PageKeepsLatest(run: Run, prev: Option<Time>, fetches: seq<Fetch>)
    requires fetches != [] && LatestSeen(run, prev, fetches) && run.pages == |fetches| - 1
    requires fetches[|fetches| - 1].Page? && Parsed(fetches[|fetches| - 1].items)
    ensures LatestSeen(TakePage(run, prev, fetches[|fetches| - 1]), prev, fetches)
    ensures TakePage(run, prev, fetches[|fetches| - 1]).pages == |fetches|
  {
    var n := |fetches| - 1;
    var f := fetches[n];
    var newest := NewestOf(run.p.newest, f.items);
    PageNewest(run, prev, fetches);
    NewestOfPage(run.p.newest, f.items, f.hasMore);
    hide TakePage, NewestOf, Parsed, Shown, AtLeast;
    forall i | 0 <= i <= n
      ensures NotAfter(fetches[i], newest)
    {
      if i < n {
        LaterStill(fetches[i], run.p.newest, newest);
      } else {
        assert f == Page(f.items, f.hasMore);
      }
    }
    AtLeastTwice(newest, run.p.newest, prev);
    hide NotAfter;
  }

  lemma LaterStill(f: Fetch, a: Option<Time>, b: Option<Time>)
    requires NotAfter(f, a) && AtLeast(b, a)
    ensures NotAfter(f, b)
  {
  }

  lemma ShownSnoc(fetches: seq<Fetch>)
    requires fetches != []
    ensures forall t :: Shown(fetches[..|fetches| - 1], t) ==> Shown(fetches, t)
  {
    forall t | Shown(fetches[..|fetches| - 1], t)
      ensures Shown(fetches, t)
    {
      var front := fetches[..|fetches| - 1];
      var i, j :| 0 <= i < |front| && front[i].Page? && 0 <= j < |front[i].items|
                  && front[i].items[j].built.Some? && front[i].items[j].built.value.chargedAt == t;
      ShownAt(fetches, i, j);
    }
  }

  lemma ShownAt(fetches: seq<Fetch>, i: nat, j: nat)
    requires i < |fetches| && fetches[i].Page? && j < |fetches[i].items| && fetches[i].items[j].built.Some?
    ensures Shown(fetches, fetches[i].items[j].built.value.chargedAt)
  {
  }

  lemma PageCounted(run: Run, prev: Option<Time>, f: Fetch)
    requires f.Page?
    ensures TakePage(run, prev, f).pages == run.pages + 1
  {
    hide ScanItems, KnownPage;
  }

  /** A charge not seen before is stored in any case and announced exactly when it is strictly
      newer than the watermark: one that ties with the watermark's second is kept silent. */
  lemma AnnouncedIffNewer(db: Db, r: ChargeRecord, w: Time, a: Arrival)
    requires FateOf(db, r) == Fresh && ChargeKey(r) !in db.outbox
    ensures Kept(AbsorbDb(db, r, Some(w), a), r)
    ensures AbsorbDb(db, r, Some(w), a).records[SlotOf(r)].eligible <==> r.chargedAt > w
    ensures ChargeKey(r) in AbsorbDb(db, r, Some(w), a).outbox <==> r.chargedAt > w
  {
    AbsorbOutbox(db, r, Some(w), a);
    AbsorbRecords(db, r, Some(w), a);
    hide AbsorbDb, FateOf;
  }

  /** The event of a new charge tells what the charge was: no one else's supporter, time or sum. */
  lemma AnnouncedAsCharged(db: Db, r: ChargeRecord, w: Time, a: Arrival)
    requires FateOf(db, r) == Fresh && ChargeKey(r) !in db.outbox && r.chargedAt > w
    ensures var after := AbsorbDb(db, r, Some(w), a);
            && ChargeKey(r) in after.outbox && SlotOf(r) in after.records
            && var row, e := after.records[SlotOf(r)], after.outbox[ChargeKey(r)];
               && e.eventType == NewCharge && e.status == EvPending && e.attempts == 0
               && e.due == e.created == a.queuedAt
               && row == r.(eligible := true, created := a.storedAt)
               && e.payload.ChargePayload? && e.payload.amount == row.amount && e.payload.brokerage == row.brokerage
               && e.payload.supporter == row.supporterName && e.payload.chargedAt == row.chargedAt
  {
    var db1 := StoreRecord(db, SlotOf(r), AsStored(r, Some(w), a), Some(w), a.queuedAt);
    hide ChargeKey;
    EnqueueNew(db1, ChargeKey(r), NewCharge, NewChargePayload(r), a.queuedAt);
    hide Enqueue, FateOf;
  }

  lemma EnqueueNew(db: Db, k: EventKey, t: EventType, p: Payload, at: Time)
    requires k !in db.outbox
    ensures Enqueue(db, k, t, p, at).outbox == db.outbox[k := Event(t, p, EvPending, 0, at, at)]
    ensures Enqueue(db, k, t, p, at).records == db.records
  {
  }

  // ---------------------------------------------------------------- different charges

  ghost predicate PageStored(db: Db, f: Fetch) {
    f.Page? && forall j :: 0 <= j < |f.items| ==> f.items[j].built.Some? && Kept(db, f.items[j].built.value)
  }

  /** Everything on the pages a run has read is stored. */
  ghost predicate ReadStored(run: Run, fetches: seq<Fetch>) {
    && Aligned(run.p.db.records) && run.pages <= |fetches|
    && (forall i :: 0 <= i < run.pages ==> PageStored(run.p.db, fetches[i]))
  }

  lemma ReadPage(run: Run, prev: Option<Time>, f: Fetch, account: AccountId)
    requires Aligned(run.p.db.records) && (f.Page? ==> Current(f.items, account))
    requires !TakePage(run, prev, f).phase.Failed?
    ensures f.Page? && PageStored(TakePage(run, prev, f).p.db, f) && TakePage(run, prev, f).pages == run.pages + 1
    ensures Aligned(TakePage(run, prev, f).p.db.records)
    ensures run.p.db.records.Keys <= TakePage(run, prev, f).p.db.records.Keys
  {
    NotFailed(run, prev, f);
    hide TakePage, ScanItems, Aligned, KnownPage, SlotsOf;
    PageCounted(run, prev, f);
    TakePageFields(run, prev, f);
    NotRaisedParses(run.p, prev, f.items);
    assert AllBuilt(f.items);
    ScanStores(run.p, prev, f.items);
    ItemSlots(f.items);
  }

  lemma NotFailed(run: Run, prev: Option<Time>, f: Fetch)
    requires !TakePage(run, prev, f).phase.Failed?
    ensures f.Page? && !ScanItems(run.p, prev, f.items).raised
  {
    hide ScanItems;
  }

  lemma ItemSlots(items: seq<Arrival>)
    requires AllBuilt(items)
    ensures forall j :: 0 <= j < |items| ==> SlotOf(items[j].built.value) in SlotsOf(items)
  {
  }

  lemma StaysStored(run: Run, run': Run, fetches: seq<Fetch>)
    requires fetches != [] && ReadStored(run, fetches[..|fetches| - 1])
    requires run.p.db.records.Keys <= run'.p.db.records.Keys
    ensures forall i :: 0 <= i < run.pages ==> PageStored(run'.p.db, fetches[i])
  {
    forall i | 0 <= i < run.pages
      ensures PageStored(run'.p.db, fetches[i])
    {
      assert fetches[..|fetches| - 1][i] == fetches[i] && PageStored(run.p.db, fetches[i]);
    }
  }

  lemma {:induction false} ReadIsStored(db: Db, prev: Option<Time>, fetches: seq<Fetch>, account: AccountId)
    requires Aligned(db.records) && PagesCurrent(fetches, account)
    ensures var run := TakePages(db, prev, fetches);
            !run.phase.Failed? ==> ReadStored(run, fetches) && (run.phase == Going ==> run.pages == |fetches|)
  {
    hide Aligned, Current;
    if fetches != [] {
      var n := |fetches| - 1;
      ReadIsStored(db, prev, fetches[..n], account);
      var run, run' := TakePages(db, prev, fetches[..n]), TakePages(db, prev, fetches);
      if !run'.phase.Failed? {
        if run.phase == Going {
          TakePagesSnoc(db, prev, fetches);
          hide TakePages, TakePage, PageStored;
          ReadPage(run, prev, fetches[n], account);
        }
        hide PageStored;
        StaysStored(run, run', fetches);
      }
    }
  }

  /** An item on a page that a run has read, and the record built of it. */
  ghost predicate ReadAt(run: Run, fetches: seq<Fetch>, i: nat, j: nat, user: UserId, account: AccountId, item: Item) {
    && item.Parses() && i < run.pages <= |fetches| && fetches[i].Page? && j < |fetches[i].items|
    && fetches[i].items[j].built == BuildChargeRecord(user, account, item)
  }

  /** Two charges that their items tell apart are both stored by a run that reads them and does not
      fail, under two keys; if both are new, the records grow by two. */
  lemma DifferentChargesAreStored(db: Db, prev: Option<Time>, fetches: seq<Fetch>, user: UserId, account: AccountId,
                                  i1: nat, j1: nat, item1: Item, i2: nat, j2: nat, item2: Item)
    requires Aligned(db.records) && PagesCurrent(fetches, account)
    requires var run := TakePages(db, prev, fetches);
             && !run.phase.Failed? && !SameCharge(item1, item2)
             && ReadAt(run, fetches, i1, j1, user, account, item1) && ReadAt(run, fetches, i2, j2, user, account, item2)
    ensures var after := TakePages(db, prev, fetches).p.db;
            var r1, r2 := BuildChargeRecord(user, account, item1).value, BuildChargeRecord(user, account, item2).value;
            && SlotOf(r1) != SlotOf(r2) && Kept(after, r1) && Kept(after, r2)
            && (!Kept(db, r1) && !Kept(db, r2) ==> |after.records| >= |db.records| + 2)
  {
    hide Aligned, SameCharge, StableRecordKey;
    ReadIsStored(db, prev, fetches, account);
    var run := TakePages(db, prev, fetches);
    assert PageStored(run.p.db, fetches[i1]) && PageStored(run.p.db, fetches[i2]);
    SameKeyIff(account, item1, account, item2);
    PagesOnlyCollect(db, prev, fetches);
    hide TakePages, PagesCurrent;
    var r1, r2 := BuildChargeRecord(user, account, item1).value, BuildChargeRecord(user, account, item2).value;
    assert Kept(run.p.db, r1) && Kept(run.p.db, r2);
    if !Kept(db, r1) && !Kept(db, r2) {
      TwoMore(db.records.Keys, run.p.db.records.Keys, SlotOf(r1), SlotOf(r2));
      assert |run.p.db.records| == |run.p.db.records.Keys| && |db.records| == |db.records.Keys|;
    }
  }

  lemma TwoMore(a: set<RecordSlot>, b: set<RecordSlot>, x: RecordSlot, y: RecordSlot)
    requires a <= b && x in b && y in b && x !in a && y !in a && x != y
    ensures |b| >= |a| + 2
  {
    assert b == a + {x, y} + (b - a - {x, y});
    assert |a + {x, y}| == |a| + 2;
  }

  // ---------------------------------------------------------------- collecting again

  /** Items whose records are all stored are duplicates: nothing is inserted, no event appears
      and the set of records does not change. */
  lemma {:induction false} ReplayIsIdle(p: Progress, prev: Option<Time>, items: seq<Arrival>)
    requires AllBuilt(items)
    requires forall j :: 0 <= j < |items| ==> Kept(p.db, items[j].built.value)
    ensures ScanItems(p, prev, items).p.inserted == p.inserted
    ensures ScanItems(p, prev, items).p.db.outbox == p.db.outbox
    ensures ScanItems(p, prev, items).p.db.records.Keys == p.db.records.Keys
  {
    if items != [] {
      var n := |items| - 1;
      ScanTimes(p, prev, items[..n]);
      ReplayIsIdle(p, prev, items[..n]);
      ScanSnoc(p, prev, items);
      var r := items[n].built.value;
      var db1 := ScanItems(p, prev, items[..n]).p.db;
      hide ScanItems;
      assert Kept(p.db, r);
      assert FateOf(db1, r) == Known;
    }
  }

  // ---------------------------------------------------------------- stopping early

  /** A page of charges that are stored and no newer than a time. */
  ghost predicate AllKnown(db: Db, f: Fetch, w: Time) {
    f.Page? && f.items != []
    && forall j :: 0 <= j < |f.items| ==>
                     f.items[j].built.Some? && Kept(db, f.items[j].built.value) && f.items[j].built.value.chargedAt <= w
  }

  lemma {:induction false} KnownScan(p: Progress, prev: Option<Time>, items: seq<Arrival>, w: Time)
    requires forall j :: 0 <= j < |items| ==>
                           items[j].built.Some? && Kept(p.db, items[j].built.value)
                           && items[j].built.value.chargedAt <= w
    ensures var s := ScanItems(p, prev, items);
            && !s.raised && s.pageInserted == 0 && |s.times| == |items| && (items != [] ==> MaxOf(s.times) <= w)
            && s.p.db.records.Keys == p.db.records.Keys && s.p.inserted == p.inserted
            && (p.newest.Some? && w <= p.newest.value ==> s.p.newest == p.newest)
  {
    hide Absorb, MaxOf;
    if items != [] {
      var n := |items| - 1;
      KnownScan(p, prev, items[..n], w);
      var s, s' := ScanItems(p, prev, items[..n]), ScanItems(p, prev, items);
      var r := items[n].built.value;
      KnownAbsorb(s.p, r, prev, items[n]);
      MaxOfSnoc(s.times, r.chargedAt);
    }
  }

  lemma KnownAbsorb(p: Progress, r: ChargeRecord, prev: Option<Time>, a: Arrival)
    requires Kept(p.db, r)
    ensures Absorb(p, r, prev, a).inserted == p.inserted
    ensures Absorb(p, r, prev, a).db.records.Keys == p.db.records.Keys
    ensures Absorb(p, r, prev, a).newest == Some(MaxTime(p.newest, r.chargedAt))
  {
    AbsorbRecords(p.db, r, prev, a);
    assert FateOf(p.db, r) == Known;
    hide AbsorbDb, Enrich;
  }

  lemma MaxOfSnoc(times: seq<Time>, t: Time)
    ensures MaxOf(times + [t]) == if times == [] then t else MaxTime(Some(MaxOf(times)), t)
  {
    assert (times + [t])[..|times|] == times;
  }

  /** A known page counts as one, and leaves what is stored. */
  lemma KnownPageCounts(run: Run, prev: Option<Time>, f: Fetch)
    requires prev.Some? && AllKnown(run.p.db, f, prev.value)
    ensures var run' := TakePage(run, prev, f);
            && run'.known == run.known + 1 && run'.pages == run.pages + 1
            && run'.p.db.records.Keys == run.p.db.records.Keys && run'.p.inserted == run.p.inserted
            && (run.p.newest.Some? && prev.value <= run.p.newest.value ==> run'.p.newest == run.p.newest)
            && run'.phase == if !f.hasMore || run.known >= 1 then Broke else Going
  {
    KnownScan(run.p, prev, f.items, prev.value);
    hide ScanItems, MaxOf;
  }

  /** The loop ends at the second of two known pages in a row, whatever more there is. */
  lemma KnownPagesStop(db: Db, prev: Option<Time>, fetches: seq<Fetch>)
    requires |fetches| >= 2 && prev.Some?
    requires var n := |fetches| - 2; var run := TakePages(db, prev, fetches[..n]);
             && run.phase == Going
             && AllKnown(run.p.db, fetches[n], prev.value) && AllKnown(run.p.db, fetches[n + 1], prev.value)
    ensures TakePages(db, prev, fetches).phase == Broke
    ensures TakePages(db, prev, fetches).pages <= TakePages(db, prev, fetches[..|fetches| - 2]).pages + 2
  {
    var n := |fetches| - 2;
    var run := TakePages(db, prev, fetches[..n]);
    assert fetches[..n + 1][..n] == fetches[..n];
    TakePagesSnoc(db, prev, fetches[..n + 1]);
    KnownPageCounts(run, prev, fetches[n]);
    var next := TakePages(db, prev, fetches[..n + 1]);
    if next.phase == Going {
      TakePagesSnoc(db, prev, fetches);
      hide TakePage, TakePages;
      assert AllKnown(next.p.db, fetches[n + 1], prev.value);
      KnownPageCounts(next, prev, fetches[n + 1]);
    }
  }

  /** So a run that finds nothing new, on any number of pages, reads at most two of them. */
  lemma QuietRunStops(db: Db, prev: Option<Time>, fetches: seq<Fetch>)
    requires prev.Some? && |fetches| >= 2
    requires forall i :: 0 <= i < |fetches| ==> AllKnown(db, fetches[i], prev.value)
    ensures TakePages(db, prev, fetches).phase == Broke && TakePages(db, prev, fetches).pages <= 2
    ensures TakePages(db, prev, fetches).p.newest == prev && TakePages(db, prev, fetches).p.inserted == 0
  {
    assert fetches[..2][..0] == [] && Start(db, prev).p.db == db;
    KnownPagesStop(db, prev, fetches[..2]);
    StoppedStays(db, prev, fetches, 2);
    QuietCounts(db, prev, fetches);
  }

  lemma KeptKnown(db: Db, db': Db, f: Fetch, w: Time)
    requires AllKnown(db, f, w) && db'.records.Keys == db.records.Keys
    ensures AllKnown(db', f, w)
  {
  }

  lemma {:induction false} QuietCounts(db: Db, prev: Option<Time>, fetches: seq<Fetch>)
    requires prev.Some? && forall i :: 0 <= i < |fetches| ==> AllKnown(db, fetches[i], prev.value)
    ensures var run := TakePages(db, prev, fetches);
            !run.phase.Failed? && run.p.newest == prev && run.p.inserted == 0 && run.p.db.records.Keys == db.records.Keys
  {
    hide TakePage, AllKnown;
    if fetches != [] {
      var n := |fetches| - 1;
      QuietCounts(db, prev, fetches[..n]);
      var run := TakePages(db, prev, fetches[..n]);
      if run.phase == Going {
        KeptKnown(db, run.p.db, fetches[n], prev.value);
        KnownPageCounts(run, prev, fetches[n]);
      }
    }
  }

  lemma {:induction false} StoppedStays(db: Db, prev: Option<Time>, fetches: seq<Fetch>, n: nat)
    requires n <= |fetches| && TakePages(db, prev, fetches[..n]).phase != Going
    ensures TakePages(db, prev, fetches) == TakePages(db, prev, fetches[..n])
  {
    if n < |fetches| {
      var m := |fetches| - 1;
      assert fetches[..m][..n] == fetches[..n];
      StoppedStays(db, prev, fetches[..m], n);
    } else {
      assert fetches[..n] == fetches;
    }
  }

  // ---------------------------------------------------------------- the end of a run

  /** What a failed run leaves: an event that tells its owner, and a second one if the login has expired,
      which takes the account out of service; the watermark stays. A run that did not fail moves the
      watermark, notes the time, and tells nothing of a failure. */
  lemma EndIsTold(run: Run, account: AccountId, runId: nat, endAt: Time)
    requires account in run.p.db.accounts
    ensures var before, after := run.p.db, Conclude(run, account, runId, endAt);
            var acc := before.accounts[account];
            var failed, expired := EventKey(acc.user, RunTopic(runId)), EventKey(acc.user, CookieTopic(account));
            && account in after.accounts && after.clock == endAt
            && (run.phase.Failed? ==>
                  && failed in after.outbox && (run.phase.auth ==> expired in after.outbox)
                  && after.outbox.Keys == before.outbox.Keys + {failed} + (if run.phase.auth then {expired} else {})
                  && (failed !in before.outbox ==> after.outbox[failed].eventType == CollectionFailed)
                  && (run.phase.auth && expired !in before.outbox ==> after.outbox[expired].eventType == CookieExpired)
                  && after.accounts[account] == acc.(active := acc.active && !run.phase.auth))
            && (!run.phase.Failed? ==>
                  && after.outbox == before.outbox
                  && after.accounts[account] == acc.(watermark := run.p.newest, lastChecked := Some(endAt)))
  {
    if run.phase.Failed? {
      var acc := run.p.db.accounts[account];
      var failed, expired := EventKey(acc.user, RunTopic(runId)), EventKey(acc.user, CookieTopic(account));
      var db0 := run.p.db.(accounts := run.p.db.accounts[account := Suspended(acc, run.phase.auth)]);
      var db1 := if run.phase.auth then Enqueue(db0, expired, CookieExpired, Details("account"), endAt) else db0;
      Announced(db0, expired, CookieExpired, endAt);
      Announced(db1, failed, CollectionFailed, endAt);
      hide Enqueue;
    }
  }

  lemma Announced(db: Db, k: EventKey, t: EventType, at: Time)
    ensures var after := Enqueue(db, k, t, Details("account"), at);
            && k in after.outbox && after.outbox.Keys == db.outbox.Keys + {k} && after.accounts == db.accounts
            && after.clock == at && (k !in db.outbox ==> after.outbox[k].eventType == t)
            && (forall j :: j in db.outbox ==> after.outbox[j] == db.outbox[j])
  {
    if k in db.outbox {
    } else {
    }
  }

  // ---------------------------------------------------------------- a long feed

  /** Fetches of a run from a feed that does not change meanwhile, nothing of it lost so far. */
  ghost predicate SteadyRun(db: Db, prev: Option<Time>, fetches: seq<Fetch>, feed: seq<ChargeRecord>, user: UserId,
                            account: AccountId) {
    && Aligned(db.records) && FeedOk(feed, user, account, |feed|) && Caught(db, prev, feed, |feed|)
    && |fetches| == MAX_PAGES
    && (forall i :: 0 <= i < |fetches| ==> Served(fetches[i], feed, |feed|, i))
    && (forall i, j :: 0 <= i < j < |feed| ==> SlotOf(feed[i]) != SlotOf(feed[j]))
  }

  /** A row is one there was, or of a charge of the feed not below `bottom`. */
  ghost predicate OldOrFrom(db: Db, rs: RecordSlot, feed: seq<ChargeRecord>, bottom: int) {
    rs in db.records || exists i :: 0 <= i < |feed| && bottom <= i && rs == SlotOf(feed[i])
  }

  /** A page's rows are of charges of its window. */
  lemma PageSlots(f: Fetch, feed: seq<ChargeRecord>, page: nat, rs: RecordSlot)
    requires f.Page? && Served(f, feed, |feed|, page) && AllBuilt(f.items) && rs in SlotsOf(f.items)
    ensures exists i :: 0 <= i < |feed| && Top(|feed|, page + 1) <= i && rs == SlotOf(feed[i])
  {
    var j :| 0 <= j < |f.items| && rs == SlotOf(f.items[j].built.value);
    var i := Top(|feed|, page) - 1 - j;
    assert f.items[j].built == Some(feed[i]);
    assert 0 <= i < |feed| && Top(|feed|, page + 1) <= i;
  }

  /** One page adds no others. */
  lemma PageStoresNoMore(db: Db, run: Run, prev: Option<Time>, f: Fetch, feed: seq<ChargeRecord>, user: UserId,
                         account: AccountId, page: nat)
    requires run.phase == Going && Aligned(run.p.db.records) && FeedOk(feed, user, account, |feed|)
    requires Served(f, feed, |feed|, page)
    requires forall rs :: rs in run.p.db.records ==> OldOrFrom(db, rs, feed, Top(|feed|, page))
    ensures Aligned(TakePage(run, prev, f).p.db.records) && !TakePage(run, prev, f).phase.Failed?
    ensures forall rs :: rs in TakePage(run, prev, f).p.db.records ==> OldOrFrom(db, rs, feed, Top(|feed|, page + 1))
  {
    ServedAllBuilt(f, feed, user, account, |feed|, page);
    ScanTimes(run.p, prev, f.items);
    TakePageFields(run, prev, f);
    ScanStores(run.p, prev, f.items);
    hide TakePage, ScanItems, Served, Aligned, FeedOk, SlotOf, SlotsOf;
    var after := TakePage(run, prev, f).p.db.records;
    forall rs | rs in after
      ensures OldOrFrom(db, rs, feed, Top(|feed|, page + 1))
    {
      if rs in run.p.db.records {
        assert OldOrFrom(db, rs, feed, Top(|feed|, page));
      } else {
        PageSlots(f, feed, page, rs);
      }
    }
  }

  /** No more is stored than the windows fetched. */
  lemma {:induction false} StoresNoMore(db: Db, prev: Option<Time>, fetches: seq<Fetch>, feed: seq<ChargeRecord>,
                                        user: UserId, account: AccountId)
    requires Aligned(db.records) && FeedOk(feed, user, account, |feed|)
    requires forall i :: 0 <= i < |fetches| ==> Served(fetches[i], feed, |feed|, i)
    ensures Aligned(TakePages(db, prev, fetches).p.db.records)
    ensures !TakePages(db, prev, fetches).phase.Failed?
    ensures forall rs :: rs in TakePages(db, prev, fetches).p.db.records ==>
                           OldOrFrom(db, rs, feed, Top(|feed|, |fetches|))
  {
    hide Served, FeedOk, Aligned, TakePage;
    if fetches != [] {
      var n := |fetches| - 1;
      StoresNoMore(db, prev, fetches[..n], feed, user, account);
      var run := TakePages(db, prev, fetches[..n]);
      if run.phase == Going {
        TakePagesSnoc(db, prev, fetches);
        hide OldOrFrom, TakePages;
        PageStoresNoMore(db, run, prev, fetches[n], feed, user, account, n);
      } else {
        forall rs | rs in run.p.db.records
          ensures OldOrFrom(db, rs, feed, Top(|feed|, |fetches|))
        {
          assert OldOrFrom(db, rs, feed, Top(|feed|, n));
        }
      }
    }
  }

  /** Where such a run ends, and what it has stored by then. */
  lemma SteadySweeps(db: Db, prev: Option<Time>, fetches: seq<Fetch>, feed: seq<ChargeRecord>, user: UserId,
                     account: AccountId) returns (pages: nat)
    requires Aligned(db.records) && FeedOk(feed, user, account, |feed|) && |fetches| == MAX_PAGES
    requires forall i :: 0 <= i < |fetches| ==> Served(fetches[i], feed, |feed|, i)
    ensures 0 < pages <= 100 && (TakePages(db, prev, fetches).phase == Going ==> pages == 100)
    ensures Swept(TakePages(db, prev, fetches), prev, feed, Top(|feed|, pages), |feed|)
  {
    hide TakePages, TakePage, Swept;
    var n := |feed|;
    pages := 100;
    assert fetches[..pages] == fetches;
    StoresNoMore(db, prev, fetches, feed, user, account);
    if TakePages(db, prev, fetches).phase == Going {
      GoingSoFar(db, prev, fetches);
    } else {
      pages := StopsAt(db, prev, fetches);
    }
    var front, lens := fetches[..pages], seq(pages, i => n);
    assert front[..pages - 1] == fetches[..pages - 1];
    LoopSweeps(db, user, account, prev, front, feed, n, lens);
    ReachBounds(n, n, lens);
  }

  /** What was not stored before and is not among the last 5000 is out of reach. */
  lemma OutOfReach(db: Db, prev: Option<Time>, fetches: seq<Fetch>, feed: seq<ChargeRecord>, user: UserId,
                   account: AccountId, i: nat)
    requires SteadyRun(db, prev, fetches, feed, user, account) && i + 5000 < |feed|
    ensures Kept(TakePages(db, prev, fetches).p.db, feed[i]) ==> Kept(db, feed[i])
  {
    hide TakePages, Served, FeedOk, Aligned;
    StoresNoMore(db, prev, fetches, feed, user, account);
    assert Top(|feed|, |fetches|) > i;
    if Kept(TakePages(db, prev, fetches).p.db, feed[i]) {
      assert OldOrFrom(db, SlotOf(feed[i]), feed, Top(|feed|, |fetches|));
    }
  }

  /** With all but the last 5000 stored before, everything is stored, wherever the loop ends. */
  lemma AllStored(db: Db, prev: Option<Time>, fetches: seq<Fetch>, feed: seq<ChargeRecord>, user: UserId,
                  account: AccountId, pages: nat)
    requires SteadyRun(db, prev, fetches, feed, user, account)
    requires forall i :: 0 <= i < |feed| - 5000 ==> Kept(db, feed[i])
    requires 0 < pages <= 100 && (TakePages(db, prev, fetches).phase == Going ==> pages == 100)
    requires Swept(TakePages(db, prev, fetches), prev, feed, Top(|feed|, pages), |feed|)
    ensures forall i :: 0 <= i < |feed| ==> Kept(TakePages(db, prev, fetches).p.db, feed[i])
  {
    hide TakePages, Served;
    PagesOnlyCollect(db, prev, fetches);
    var run := TakePages(db, prev, fetches);
    var bottom := Top(|feed|, pages);
    forall i | 0 <= i < |feed|
      ensures Kept(run.p.db, feed[i])
    {
      if i < bottom {
        if run.phase == Going {
          assert bottom <= |feed| - 5000;
        } else {
          assert feed[i].chargedAt <= feed[bottom].chargedAt <= prev.value;
        }
        assert Kept(db, feed[i]);
      }
    }
  }

  /** A run over an unchanging feed does not fail, and is complete exactly when every charge but the
      last hundred pages of fifty was stored before. Otherwise the loop still ends without an error,
      the watermark moves to the newest charge, and the charges out of reach stay unstored below it. */
  lemma CompleteIff(db: Db, prev: Option<Time>, fetches: seq<Fetch>, feed: seq<ChargeRecord>, user: UserId,
                    account: AccountId)
    requires SteadyRun(db, prev, fetches, feed, user, account)
    ensures !TakePages(db, prev, fetches).phase.Failed?
    ensures feed != [] ==> TakePages(db, prev, fetches).p.newest == Some(feed[|feed| - 1].chargedAt)
    ensures var run := TakePages(db, prev, fetches);
            Caught(run.p.db, run.p.newest, feed, |feed|) <==> forall i :: 0 <= i < |feed| - 5000 ==> Kept(db, feed[i])
  {
    hide TakePages, TakePage, Served;
    var run := TakePages(db, prev, fetches);
    var pages := SteadySweeps(db, prev, fetches, feed, user, account);
    if forall i :: 0 <= i < |feed| - 5000 ==> Kept(db, feed[i]) {
      AllStored(db, prev, fetches, feed, user, account, pages);
      ReachIsCaught(run.p.db, prev, feed, |feed|, |feed|);
    } else {
      var i :| 0 <= i < |feed| - 5000 && !Kept(db, feed[i]);
      OutOfReach(db, prev, fetches, feed, user, account, i);
      assert feed[i].chargedAt <= feed[|feed| - 1].chargedAt;
    }
  }

  /** Where exactly the last `m` charges are newer than the watermark and none of those is stored yet,
      that is when `m` is at most 5000. */
  lemma NewChargesCompleteIff(db: Db, prev: Option<Time>, fetches: seq<Fetch>, feed: seq<ChargeRecord>, user: UserId,
                              account: AccountId, m: nat)
    requires SteadyRun(db, prev, fetches, feed, user, account) && m <= |feed|
    requires forall i :: 0 <= i < |feed| - m ==> prev.Some? && feed[i].chargedAt <= prev.value
    requires forall i :: |feed| - m <= i < |feed| ==> !Kept(db, feed[i])
    ensures var run := TakePages(db, prev, fetches); Caught(run.p.db, run.p.newest, feed, |feed|) <==> m <= 5000
  {
    hide TakePages, Served, FeedOk, Aligned;
    CompleteIff(db, prev, fetches, feed, user, account);
    if m > 5000 {
      assert !Kept(db, feed[|feed| - m]);
    } else {
      assert forall i :: 0 <= i < |feed| - 5000 ==> feed[i].chargedAt <= prev.value;
    }
  }

  /** In particular a first run, which begins without a watermark and finds none of the feed stored,
      is complete exactly when the feed has at most 5000 charges. */
  lemma FirstRunCompleteIff(db: Db, fetches: seq<Fetch>, feed: seq<ChargeRecord>, user: UserId, account: AccountId)
    requires SteadyRun(db, None, fetches, feed, user, account)
    requires forall i :: 0 <= i < |feed| ==> !Kept(db, feed[i])
    ensures var run := TakePages(db, None, fetches); Caught(run.p.db, run.p.newest, feed, |feed|) <==> |feed| <= 5000
  {
    hide *;
    NewChargesCompleteIff(db, None, fetches, feed, user, account, |feed|);
  }
}
