/**
 Nothing is lost by stopping early. The upstream feed is seen oldest first, so that it only
 grows at its end; page `p` (from zero) of a feed of length `n` is then the window of fifty
 charges ending `p * 50` before the end, read backwards.
 */
module Feed {
  import opened Common
  import opened Charges
  import opened Pipeline
  import opened Collection

  function SlotOf(r: ChargeRecord): RecordSlot {
    RecordSlot(r.account, r.recordKey)
  }

  predicate Kept(db: Db, r: ChargeRecord) {
    SlotOf(r) in db.records
  }

  /** The feed as the records the collector builds from its items. Times never decrease; past
      `start`, they strictly increase. */
  ghost predicate FeedOk(feed: seq<ChargeRecord>, user: UserId, account: AccountId, start: nat) {
    && (forall i :: 0 <= i < |feed| ==> BuiltFor(feed[i], user, account))
    && (forall i, j :: 0 <= i < j < |feed| ==> feed[i].chargedAt <= feed[j].chargedAt)
    && (forall i, j :: 0 <= i < j < |feed| && start <= j ==> feed[i].chargedAt < feed[j].chargedAt)
  }

  /** What came to a feed after its first `n` charges is strictly later than those. */
  ghost predicate Later(feed: seq<ChargeRecord>, n: nat) {
    forall i, j :: 0 <= i < n <= j < |feed| ==> feed[i].chargedAt < feed[j].chargedAt
  }

  /** The end of the window that is page `page` of a feed of length `n`, for pages of fifty. */
  function Top(n: nat, page: nat): nat {
    if n < page * 50 then 0 else n - page * 50
  }

  /** A page as fetched from a feed of length `n`. Whether there is more is decided by the
      upstream total, or, where there is none, by the page being full. */
  ghost predicate Served(f: Fetch, feed: seq<ChargeRecord>, n: nat, page: nat)
    requires n <= |feed|
  {
    var top, bottom := Top(n, page), Top(n, page + 1);
    && f.Page?
    && |f.items| == top - bottom
    && (forall j :: 0 <= j < top - bottom ==> f.items[j].built == Some(feed[top - 1 - j]))
    && ((f.hasMore <==> bottom > 0) || (f.hasMore <==> |f.items| >= 50))
  }

  /** Fetches made while the feed grows from length `n0`: `lens[i]` is its length at fetch `i`. */
  ghost predicate Fetched(fetches: seq<Fetch>, feed: seq<ChargeRecord>, n0: nat, lens: seq<nat>) {
    && |fetches| == |lens|
    && n0 <= |feed|
    && (forall i :: 0 <= i < |lens| ==> n0 <= lens[i] <= |feed|)
    && (forall i, j :: 0 <= i < j < |lens| ==> lens[i] <= lens[j])
    && (forall i :: 0 <= i < |fetches| && fetches[i].Page? ==> Served(fetches[i], feed, lens[i], i))
  }

  /** Every charge among the first `n` that is not newer than the watermark is stored. */
  ghost predicate Caught(db: Db, w: Option<Time>, feed: seq<ChargeRecord>, n: nat)
    requires n <= |feed|
  {
    w.Some? ==>
      && 0 < n && w.value <= feed[n - 1].chargedAt
      && (forall i :: 0 <= i < n && feed[i].chargedAt <= w.value ==> Kept(db, feed[i]))
  }

  /** A record's event id is its key, unless an older release made it. */
  ghost predicate Aligned(records: map<RecordSlot, ChargeRecord>) {
    forall rs :: rs in records ==> records[rs].eventId.Legacy? || rs == RecordSlot(rs.account, records[rs].eventId)
  }

  // ---------------------------------------------------------------- one item, one page

  /** Which record row an item changes, and how. */
  lemma AbsorbRecords(db: Db, r: ChargeRecord, prev: Option<Time>, a: Arrival)
    ensures AbsorbDb(db, r, prev, a).records ==
            match FateOf(db, r)
            case Known => db.records[SlotOf(r) := Enrich(db.records[SlotOf(r)], r)]
            case Conflict => db.records
            case Fresh => db.records[SlotOf(r) := AsStored(r, prev, a)]
  {
    if FateOf(db, r) == Fresh {
      var db1 := StoreRecord(db, SlotOf(r), AsStored(r, prev, a), prev, a.queuedAt);
      EnqueueOnlyCollects(db1, ChargeKey(r), NewCharge, NewChargePayload(r), a.queuedAt);
    }
  }

  lemma NoConflict(db: Db, r: ChargeRecord)
    requires Aligned(db.records) && r.eventId == r.recordKey && !r.recordKey.Legacy?
    ensures FateOf(db, r) != Conflict
  {
    if EventIdTaken(db.records, r.account, r.eventId) {
      var q :| q in db.records && q.account == r.account && db.records[q].eventId == r.eventId;
      assert q == SlotOf(r);
    }
  }

  lemma AbsorbStores(db: Db, r: ChargeRecord, prev: Option<Time>, a: Arrival)
    requires Aligned(db.records) && r.eventId == r.recordKey && !r.recordKey.Legacy?
    ensures Aligned(AbsorbDb(db, r, prev, a).records)
    ensures AbsorbDb(db, r, prev, a).records.Keys == db.records.Keys + {SlotOf(r)}
  {
    NoConflict(db, r);
    AbsorbOnlyCollects(db, r, prev, a);
    AbsorbRecords(db, r, prev, a);
  }

  /** Every item parses. */
  ghost predicate Parsed(items: seq<Arrival>) {
    forall j :: 0 <= j < |items| ==> items[j].built.Some?
  }

  /** Every item parses into a record of the current release. */
  ghost predicate AllBuilt(items: seq<Arrival>) {
    forall j :: 0 <= j < |items| ==>
                  items[j].built.Some?
                  && items[j].built.value.eventId == items[j].built.value.recordKey
                  && !items[j].built.value.recordKey.Legacy?
  }

  ghost function SlotsOf(items: seq<Arrival>): set<RecordSlot>
    requires AllBuilt(items)
  {
    set j | 0 <= j < |items| :: SlotOf(items[j].built.value)
  }

  /** The newest of a time and the times of a page's items. */
  ghost function NewestOf(start: Option<Time>, items: seq<Arrival>): Option<Time>
    requires Parsed(items)
  {
    if items == [] then start
    else Some(MaxTime(NewestOf(start, items[..|items| - 1]), items[|items| - 1].built.value.chargedAt))
  }

  /** Parsable items never raise; the times of the page are listed and the newest advances. */
  lemma {:induction false} ScanTimes(p: Progress, prev: Option<Time>, items: seq<Arrival>)
    requires Parsed(items)
    ensures !ScanItems(p, prev, items).raised
    ensures ScanItems(p, prev, items).p.newest == NewestOf(p.newest, items)
    ensures |ScanItems(p, prev, items).times| == |items|
    ensures forall j :: 0 <= j < |items| ==> ScanItems(p, prev, items).times[j] == items[j].built.value.chargedAt
  {
    hide AbsorbDb, FateOf, MaxTime;
    if items != [] {
      ScanTimes(p, prev, items[..|items| - 1]);
    }
  }

  /** Scanning parsable items stores exactly their slots. */
  lemma {:induction false} ScanStores(p: Progress, prev: Option<Time>, items: seq<Arrival>)
    requires Aligned(p.db.records) && AllBuilt(items)
    ensures Aligned(ScanItems(p, prev, items).p.db.records)
    ensures ScanItems(p, prev, items).p.db.records.Keys == p.db.records.Keys + SlotsOf(items)
  {
    if items == [] {
      assert SlotsOf(items) == {};
    } else {
      var n := |items| - 1;
      ScanStores(p, prev, items[..n]);
      ScanTimes(p, prev, items[..n]);
      AbsorbStores(ScanItems(p, prev, items[..n]).p.db, items[n].built.value, prev, items[n]);
      SlotsOfSnoc(items);
    }
  }

  lemma SlotsOfSnoc(items: seq<Arrival>)
    requires AllBuilt(items) && items != []
    ensures SlotsOf(items) == SlotsOf(items[..|items| - 1]) + {SlotOf(items[|items| - 1].built.value)}
  {
    var n := |items| - 1;
    forall j | 0 <= j < n
      ensures items[..n][j] == items[j]
    {
    }
  }

  lemma {:induction false} MaxOfBounds(times: seq<Time>, j: nat)
    requires j < |times|
    ensures times[j] <= MaxOf(times)
  {
    if |times| > 1 && j < |times| - 1 {
      MaxOfBounds(times[..|times| - 1], j);
    }
  }

  /** A page is read newest first, so its first item decides. */
  lemma {:induction false} NewestOfDescending(start: Option<Time>, items: seq<Arrival>)
    requires AllBuilt(items) && items != []
    requires forall j :: 0 <= j < |items| ==> items[0].built.value.chargedAt >= items[j].built.value.chargedAt
    ensures NewestOf(start, items) == Some(MaxTime(start, items[0].built.value.chargedAt))
  {
    if |items| > 1 {
      NewestOfDescending(start, items[..|items| - 1]);
    } else {
      assert items[..0] == [];
    }
  }

  /** One served page: everything in its window is stored. */
  lemma PageStores(p: Progress, prev: Option<Time>, f: Fetch, feed: seq<ChargeRecord>, n: nat, page: nat)
    requires Aligned(p.db.records) && n <= |feed| && Served(f, feed, n, page) && AllBuilt(f.items)
    ensures !ScanItems(p, prev, f.items).raised
    ensures Aligned(ScanItems(p, prev, f.items).p.db.records)
    ensures p.db.records.Keys <= ScanItems(p, prev, f.items).p.db.records.Keys
    ensures forall i :: Top(n, page + 1) <= i < Top(n, page) ==> Kept(ScanItems(p, prev, f.items).p.db, feed[i])
  {
    hide ScanItems;
    var top, bottom := Top(n, page), Top(n, page + 1);
    ScanTimes(p, prev, f.items);
    ScanStores(p, prev, f.items);
    forall i | bottom <= i < top
      ensures SlotOf(feed[i]) in SlotsOf(f.items)
    {
      assert f.items[top - 1 - i].built == Some(feed[i]);
    }
  }

  /** One served page: the newest time it shows, and what makes it a known page. */
  lemma PageTimes(p: Progress, prev: Option<Time>, f: Fetch, feed: seq<ChargeRecord>, n: nat, page: nat)
    requires n <= |feed| && Served(f, feed, n, page) && AllBuilt(f.items)
    requires forall i, j :: 0 <= i < j < |feed| ==> feed[i].chargedAt <= feed[j].chargedAt
    ensures Top(n, page) == 0 ==> ScanItems(p, prev, f.items).p.newest == p.newest
    ensures Top(n, page) > 0 ==>
              ScanItems(p, prev, f.items).p.newest == Some(MaxTime(p.newest, feed[Top(n, page) - 1].chargedAt))
    ensures KnownPage(ScanItems(p, prev, f.items), prev) ==>
              Top(n, page + 1) < Top(n, page) && prev.Some? && feed[Top(n, page + 1)].chargedAt <= prev.value
  {
    hide ScanItems;
    var items := f.items;
    var top, bottom := Top(n, page), Top(n, page + 1);
    ScanTimes(p, prev, items);
    if top > 0 {
      assert items[0].built == Some(feed[top - 1]);
      forall j | 0 <= j < |items|
        ensures items[0].built.value.chargedAt >= items[j].built.value.chargedAt
      {
        assert items[j].built == Some(feed[top - 1 - j]);
      }
      NewestOfDescending(p.newest, items);
      var times := ScanItems(p, prev, items).times;
      MaxOfBounds(times, |times| - 1);
      assert items[top - bottom - 1].built == Some(feed[bottom]);
    }
  }

  // ---------------------------------------------------------------- the page loop

  /** The highest end of the windows fetched so far. */
  ghost function Reach(lens: seq<nat>): nat {
    if lens == [] then 0
    else
      var m := |lens| - 1;
      if Top(lens[m], m) > Reach(lens[..m]) then Top(lens[m], m) else Reach(lens[..m])
  }

  ghost function Newest(prev: Option<Time>, feed: seq<ChargeRecord>, reach: nat): Option<Time>
    requires reach <= |feed|
  {
    if reach == 0 then prev else Some(MaxTime(prev, feed[reach - 1].chargedAt))
  }

  lemma {:induction false} ReachBounds(n0: nat, limit: nat, lens: seq<nat>)
    requires forall i :: 0 <= i < |lens| ==> n0 <= lens[i] <= limit
    ensures Reach(lens) <= limit
    ensures lens != [] ==> n0 <= Reach(lens)
  {
    if lens != [] {
      ReachBounds(n0, limit, lens[..|lens| - 1]);
    }
  }

  /** What the loop has achieved after a fetch that did not fail: the windows fetched so far
      leave no gap between the end of the last one and the highest, and after a known page
      nothing at that end is newer than the old watermark. */
  ghost predicate Swept(run: Run, prev: Option<Time>, feed: seq<ChargeRecord>, bottom: nat, reach: nat)
    requires reach <= |feed|
  {
    && Aligned(run.p.db.records)
    && (forall i :: bottom <= i < reach ==> Kept(run.p.db, feed[i]))
    && run.p.newest == Newest(prev, feed, reach)
    && (run.known > 0 ==> prev.Some? && bottom < reach && feed[bottom].chargedAt <= prev.value)
    && (run.phase == Broke ==> bottom == 0 || run.known > 0)
    && !run.phase.Failed?
  }

  /** One turn of the loop: the new window starts no lower than the last one ended, whatever
      the feed has gained in between. */
  lemma TurnSweeps(run: Run, prev: Option<Time>, f: Fetch, feed: seq<ChargeRecord>, n: nat, page: nat, bottom: nat,
          reach: nat)
    requires n <= |feed| && Served(f, feed, n, page) && AllBuilt(f.items)
    requires forall i, j :: 0 <= i < j < |feed| ==> feed[i].chargedAt <= feed[j].chargedAt
    requires reach <= |feed| && bottom <= Top(n, page)
    requires run.phase == Going && Swept(run, prev, feed, bottom, reach)
    ensures Swept(TakePage(run, prev, f), prev, feed, Top(n, page + 1), if Top(n, page) > reach then Top(n, page) else reach)
  {
    hide ScanItems, TakePage, KnownPage;
    PageStores(run.p, prev, f, feed, n, page);
    PageTimes(run.p, prev, f, feed, n, page);
    TakePageFields(run, prev, f);
    hide AllBuilt;
    NewestAdvances(prev, feed, reach, Top(n, page));
    hide Newest, Aligned, MaxTime;
    var run' := TakePage(run, prev, f);
    var bottom', reach' := Top(n, page + 1), if Top(n, page) > reach then Top(n, page) else reach;
    assert forall i :: bottom' <= i < reach' ==> Kept(run'.p.db, feed[i]) by {
      assert forall i :: bottom <= i < reach ==> Kept(run.p.db, feed[i]);
    }
    assert |f.items| < 50 ==> bottom' == 0;
  }

  lemma NewestAdvances(prev: Option<Time>, feed: seq<ChargeRecord>, reach: nat, top: nat)
    requires reach <= |feed| && top <= |feed|
    requires forall i, j :: 0 <= i < j < |feed| ==> feed[i].chargedAt <= feed[j].chargedAt
    ensures top > 0 ==>
              Some(MaxTime(Newest(prev, feed, reach), feed[top - 1].chargedAt))
              == Newest(prev, feed, if top > reach then top else reach)
  {
  }

  lemma TakePageFields(run: Run, prev: Option<Time>, f: Fetch)
    requires f.Page? && !ScanItems(run.p, prev, f.items).raised
    ensures TakePage(run, prev, f).p == ScanItems(run.p, prev, f.items).p
    ensures TakePage(run, prev, f).known == if KnownPage(ScanItems(run.p, prev, f.items), prev) then run.known + 1 else 0
    ensures TakePage(run, prev, f).phase == if !f.hasMore || TakePage(run, prev, f).known >= 2 then Broke else Going
  {
    hide ScanItems, KnownPage;
  }

  lemma ServedAllBuilt(f: Fetch, feed: seq<ChargeRecord>, user: UserId, account: AccountId, n: nat, page: nat)
    requires n <= |feed| && Served(f, feed, n, page)
    requires forall i :: 0 <= i < |feed| ==> BuiltFor(feed[i], user, account)
    ensures AllBuilt(f.items)
  {
    var top := Top(n, page);
    forall j | 0 <= j < |f.items|
      ensures f.items[j].built.Some? && f.items[j].built.value.eventId == f.items[j].built.value.recordKey
              && !f.items[j].built.value.recordKey.Legacy?
    {
      assert f.items[j].built == Some(feed[top - 1 - j]);
    }
  }

  lemma TakePagesSnoc(db: Db, prev: Option<Time>, fetches: seq<Fetch>)
    requires fetches != [] && TakePages(db, prev, fetches[..|fetches| - 1]).phase == Going
    ensures TakePages(db, prev, fetches)
              == TakePage(TakePages(db, prev, fetches[..|fetches| - 1]), prev, fetches[|fetches| - 1])
  {
    hide TakePage;
  }

  /** After any number of fetches that neither failed nor stopped the loop, everything between
      the end of the last window and the highest window is stored. */
  lemma {:induction false} LoopSweeps(db: Db, user: UserId, account: AccountId, prev: Option<Time>,
          fetches: seq<Fetch>, feed: seq<ChargeRecord>, n0: nat, lens: seq<nat>)
    requires Aligned(db.records) && FeedOk(feed, user, account, |feed|) && Fetched(fetches, feed, n0, lens)
    requires fetches != [] && fetches[|fetches| - 1].Page?
    requires TakePages(db, prev, fetches[..|fetches| - 1]).phase == Going
    ensures Reach(lens) <= |feed|
    ensures Swept(TakePages(db, prev, fetches), prev, feed, Top(lens[|lens| - 1], |lens|), Reach(lens))
  {
    hide TakePages, TakePage, Swept, Aligned;
    var m := |fetches| - 1;
    var front := fetches[..m];
    ReachBounds(n0, |feed|, lens);
    ReachBounds(n0, |feed|, lens[..m]);
    assert Served(fetches[m], feed, lens[m], m);
    ServedAllBuilt(fetches[m], feed, user, account, lens[m], m);
    FetchedFront(fetches, feed, n0, lens);
    hide Served, AllBuilt;
    TakePagesSnoc(db, prev, fetches);
    var before := TakePages(db, prev, front);
    if m > 0 {
      GoingSoFar(db, prev, front);
      LoopSweeps(db, user, account, prev, front, feed, n0, lens[..m]);
      assert lens[..m][m - 1] == lens[m - 1] <= lens[m];
      TurnSweeps(before, prev, fetches[m], feed, lens[m], m, Top(lens[m - 1], m), Reach(lens[..m]));
    } else {
      assert front == [] && lens[..m] == [];
      NothingSwept(db, prev, feed);
      TurnSweeps(before, prev, fetches[m], feed, lens[m], m, 0, 0);
    }
  }

  lemma FetchedFront(fetches: seq<Fetch>, feed: seq<ChargeRecord>, n0: nat, lens: seq<nat>)
    requires Fetched(fetches, feed, n0, lens) && fetches != []
    ensures Fetched(fetches[..|fetches| - 1], feed, n0, lens[..|fetches| - 1])
  {
    hide Served;
  }

  lemma NothingSwept(db: Db, prev: Option<Time>, feed: seq<ChargeRecord>)
    requires Aligned(db.records)
    ensures Swept(TakePages(db, prev, []), prev, feed, 0, 0)
  {
  }

  /** A loop still going has neither failed nor stopped before. */
  lemma GoingSoFar(db: Db, prev: Option<Time>, fetches: seq<Fetch>)
    requires fetches != [] && TakePages(db, prev, fetches).phase == Going
    ensures TakePages(db, prev, fetches[..|fetches| - 1]).phase == Going
    ensures fetches[|fetches| - 1].Page?
  {
  }

  /** Fetches past the one that stopped the loop do not matter. */
  lemma {:induction false} StopsAt(db: Db, prev: Option<Time>, fetches: seq<Fetch>) returns (m: nat)
    requires TakePages(db, prev, fetches).phase != Going
    ensures 0 < m <= |fetches|
    ensures TakePages(db, prev, fetches[..m]) == TakePages(db, prev, fetches)
    ensures TakePages(db, prev, fetches[..m - 1]).phase == Going
  {
    m := |fetches|;
    assert fetches[..m] == fetches;
    if TakePages(db, prev, fetches[..m - 1]).phase != Going {
      var front := fetches[..m - 1];
      m := StopsAt(db, prev, front);
      assert front[..m] == fetches[..m] && front[..m - 1] == fetches[..m - 1];
    }
  }

  // ---------------------------------------------------------------- a whole run

  /** Where the loop stopped by itself, everything up to its highest window is stored: either
      it came to the feed's oldest page, or what lies below was stored before. */
  lemma BrokenLoopReaches(run: Run, db: Db, prev: Option<Time>, feed: seq<ChargeRecord>, n0: nat, bottom: nat,
          reach: nat)
    requires n0 <= reach <= |feed| && Swept(run, prev, feed, bottom, reach) && run.phase == Broke
    requires forall i, j :: 0 <= i < j < |feed| ==> feed[i].chargedAt <= feed[j].chargedAt
    requires forall i, j :: 0 <= i < j < |feed| && n0 <= j ==> feed[i].chargedAt < feed[j].chargedAt
    requires Caught(db, prev, feed, n0) && db.records.Keys <= run.p.db.records.Keys
    ensures forall i :: 0 <= i < reach ==> Kept(run.p.db, feed[i])
  {
    assert 0 < n0 ==> forall i :: n0 <= i < |feed| ==> feed[n0 - 1].chargedAt < feed[i].chargedAt;
    forall i | 0 <= i < reach
      ensures Kept(run.p.db, feed[i])
    {
      if i < bottom {
        assert run.known > 0 && feed[i].chargedAt <= feed[bottom].chargedAt <= prev.value;
        assert Kept(db, feed[i]);
      }
    }
  }

  /** Past the highest window, the feed holds only what is newer than the new watermark. */
  lemma ReachIsCaught(db: Db, prev: Option<Time>, feed: seq<ChargeRecord>, n0: nat, reach: nat)
    requires n0 <= reach <= |feed|
    requires forall i, j :: 0 <= i < j < |feed| ==> feed[i].chargedAt <= feed[j].chargedAt
    requires forall i, j :: 0 <= i < j < |feed| && n0 <= j ==> feed[i].chargedAt < feed[j].chargedAt
    requires prev.Some? ==> 0 < n0 && prev.value <= feed[n0 - 1].chargedAt
    requires forall i :: 0 <= i < reach ==> Kept(db, feed[i])
    ensures Caught(db, Newest(prev, feed, reach), feed, |feed|)
  {
    var w := Newest(prev, feed, reach);
    if w.Some? {
      assert prev.Some? ==> feed[n0 - 1].chargedAt <= feed[reach - 1].chargedAt;
      forall i | reach <= i < |feed|
        ensures feed[i].chargedAt > w.value
      {
        assert feed[reach - 1].chargedAt < feed[i].chargedAt;
      }
      assert feed[reach - 1].chargedAt <= feed[|feed| - 1].chargedAt;
    }
  }

  /** A run that stopped by itself, with the feed only gaining strictly later charges while it
      ran, has stored every charge that was there when it began, and everything not newer than
      the watermark it leaves. */
  lemma BrokenRunComplete(db: Db, user: UserId, account: AccountId, prev: Option<Time>, fetches: seq<Fetch>,
          feed: seq<ChargeRecord>, n0: nat, lens: seq<nat>)
    requires Aligned(db.records) && FeedOk(feed, user, account, n0) && Fetched(fetches, feed, n0, lens)
    requires Caught(db, prev, feed, n0)
    requires TakePages(db, prev, fetches).phase == Broke
    ensures forall i :: 0 <= i < n0 ==> Kept(TakePages(db, prev, fetches).p.db, feed[i])
    ensures Caught(TakePages(db, prev, fetches).p.db, TakePages(db, prev, fetches).p.newest, feed, |feed|)
  {
    hide TakePages, TakePage;
    var m := StopsAt(db, prev, fetches);
    var run := TakePages(db, prev, fetches);
    var ls := lens[..m];
    assert fetches[..m][..m - 1] == fetches[..m - 1];
    LastIsPage(db, prev, fetches[..m]);
    LoopSweeps(db, user, account, prev, fetches[..m], feed, n0, ls);
    ReachBounds(n0, |feed|, ls);
    PagesOnlyCollect(db, prev, fetches);
    BrokenLoopReaches(run, db, prev, feed, n0, Top(ls[m - 1], m), Reach(ls));
    ReachIsCaught(run.p.db, prev, feed, n0, Reach(ls));
  }

  lemma LastIsPage(db: Db, prev: Option<Time>, fetches: seq<Fetch>)
    requires fetches != [] && TakePages(db, prev, fetches).phase == Broke
    requires TakePages(db, prev, fetches[..|fetches| - 1]).phase == Going
    ensures fetches[|fetches| - 1].Page?
  {
  }

  /** A run that failed on any page leaves the watermark, and so loses nothing either. */
  lemma FailedRunKeeps(db: Db, prev: Option<Time>, fetches: seq<Fetch>, feed: seq<ChargeRecord>, n0: nat)
    requires n0 <= |feed| && Later(feed, n0) && Caught(db, prev, feed, n0)
    requires forall i, j :: 0 <= i < j < |feed| ==> feed[i].chargedAt <= feed[j].chargedAt
    ensures Caught(TakePages(db, prev, fetches).p.db, prev, feed, |feed|)
  {
    hide TakePages;
    PagesOnlyCollect(db, prev, fetches);
    if prev.Some? {
      forall i | n0 <= i < |feed|
        ensures feed[i].chargedAt > prev.value
      {
        assert feed[n0 - 1].chargedAt < feed[i].chargedAt;
      }
    }
  }

  /** The claim over a stored run: except by running out of pages, no run lets a charge that is
      not newer than its account's watermark go unstored. */
  lemma CollectLosesNothing(db: Db, account: AccountId, fetches: seq<Fetch>, runId: nat, endAt: Time,
          feed: seq<ChargeRecord>, n0: nat, lens: seq<nat>)
    requires account in db.accounts && Aligned(db.records)
    requires FeedOk(feed, db.accounts[account].user, account, |feed|) && n0 <= |feed| && Later(feed, n0)
    requires Caught(db, db.accounts[account].watermark, feed, n0)
    requires TakePages(db, db.accounts[account].watermark, fetches).phase != Going
    requires TakePages(db, db.accounts[account].watermark, fetches).phase == Broke ==>
               Fetched(fetches, feed, n0, lens) && FeedOk(feed, db.accounts[account].user, account, n0)
    ensures account in Collect(db, account, fetches, runId, endAt).accounts
    ensures var db' := Collect(db, account, fetches, runId, endAt);
            Caught(db', db'.accounts[account].watermark, feed, |feed|)
    ensures TakePages(db, db.accounts[account].watermark, fetches).phase == Broke ==>
              forall i :: 0 <= i < n0 ==> Kept(Collect(db, account, fetches, runId, endAt), feed[i])
  {
    hide TakePages, TakePage;
    var acc := db.accounts[account];
    var run := TakePages(db, acc.watermark, fetches);
    PagesOnlyCollect(db, acc.watermark, fetches);
    ConcludeFrame(run, account, runId, endAt);
    hide Conclude, OnlyCollects;
    if run.phase == Broke {
      BrokenRunComplete(db, acc.user, account, acc.watermark, fetches, feed, n0, lens);
    } else {
      FailedRunKeeps(db, acc.watermark, fetches, feed, n0);
    }
  }
}
