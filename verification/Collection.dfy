/** Incremental collection: paging through the upstream feed, deduplicating, storing records
    together with their events, and moving the account's watermark. */
module Collection {
  import opened Common
  import opened Charges
  import opened Pipeline

  const MAX_PAGES := 100

  /** An item of a fetched page as the record built from it, `None` where building raises, with
      the instants the record and its event are stored at. */
  datatype Arrival = Arrival(built: Option<ChargeRecord>, storedAt: Time, queuedAt: Time)

  /** What holds of every record the collector builds for an account. */
  predicate BuiltFor(r: ChargeRecord, user: UserId, account: AccountId) {
    r.user == user && r.account == account && r.eventId == r.recordKey && !r.recordKey.Legacy?
  }

  lemma BuildBuilds(user: UserId, account: AccountId, item: Item)
    requires item.Parses()
    ensures BuiltFor(BuildChargeRecord(user, account, item).value, user, account)
  {
  }

  /** What requesting a page leads to. */
  datatype Fetch = Page(items: seq<Arrival>, hasMore: bool) | RequestFailed | AuthExpired

  datatype Progress = Progress(
    db: Db, seen: nat, inserted: nat, duplicates: nat, suppressed: nat, newest: Option<Time>)

  predicate EventIdTaken(records: map<RecordSlot, ChargeRecord>, account: AccountId, eventId: Digest) {
    exists rs :: rs in records && rs.account == account && records[rs].eventId == eventId
  }

  /** A charge is worth announcing when it is newer than the watermark its run began with. */
  predicate Eligible(prev: Option<Time>, chargedAt: Time) {
    prev.Some? && chargedAt > prev.value
  }

  function StoreRecord(db: Db, rs: RecordSlot, r: ChargeRecord, prev: Option<Time>, at: Time): Db {
    db.(clock := at,
        records := db.records[rs := r],
        hist := db.hist.(baseline := db.hist.baseline[rs := prev]))
  }

  function AsStored(r: ChargeRecord, prev: Option<Time>, a: Arrival): ChargeRecord {
    r.(eligible := Eligible(prev, r.chargedAt), created := a.storedAt)
  }

  /** Inserting a record and, in the same savepoint, its event. */
  function StoreCharge(db: Db, r: ChargeRecord, prev: Option<Time>, a: Arrival): Db {
    var db1 := StoreRecord(db, RecordSlot(r.account, r.recordKey), AsStored(r, prev, a), prev, a.queuedAt);
    if Eligible(prev, r.chargedAt) then Enqueue(db1, ChargeKey(r), NewCharge, NewChargePayload(r), a.queuedAt) else db1
  }

  datatype Fate = Known | Conflict | Fresh

  function FateOf(db: Db, r: ChargeRecord): Fate {
    if RecordSlot(r.account, r.recordKey) in db.records then Known
    else if EventIdTaken(db.records, r.account, r.eventId) then Conflict
    else Fresh
  }

  function AbsorbDb(db: Db, r: ChargeRecord, prev: Option<Time>, a: Arrival): Db {
    var rs := RecordSlot(r.account, r.recordKey);
    match FateOf(db, r)
    case Known => db.(clock := a.queuedAt, records := db.records[rs := Enrich(db.records[rs], r)])
    case Conflict => db.(clock := a.queuedAt)
    case Fresh => StoreCharge(db, r, prev, a)
  }

  function Absorb(p: Progress, r: ChargeRecord, prev: Option<Time>, a: Arrival): Progress {
    var isNew := FateOf(p.db, r) == Fresh;
    Progress(
      AbsorbDb(p.db, r, prev, a),
      p.seen + 1,
      if isNew then p.inserted + 1 else p.inserted,
      if isNew then p.duplicates else p.duplicates + 1,
      if isNew && !Eligible(prev, r.chargedAt) then p.suppressed + 1 else p.suppressed,
      Some(MaxTime(p.newest, r.chargedAt)))
  }

  /** The state inside a page: `raised` once an item cannot be parsed. */
  datatype Scan = Scan(p: Progress, pageInserted: nat, times: seq<Time>, raised: bool)

  function ScanItems(p: Progress, prev: Option<Time>, items: seq<Arrival>): Scan {
    if items == [] then Scan(p, 0, [], false)
    else
      var n := |items| - 1;
      var s := ScanItems(p, prev, items[..n]);
      if s.raised then s
      else
        match items[n].built
        case None => s.(p := s.p.(seen := s.p.seen + 1), raised := true)
        case Some(r) =>
          var p' := Absorb(s.p, r, prev, items[n]);
          Scan(p', s.pageInserted + p'.inserted - s.p.inserted, s.times + [r.chargedAt], false)
  }

  function MaxOf(times: seq<Time>): Time
    requires times != []
  {
    if |times| == 1 then times[0]
    else MaxTime(Some(MaxOf(times[..|times| - 1])), times[|times| - 1])
  }

  datatype Phase = Going | Broke | Failed(auth: bool)

  datatype Run = Run(p: Progress, pages: nat, known: nat, phase: Phase)

  /** A page is known when it inserted nothing and holds nothing newer than the watermark. */
  predicate KnownPage(s: Scan, prev: Option<Time>) {
    s.pageInserted == 0 && prev.Some? && s.times != [] && MaxOf(s.times) <= prev.value
  }

  function TakePage(run: Run, prev: Option<Time>, f: Fetch): Run {
    match f
    case RequestFailed => run.(phase := Failed(false))
    case AuthExpired => run.(phase := Failed(true))
    case Page(items, hasMore) =>
      var s := ScanItems(run.p, prev, items);
      if s.raised then Run(s.p, run.pages + 1, run.known, Failed(false))
      else
        var known := if KnownPage(s, prev) then run.known + 1 else 0;
        Run(s.p, run.pages + 1, known, if !hasMore || known >= 2 then Broke else Going)
  }

  function Start(db: Db, prev: Option<Time>): Run {
    Run(Progress(db, 0, 0, 0, 0, prev), 0, 0, Going)
  }

  /** The page loop: fetches after the one that stops it are never made. */
  function TakePages(db: Db, prev: Option<Time>, fetches: seq<Fetch>): Run {
    if fetches == [] then Start(db, prev)
    else
      var n := |fetches| - 1;
      var run := TakePages(db, prev, fetches[..n]);
      if run.phase == Going then TakePage(run, prev, fetches[n]) else run
  }

  /** An expired login takes its account out of service. */
  function Suspended(acc: Account, auth: bool): Account {
    if auth then acc.(active := false) else acc
  }

  /** The events a failed run leaves. */
  function Report(db: Db, user: UserId, account: AccountId, auth: bool, runId: nat, endAt: Time): Db {
    var db1 :=
      if auth then Enqueue(db, EventKey(user, CookieTopic(account)), CookieExpired, Details("account"), endAt)
      else db;
    Enqueue(db1, EventKey(user, RunTopic(runId)), CollectionFailed, Details("account"), endAt)
  }

  /** The end of a run. A loop that ran out of pages counts as a success like one that broke. */
  function Conclude(run: Run, account: AccountId, runId: nat, endAt: Time): Db
    requires account in run.p.db.accounts
  {
    var db := run.p.db;
    var acc := db.accounts[account];
    if run.phase.Failed?
    then
      var suspended := db.accounts[account := Suspended(acc, run.phase.auth)];
      Report(db.(accounts := suspended), acc.user, account, run.phase.auth, runId, endAt)
    else db.(clock := endAt, accounts := db.accounts[account := acc.(watermark := run.p.newest, lastChecked := Some(endAt))])
  }

  /** Collecting never touches accounts, channels, subscriptions or deliveries, and never
      forgets a record or an event. */
  ghost predicate OnlyCollects(db: Db, db': Db) {
    && db'.accounts == db.accounts && db'.channels == db.channels && db'.subs == db.subs
    && db'.deliveries == db.deliveries && db'.audit == db.audit
    && db.records.Keys <= db'.records.Keys
    && db'.hist.sent == db.hist.sent && db'.hist.won == db.hist.won
    && db'.hist.erased == db.hist.erased && db'.hist.unbound == db.hist.unbound
    && (forall k :: k in db.outbox ==> k in db'.outbox && db'.outbox[k] == db.outbox[k])
  }

  lemma EnqueueOnlyCollects(db: Db, k: EventKey, t: EventType, p: Payload, at: Time)
    ensures OnlyCollects(db, Enqueue(db, k, t, p, at))
    ensures Enqueue(db, k, t, p, at).records == db.records
  {
    if k in db.outbox {
    } else {
    }
  }

  lemma StoreOnlyCollects(db: Db, r: ChargeRecord, prev: Option<Time>, a: Arrival)
    ensures OnlyCollects(db, StoreCharge(db, r, prev, a))
    ensures StoreCharge(db, r, prev, a).records.Keys == db.records.Keys + {RecordSlot(r.account, r.recordKey)}
  {
    var db1 := StoreRecord(db, RecordSlot(r.account, r.recordKey), AsStored(r, prev, a), prev, a.queuedAt);
    if Eligible(prev, r.chargedAt) {
      EnqueueOnlyCollects(db1, ChargeKey(r), NewCharge, NewChargePayload(r), a.queuedAt);
      OnlyCollectsTransitive(db, db1, StoreCharge(db, r, prev, a));
    }
  }

  lemma AbsorbOnlyCollects(db: Db, r: ChargeRecord, prev: Option<Time>, a: Arrival)
    ensures OnlyCollects(db, AbsorbDb(db, r, prev, a))
    ensures AbsorbDb(db, r, prev, a).records.Keys ==
            if FateOf(db, r) == Conflict then db.records.Keys else db.records.Keys + {RecordSlot(r.account, r.recordKey)}
  {
    match FateOf(db, r)
    case Known =>
    case Conflict =>
    case Fresh => StoreOnlyCollects(db, r, prev, a);
  }

  lemma OnlyCollectsTransitive(a: Db, b: Db, c: Db)
    requires OnlyCollects(a, b) && OnlyCollects(b, c)
    ensures OnlyCollects(a, c)
  {
  }

  lemma {:induction false} ScanOnlyCollects(p: Progress, prev: Option<Time>, items: seq<Arrival>)
    ensures OnlyCollects(p.db, ScanItems(p, prev, items).p.db)
  {
    if items != [] {
      var n := |items| - 1;
      ScanOnlyCollects(p, prev, items[..n]);
      var s := ScanItems(p, prev, items[..n]);
      if !s.raised {
        match items[n].built
        case None =>
        case Some(r) =>
          AbsorbOnlyCollects(s.p.db, r, prev, items[n]);
          OnlyCollectsTransitive(p.db, s.p.db, AbsorbDb(s.p.db, r, prev, items[n]));
      }
    }
  }

  lemma {:induction false} PagesOnlyCollect(db: Db, prev: Option<Time>, fetches: seq<Fetch>)
    ensures OnlyCollects(db, TakePages(db, prev, fetches).p.db)
  {
    if fetches != [] {
      var n := |fetches| - 1;
      PagesOnlyCollect(db, prev, fetches[..n]);
      var run := TakePages(db, prev, fetches[..n]);
      if run.phase == Going && fetches[n].Page? {
        ScanOnlyCollects(run.p, prev, fetches[n].items);
        OnlyCollectsTransitive(db, run.p.db, ScanItems(run.p, prev, fetches[n].items).p.db);
      }
    }
  }

  lemma ReportOnlyCollects(db: Db, user: UserId, account: AccountId, auth: bool, runId: nat, endAt: Time)
    ensures OnlyCollects(db, Report(db, user, account, auth, runId, endAt))
    ensures Report(db, user, account, auth, runId, endAt).records == db.records
  {
    hide Enqueue, OnlyCollects;
    var ck, rk := EventKey(user, CookieTopic(account)), EventKey(user, RunTopic(runId));
    if auth {
      var db1 := Enqueue(db, ck, CookieExpired, Details("account"), endAt);
      EnqueueOnlyCollects(db, ck, CookieExpired, Details("account"), endAt);
      EnqueueOnlyCollects(db1, rk, CollectionFailed, Details("account"), endAt);
      OnlyCollectsTransitive(db, db1, Report(db, user, account, auth, runId, endAt));
    } else {
      EnqueueOnlyCollects(db, rk, CollectionFailed, Details("account"), endAt);
    }
  }

  /** What the end of a run changes: its own account, and events it adds. */
  lemma ConcludeFrame(run: Run, account: AccountId, runId: nat, endAt: Time)
    requires account in run.p.db.accounts
    ensures OnlyCollects(run.p.db.(accounts := Conclude(run, account, runId, endAt).accounts),
                         Conclude(run, account, runId, endAt))
    ensures Conclude(run, account, runId, endAt).records == run.p.db.records
    ensures account in Conclude(run, account, runId, endAt).accounts
    ensures Conclude(run, account, runId, endAt).accounts ==
            run.p.db.accounts[account := Conclude(run, account, runId, endAt).accounts[account]]
    ensures Conclude(run, account, runId, endAt).accounts[account].user == run.p.db.accounts[account].user
    ensures Conclude(run, account, runId, endAt).accounts[account].watermark ==
            if run.phase.Failed? then run.p.db.accounts[account].watermark else run.p.newest
  {
    hide Report;
    var db := run.p.db;
    var acc := db.accounts[account];
    if run.phase.Failed? {
      var db0 := db.(accounts := db.accounts[account := Suspended(acc, run.phase.auth)]);
      ReportOnlyCollects(db0, acc.user, account, run.phase.auth, runId, endAt);
    }
  }

  function Collect(db: Db, account: AccountId, fetches: seq<Fetch>, runId: nat, endAt: Time): Db
    requires account in db.accounts
  {
    var acc := db.accounts[account];
    PagesOnlyCollect(db, acc.watermark, fetches);
    Conclude(TakePages(db, acc.watermark, fetches), account, runId, endAt)
  }
}
