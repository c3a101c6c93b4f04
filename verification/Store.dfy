/**
 The pipeline as it runs: a store whose rows the operations change one after the other. Each
 method is tied to the function on table values that states its whole effect; what is promised
 about those functions holds of the store.
 */
module Store {
  import opened Common
  import opened Charges
  import opened Pipeline
  import opened DeliveryPass
  import opened Reconciliation
  import opened Collection
  import opened Machine

  /** An item of a fetched page before a record is built from it. */
  datatype RawArrival = RawArrival(item: Item, storedAt: Time, queuedAt: Time)

  datatype RawFetch = RawPage(items: seq<RawArrival>, hasMore: bool) | RawRequestFailed | RawAuthExpired

  function BuildArrival(user: UserId, account: AccountId, a: RawArrival): Arrival {
    Arrival(BuildChargeRecord(user, account, a.item), a.storedAt, a.queuedAt)
  }

  function BuildPage(user: UserId, account: AccountId, items: seq<RawArrival>): (r: seq<Arrival>)
    ensures |r| == |items|
    ensures forall i :: 0 <= i < |items| ==> r[i] == BuildArrival(user, account, items[i])
  {
    seq(|items|, i requires 0 <= i < |items| => BuildArrival(user, account, items[i]))
  }

  function BuildFetch(user: UserId, account: AccountId, f: RawFetch): Fetch {
    match f
    case RawRequestFailed => RequestFailed
    case RawAuthExpired => AuthExpired
    case RawPage(items, hasMore) => Page(BuildPage(user, account, items), hasMore)
  }

  function BuildFetches(user: UserId, account: AccountId, fetches: seq<RawFetch>): (r: seq<Fetch>)
    ensures |r| == |fetches|
    ensures forall i :: 0 <= i < |fetches| ==> r[i] == BuildFetch(user, account, fetches[i])
  {
    seq(|fetches|, i requires 0 <= i < |fetches| => BuildFetch(user, account, fetches[i]))
  }

  datatype CollectionOutcome =
    | Collected(pages: nat, seen: nat, inserted: nat, duplicates: nat, suppressed: nat)
    | AuthenticationRaised
    | ErrorRaised

  /** The running counters of a collection. */
  datatype Counters = Counters(seen: nat, inserted: nat, duplicates: nat, suppressed: nat, newest: Option<Time>)
  {
    ghost function At(db: Db): Progress {
      Progress(db, seen, inserted, duplicates, suppressed, newest)
    }
  }

  datatype PendingSummary = PendingSummary(scanned: nat, succeeded: nat, stillFailed: nat, budgetExceeded: nat)

  class PipelineStore {
    var accounts: map<AccountId, Account>
    var records: map<RecordSlot, ChargeRecord>
    var outbox: map<EventKey, Event>
    var deliveries: map<Slot, Delivery>
    var audit: map<Slot, Delivery>
    var channels: map<ChannelId, Channel>
    var subs: map<SubKey, Subscription>
    ghost var clock: Time
    ghost var hist: History

    constructor (ghost start: Time)
      ensures View() == Db(start, map[], map[], map[], map[], map[], map[], map[],
                           History(multiset{}, multiset{}, map[], map[], {}, {}, map[], {}))
    {
      accounts, records, outbox, deliveries, audit, channels, subs := map[], map[], map[], map[], map[], map[], map[];
      clock := start;
      hist := History(multiset{}, multiset{}, map[], map[], {}, {}, map[], {});
    }

    ghost function View(): Db
      reads this
    {
      Db(clock, accounts, records, outbox, deliveries, audit, channels, subs, hist)
    }

    // -------------------------------------------------------------- the delivery service

    method EnqueueEvent(k: EventKey, t: EventType, p: Payload, at: Time) returns (created: bool)
      modifies this
      ensures View() == Enqueue(old(View()), k, t, p, at)
      ensures created <==> k !in old(outbox)
    {
      created := k !in outbox;
      if created {
        outbox := outbox[k := Event(t, p, EvPending, 0, at, at)];
        hist := hist.(passes := hist.passes[k := 0], retries := hist.retries[k := 0]);
      }
      clock := at;
    }

    /** One channel's turn: skipped when won, counted as a failure when not yet due, otherwise
        one attempt. `t` is the tally of the turns before. */
    method TakeTurnOf(k: EventKey, c: ChannelId, send: Send, ghost t: Tally) returns (failed: bool, ghost t': Tally)
      requires t.deliveries == deliveries
      modifies this`deliveries
      ensures t' == TakeTurn(t, k, c, send)
      ensures t'.deliveries == deliveries
      ensures t'.failures == if failed then t.failures + 1 else t.failures
    {
      var slot := Slot(k, c);
      t' := t;
      if slot in deliveries && deliveries[slot].Success() {
        return false, t;
      }
      if slot in deliveries && deliveries[slot].due > send.checkedAt {
        return true, t.(failures := t.failures + 1);
      }
      var delivery := if slot in deliveries then deliveries[slot] else Delivery(DlPending, 0, send.checkedAt, None);
      delivery := delivery.(attempts := delivery.attempts + 1, status := if send.ok then DlSucceeded else DlFailed);
      if send.ok {
        delivery := delivery.(deliveredAt := Some(send.doneAt));
      } else {
        delivery := delivery.(due := send.doneAt + Backoff(delivery.attempts));
      }
      deliveries := deliveries[slot := delivery];
      failed := !send.ok;
      t' := TakeTurn(t, k, c, send);
    }

    /** One delivery pass over the rows the subscription query returned. */
    method DeliverEvent(k: EventKey, p: Pass)
      requires k in outbox && |p.rows| == |p.sends|
      modifies this
      ensures View() == Deliver(old(View()), k, p)
    {
      ghost var was := View();
      if p.rows == [] {
        outbox := outbox[k := outbox[k].(status := EvPending)];
        clock := p.endAt;
        return;
      }
      hide TakeTurns, Settle;
      var failures;
      ghost var t;
      failures, t := TakeTurnsOf(k, p.rows, p.sends);
      SettleAgain(was, k, t, p.endAt);
      SettleEvent(k, failures, t, p.endAt);
    }

    /** The turns of all channels, and how many failed. */
    method TakeTurnsOf(k: EventKey, rows: seq<ChannelId>, sends: seq<Send>) returns (failures: nat, ghost t: Tally)
      requires |rows| == |sends|
      modifies this`deliveries
      ensures t == TakeTurns(old(deliveries), k, rows, sends)
      ensures t.deliveries == deliveries && t.failures == failures
    {
      failures := 0;
      t := Tally(deliveries, 0, multiset{}, multiset{});
      var i := 0;
      while i < |rows|
        invariant 0 <= i <= |rows|
        invariant t == TakeTurns(old(deliveries), k, rows[..i], sends[..i])
        invariant t.deliveries == deliveries && t.failures == failures
      {
        TurnsSnoc(old(deliveries), k, rows, sends, i);
        var failed;
        failed, t := TakeTurnOf(k, rows[i], sends[i], t);
        if failed {
          failures := failures + 1;
        }
        i := i + 1;
      }
      assert rows[..i] == rows && sends[..i] == sends;
    }

    /** The event's own budget and status after a pass with rows. */
    method SettleEvent(k: EventKey, failures: nat, ghost t: Tally, endAt: Time)
      requires k in outbox && t.deliveries == deliveries && t.failures == failures
      modifies this
      ensures View() == Settle(old(View()), k, t, endAt)
    {
      ghost var settled := Settle(View(), k, t, endAt);
      var event := outbox[k].(attempts := outbox[k].attempts + 1);
      if failures == 0 {
        event := event.(status := EvDelivered);
      } else if event.attempts >= MAX_ATTEMPTS {
        event := event.(status := EvFailed);
      } else {
        event := event.(status := EvRetry, due := endAt + Backoff(event.attempts));
      }
      outbox := outbox[k := event];
      hist := settled.hist;
      clock := endAt;
    }

    /** Both retry budgets start again. */
    method ResetDeliveryForRetry(s: Slot, now: Time)
      requires s in deliveries && s.event in outbox
      modifies this
      ensures View() == ResetForRetry(old(View()), s, now)
      ensures s.event in outbox && Selectable(outbox[s.event], now)
      ensures Get(deliveries, s) == Some(Delivery(DlPending, 0, now, None))
      ensures forall q :: q != s ==> Get(deliveries, q) == Get(old(deliveries), q)
      ensures forall k :: k != s.event ==> Get(outbox, k) == Get(old(outbox), k)
    {
      deliveries := deliveries[s := Delivery(DlPending, 0, now, None)];
      outbox := outbox[s.event := outbox[s.event].(status := EvRetry, attempts := 0, due := now)];
      hist := hist.(retries := hist.retries[s.event := Count(hist.retries, s.event) + 1]);
      clock := now;
    }

    /** The manual retry endpoint: a refusal changes nothing. */
    method Retry(user: UserId, s: Slot, now: Time) returns (result: RetryResult)
      modifies this
      ensures result == RetryCheck(old(View()), user, s)
      ensures View() == RetryDelivery(old(View()), user, s, now)
      ensures result == Queued ==>
                && s in old(deliveries) && old(deliveries)[s].status == DlFailed && s.event.user == user
                && Get(deliveries, s) == Some(Delivery(DlPending, 0, now, None))
                && s.event in outbox && Selectable(outbox[s.event], now)
      ensures result != Queued ==> deliveries == old(deliveries) && outbox == old(outbox)
      ensures forall q :: q != s ==> Get(deliveries, q) == Get(old(deliveries), q)
      ensures forall k :: k != s.event ==> Get(outbox, k) == Get(old(outbox), k)
    {
      clock := now;
      if s.event.user != user || (s !in deliveries && s !in audit) {
        return NotFound;
      }
      if s.event !in outbox {
        return EventGone;
      }
      if outbox[s.event].status == EvMerged {
        return EventWasMerged;
      }
      if s !in deliveries || s.channel !in channels || channels[s.channel].user != user {
        return ChannelGone;
      }
      if deliveries[s].Success() {
        return AlreadySucceeded;
      }
      if deliveries[s].status != DlFailed {
        return NotRetryable;
      }
      if !channels[s.channel].enabled {
        return ChannelDisabled;
      }
      ResetDeliveryForRetry(s, now);
      return Queued;
    }

    /** One event of a batch: whatever becomes of it, no other event changes. */
    method DeliverOne(k: EventKey, p: Pass) returns (status: EventStatus, exceeded: bool)
      requires k in outbox && |p.rows| == |p.sends| && outbox[k].attempts < MAX_ATTEMPTS
      modifies this
      ensures View() == Deliver(old(View()), k, p)
      ensures k in outbox && status == outbox[k].status && outbox.Keys == old(outbox).Keys
      ensures forall j :: j in old(outbox) && j != k ==> outbox[j] == old(outbox)[j]
      ensures exceeded <==> status == EvFailed
    {
      hide Deliver;
      PassFrameAt(View(), k, p);
      ghost var after := Deliver(View(), k, p);
      var attempts := outbox[k].attempts;
      DeliverEvent(k, p);
      assert outbox == after.outbox;
      status := outbox[k].status;
      exceeded := status == EvFailed && outbox[k].attempts >= MAX_ATTEMPTS && attempts < MAX_ATTEMPTS;
    }

    /** One pass over the selected events. The counters count the events that ended delivered
        and failed; with every selected event inside its budget, an event that ends failed has
        just used it up. */
    method ProcessPending(scope: Option<UserId>, now: Time, batch: seq<EventKey>,
            passes: seq<Pass>) returns (summary: PendingSummary)
      requires Selected(View(), scope, now, batch) && PassesOk(View().(clock := now), batch, passes)
      modifies this
      ensures View() == ProcessBatch(old(View()), now, batch, passes)
      ensures forall k :: k in batch ==> k in outbox
      ensures summary.scanned == |batch|
      ensures summary.succeeded == CountEnded(outbox, batch, EvDelivered)
      ensures summary.stillFailed == summary.budgetExceeded == CountEnded(outbox, batch, EvFailed)
    {
      ghost var was := View().(clock := now);
      PassesAreAligned(was, batch, passes);
      assert Batchable(was, batch, passes);
      clock := now;
      NoneTallied(was, batch, passes);
      var succeeded, stillFailed, budgetExceeded := 0, 0, 0;
      var i := 0;
      hide Deliver, DeliverAll, PassOk, PassesOk, Selected, Selectable, CountEnded, Batchable, Tallied;
      while i < |batch|
        invariant 0 <= i <= |batch|
        invariant Tallied(was, View(), batch, passes, i, succeeded, stillFailed)
        invariant stillFailed == budgetExceeded
      {
        var k := batch[i];
        NextIsFresh(was, View(), batch, passes, i, succeeded, stillFailed);
        ghost var mid := View();
        var status, exceeded := DeliverOne(k, passes[i]);
        TallyTurn(was, mid, View(), batch, passes, i, succeeded, stillFailed);
        if status == EvDelivered {
          succeeded := succeeded + 1;
        } else if status == EvFailed {
          stillFailed := stillFailed + 1;
          if exceeded {
            budgetExceeded := budgetExceeded + 1;
          }
        }
        i := i + 1;
      }
      AllTallied(was, View(), batch, passes, succeeded, stillFailed);
      summary := PendingSummary(|batch|, succeeded, stillFailed, budgetExceeded);
    }

    // -------------------------------------------------------------- reconciliation

    method EnsureDeliveryRows(k: EventKey, rows: seq<ChannelId>, now: Time) returns (created: nat)
      modifies this`deliveries
      ensures deliveries == EnsureDeliveries(old(deliveries), k, rows, now)
      ensures created == |deliveries| - |old(deliveries)|
    {
      created := 0;
      var i := 0;
      while i < |rows|
        invariant 0 <= i <= |rows|
        invariant deliveries == EnsureDeliveries(old(deliveries), k, rows[..i], now)
        invariant |deliveries| == |old(deliveries)| + created
      {
        assert rows[..i + 1][..i] == rows[..i];
        var slot := Slot(k, rows[i]);
        i := i + 1;
        if slot in deliveries {
          continue;
        }
        deliveries := deliveries[slot := Delivery(DlPending, 0, now, None)];
        created := created + 1;
      }
      assert rows[..i] == rows;
    }

    /** Missing rows are added; a delivered event that gained some is requeued. */
    method AttachRows(k: EventKey, rows: seq<ChannelId>, now: Time) returns (created: nat, requeued: bool)
      requires k in outbox
      modifies this`deliveries, this`outbox
      ensures View() == AttachDeliveries(old(View()), k, rows, now)
      ensures created == |EnsureDeliveries(old(deliveries), k, rows, now)| - |old(deliveries)|
      ensures requeued <==> created > 0 && old(outbox)[k].status == EvDelivered
    {
      hide EnsureDeliveries;
      created := EnsureDeliveryRows(k, rows, now);
      requeued := created > 0 && outbox[k].status == EvDelivered;
      if requeued {
        outbox := outbox[k := outbox[k].(status := EvRetry, due := now)];
      } else {
        assert outbox[k := outbox[k]] == outbox;
      }
    }

    method ReconcileOne(r: ChargeRecord, now: Time, rep: Repair, s: Summary) returns (summary: Summary)
      modifies this
      ensures View() == RepairEvent(old(View()), ChargeKey(r), NewChargePayload(r), now, rep)
      ensures summary == Note(s, old(View()), ChargeKey(r), now, rep)
    {
      hide EnsureDeliveries, AttachDeliveries, ChargeKey, NewChargePayload;
      summary := s;
      var k := ChargeKey(r);
      var rebuilt := EnqueueEvent(k, NewCharge, NewChargePayload(r), rep.at);
      if rebuilt {
        summary := summary.(missingOutbox := summary.missingOutbox + 1, outboxRebuilt := summary.outboxRebuilt + 1);
      }
      if outbox[k].status == EvFailed {
        summary := summary.(skipped := summary.skipped + 1);
        return;
      }
      var created, requeued := AttachRows(k, rep.rows, now);
      if created > 0 {
        summary := summary.(missingDeliveries := summary.missingDeliveries + created,
                            deliveriesCreated := summary.deliveriesCreated + created);
        if requeued {
          summary := summary.(requeued := summary.requeued + 1);
        }
      } else if !rebuilt {
        summary := summary.(alreadyComplete := summary.alreadyComplete + 1);
      }
    }

    /** One reconciliation run over the scanned records. */
    method Reconcile(now: Time, batch: seq<ChargeRecord>, reps: seq<Repair>) returns (summary: Summary)
      requires |batch| == |reps|
      modifies this
      ensures View() == ReconcileAll(old(View()).(clock := now), batch, now, reps)
      ensures summary == SummaryOf(old(View()).(clock := now), batch, now, reps)
    {
      hide RepairEvent, Note;
      ghost var was := View().(clock := now);
      clock := now;
      summary := EMPTY_SUMMARY;
      var i := 0;
      while i < |batch|
        invariant 0 <= i <= |batch|
        invariant View() == ReconcileAll(was, batch[..i], now, reps[..i])
        invariant summary == SummaryOf(was, batch[..i], now, reps[..i])
      {
        assert batch[..i + 1][..i] == batch[..i] && reps[..i + 1][..i] == reps[..i];
        summary := ReconcileOne(batch[i], now, reps[i], summary.(scanned := summary.scanned + 1));
        i := i + 1;
      }
      assert batch[..i] == batch && reps[..i] == reps;
    }

    // -------------------------------------------------------------- retention and channels

    method CleanUpExpired(retentionDays: nat, now: Time)
      modifies this
      ensures View() == CleanUp(old(View()), retentionDays, now)
      ensures forall k :: k in old(outbox) ==>
                            var e := old(outbox)[k];
                            Get(outbox, k) == if e.created < now - retentionDays * DAY
                                                 && (e.status == EvDelivered || e.status == EvFailed) then None else Some(e)
      ensures outbox.Keys <= old(outbox).Keys
      ensures forall s :: s in old(deliveries) ==>
                            Get(deliveries, s) == if s.event in old(outbox) && s.event !in outbox then None
                                                  else Some(old(deliveries)[s])
      ensures deliveries.Keys <= old(deliveries).Keys
      ensures forall s :: s in old(audit) ==>
                            Get(audit, s) == if s.event in old(outbox) && s.event !in outbox then None
                                             else Some(old(audit)[s])
      ensures audit.Keys <= old(audit).Keys
    {
      var gone := Outdated(outbox, now - retentionDays * DAY);
      outbox := outbox - gone;
      deliveries := Surviving(deliveries, gone);
      audit := Surviving(audit, gone);
      hist := hist.(erased := hist.erased + gone);
      clock := now;
    }

    /** The channel's deliveries lose their channel but stay, whatever they recorded. */
    method RemoveChannel(c: ChannelId)
      requires c in channels
      modifies this
      ensures View() == DeleteChannel(old(View()), c)
      ensures forall s :: s in old(deliveries) ==>
                            (s.channel != c && s in deliveries && deliveries[s] == old(deliveries)[s])
                            || (s.channel == c && s in audit && audit[s] == old(deliveries)[s])
    {
      var moved := map s | s in deliveries && s.channel == c :: deliveries[s];
      audit := audit + moved;
      deliveries := deliveries - moved.Keys;
      subs := map s | s in subs && s.channel != c :: subs[s];
      channels := channels - {c};
      hist := hist.(retired := hist.retired + {c});
    }

    // -------------------------------------------------------------- collection

    /** Handling one item whose record has been built. */
    method StoreItem(r: ChargeRecord, prev: Option<Time>, a: Arrival) returns (fate: Fate)
      modifies this
      ensures View() == AbsorbDb(old(View()), r, prev, a)
      ensures fate == FateOf(old(View()), r)
    {
      var rs := RecordSlot(r.account, r.recordKey);
      if rs in records {
        records := records[rs := Enrich(records[rs], r)];
        clock := a.queuedAt;
        return Known;
      }
      if EventIdTaken(records, r.account, r.eventId) {
        clock := a.queuedAt;
        return Conflict;
      }
      var eligible := prev.Some? && r.chargedAt > prev.value;
      records := records[rs := r.(eligible := eligible, created := a.storedAt)];
      hist := hist.(baseline := hist.baseline[rs := prev]);
      clock := a.queuedAt;
      if eligible {
        var _ := EnqueueEvent(ChargeKey(r), NewCharge, NewChargePayload(r), a.queuedAt);
      }
      return Fresh;
    }

    /** The items of one page, from the counters `start` the run has reached. The loop ends
        early, with everything stored so far kept, when an item cannot be parsed. */
    method CollectPage(user: UserId, account: AccountId, prev: Option<Time>, items: seq<RawArrival>, start: Counters)
      returns (counters: Counters, times: seq<Time>, raised: bool)
      modifies this
      ensures start.inserted <= counters.inserted
      ensures ScanItems(start.At(old(View())), prev, BuildPage(user, account, items))
              == Scan(counters.At(View()), counters.inserted - start.inserted, times, raised)
    {
      counters, times, raised := start, [], false;
      ghost var p0 := start.At(View());
      ghost var built := BuildPage(user, account, items);
      hide BuildChargeRecord, AbsorbDb, ScanItems;
      NothingScanned(p0, prev, built);
      var i := 0;
      while i < |items|
        invariant 0 <= i <= |items| && !raised && start.inserted <= counters.inserted
        invariant ScanItems(p0, prev, built[..i])
                  == Scan(counters.At(View()), counters.inserted - start.inserted, times, false)
      {
        var record := BuildChargeRecord(user, account, items[i].item);
        assert built[i] == Arrival(record, items[i].storedAt, items[i].queuedAt);
        ScanNext(p0, prev, built, i);
        counters := counters.(seen := counters.seen + 1);
        if record.None? {
          raised := true;
          ScanStopped(p0, prev, built, i + 1);
          return;
        }
        var r := record.value;
        times := times + [r.chargedAt];
        counters := counters.(newest := Some(MaxTime(counters.newest, r.chargedAt)));
        var fate := StoreItem(r, prev, Arrival(record, items[i].storedAt, items[i].queuedAt));
        if fate == Fresh {
          counters := counters.(inserted := counters.inserted + 1);
          if !Eligible(prev, r.chargedAt) {
            counters := counters.(suppressed := counters.suppressed + 1);
          }
        } else {
          counters := counters.(duplicates := counters.duplicates + 1);
        }
        i := i + 1;
      }
      assert built[..i] == built;
    }

    method MaxOfTimes(times: seq<Time>) returns (m: Time)
      requires times != []
      ensures m == MaxOf(times)
      ensures m in times && forall t :: t in times ==> t <= m
    {
      m := times[0];
      assert times[..1] == [times[0]];
      var i := 1;
      while i < |times|
        invariant 1 <= i <= |times|
        invariant m == MaxOf(times[..i])
        invariant m in times && forall j :: 0 <= j < i ==> times[j] <= m
      {
        assert times[..i + 1][..i] == times[..i];
        if times[i] > m {
          m := times[i];
        }
        i := i + 1;
      }
      assert times[..i] == times;
    }

    /** A collection run. `fetches` holds what each of the hundred page requests would lead to;
        the loop makes no request after the one that stops it. */
    method CollectLocked(account: AccountId, fetches: seq<RawFetch>, runId: nat,
            endAt: Time) returns (outcome: CollectionOutcome)
      requires account in accounts && |fetches| == MAX_PAGES
      modifies this
      ensures View() == Collect(old(View()), account,
                                BuildFetches(old(accounts)[account].user, account, fetches), runId, endAt)
      ensures var run := TakePages(old(View()), old(accounts)[account].watermark,
                                   BuildFetches(old(accounts)[account].user, account, fetches));
              outcome == if run.phase.Failed? then (if run.phase.auth then AuthenticationRaised else ErrorRaised)
              else Collected(run.pages, run.p.seen, run.p.inserted, run.p.duplicates, run.p.suppressed)
    {
      var user, prev := accounts[account].user, accounts[account].watermark;
      ghost var was := View();
      ghost var built := BuildFetches(user, account, fetches);
      var counters, pages, known, phase := Counters(0, 0, 0, 0, prev), 0, 0, Going;
      var page := 0;
      hide ScanItems, TakePages, BuildPage, BuildFetches;
      NothingTaken(was, prev, built);
      while page < MAX_PAGES && phase == Going
        invariant 0 <= page <= MAX_PAGES
        invariant TakePages(was, prev, built[..page]) == Run(counters.At(View()), pages, known, phase)
        decreases MAX_PAGES - page
      {
        TakeNext(was, prev, built, page);
        counters, pages, known, phase := CollectNext(user, account, prev, fetches[page], counters, pages, known);
        page := page + 1;
      }
      LoopEnds(was, prev, built, page);
      PagesOnlyCollect(was, prev, built);
      ghost var run := TakePages(was, prev, built);
      assert run == Run(counters.At(View()), pages, known, phase);
      Finish(account, run, runId, endAt, phase, counters.newest);
      outcome := match phase
        case Failed(auth) => if auth then AuthenticationRaised else ErrorRaised
        case _ => Collected(pages, counters.seen, counters.inserted, counters.duplicates, counters.suppressed);
    }

    /** One turn of the page loop. */
    method CollectNext(user: UserId, account: AccountId, prev: Option<Time>, f: RawFetch, counters: Counters,
            pages: nat, known: nat)
      returns (counters': Counters, pages': nat, known': nat, phase: Phase)
      modifies this
      ensures Run(counters'.At(View()), pages', known', phase)
              == TakePage(Run(counters.At(old(View())), pages, known, Going), prev, BuildFetch(user, account, f))
    {
      hide ScanItems, BuildPage;
      counters', pages', known', phase := counters, pages, known, Going;
      match f {
        case RawRequestFailed =>
          phase := Failed(false);
        case RawAuthExpired =>
          phase := Failed(true);
        case RawPage(items, hasMore) =>
          var times, raised;
          counters', times, raised := CollectPage(user, account, prev, items, counters);
          pages' := pages + 1;
          if raised {
            phase := Failed(false);
          } else {
            var isKnown := counters'.inserted == counters.inserted && prev.Some? && times != [];
            if isKnown {
              var m := MaxOfTimes(times);
              isKnown := m <= prev.value;
            }
            known' := if isKnown then known + 1 else 0;
            if !hasMore || known' >= 2 {
              phase := Broke;
            }
          }
      }
    }

    /** The end of a run: the watermark moves, or the failure is announced. */
    method Finish(account: AccountId, ghost run: Run, runId: nat, endAt: Time, phase: Phase, newest: Option<Time>)
      requires run.p.db == View() && run.phase == phase && run.p.newest == newest && account in accounts
      modifies this
      ensures View() == Conclude(run, account, runId, endAt)
    {
      hide Enqueue;
      var acc := accounts[account];
      match phase {
        case Failed(auth) =>
          accounts := accounts[account := if auth then acc.(active := false) else acc];
          if auth {
            var _ := EnqueueEvent(EventKey(acc.user, CookieTopic(account)), CookieExpired, Details("account"), endAt);
          }
          var _ := EnqueueEvent(EventKey(acc.user, RunTopic(runId)), CollectionFailed, Details("account"), endAt);
        case _ =>
          accounts := accounts[account := acc.(watermark := newest, lastChecked := Some(endAt))];
          clock := endAt;
      }
    }
  }

  // ---------------------------------------------------------------- lemmas for the loops

  lemma TurnsSnoc(ds: map<Slot, Delivery>, k: EventKey, rows: seq<ChannelId>, sends: seq<Send>, i: nat)
    requires |rows| == |sends| && i < |rows|
    ensures TakeTurns(ds, k, rows[..i + 1], sends[..i + 1])
              == TakeTurn(TakeTurns(ds, k, rows[..i], sends[..i]), k, rows[i], sends[i])
  {
    hide TakeTurn;
    assert rows[..i + 1][..i] == rows[..i] && sends[..i + 1][..i] == sends[..i];
  }

  /** How many of the events have a status. */
  ghost function CountEnded(outbox: map<EventKey, Event>, ks: seq<EventKey>, status: EventStatus): nat
    requires forall k :: k in ks ==> k in outbox
  {
    if ks == [] then 0
    else
      var n := |ks| - 1;
      assert forall k :: k in ks[..n] ==> k in ks;
      CountEnded(outbox, ks[..n], status) + (if outbox[ks[n]].status == status then 1 else 0)
  }

  lemma {:induction false} CountFrame(before: map<EventKey, Event>, after: map<EventKey, Event>, ks: seq<EventKey>,
          status: EventStatus)
    requires forall k :: k in ks ==> k in before && k in after && after[k] == before[k]
    ensures CountEnded(after, ks, status) == CountEnded(before, ks, status)
  {
    if ks != [] {
      var n := |ks| - 1;
      assert forall k :: k in ks[..n] ==> k in ks;
      CountFrame(before, after, ks[..n], status);
    }
  }

  lemma EndedSnoc(before: map<EventKey, Event>, after: map<EventKey, Event>, batch: seq<EventKey>, i: nat,
          status: EventStatus)
    requires i < |batch| && Distinct(batch)
    requires forall k :: k in batch ==> k in before && k in after
    requires forall k :: k in before && k != batch[i] ==> k in after && after[k] == before[k]
    ensures CountEnded(after, batch[..i + 1], status) ==
            CountEnded(before, batch[..i], status) + (if after[batch[i]].status == status then 1 else 0)
  {
    assert batch[..i + 1][..i] == batch[..i];
    assert batch[i] !in batch[..i];
    CountFrame(before, after, batch[..i], status);
  }

  /** Events selected together, and a pass for each. */
  ghost predicate Batchable(db: Db, batch: seq<EventKey>, passes: seq<Pass>) {
    && Distinct(batch) && |batch| == |passes|
    && (forall k :: k in batch ==> k in db.outbox && db.outbox[k].attempts < MAX_ATTEMPTS)
    && (forall j :: 0 <= j < |passes| ==> |passes[j].rows| == |passes[j].sends|)
  }

  /** Where the loop over a batch stands after `i` events, with its two counts. */
  ghost predicate Tallied(was: Db, now: Db, batch: seq<EventKey>, passes: seq<Pass>, i: nat, succeeded: nat,
          failed: nat)
    requires Batchable(was, batch, passes)
  {
    && i <= |batch|
    && now == DeliverAll(was, batch[..i], passes[..i])
    && (forall j :: i <= j < |batch| ==> now.outbox[batch[j]] == was.outbox[batch[j]])
    && succeeded == CountEnded(now.outbox, batch[..i], EvDelivered)
    && failed == CountEnded(now.outbox, batch[..i], EvFailed)
  }

  lemma NoneTallied(was: Db, batch: seq<EventKey>, passes: seq<Pass>)
    requires Batchable(was, batch, passes)
    ensures Tallied(was, was, batch, passes, 0, 0, 0)
  {
    NoneDelivered(was, batch[..0], passes[..0]);
    hide DeliverAll, Distinct;
    NoneEnded(was.outbox, batch);
  }

  lemma AllTallied(was: Db, now: Db, batch: seq<EventKey>, passes: seq<Pass>, succeeded: nat, failed: nat)
    requires Batchable(was, batch, passes) && Tallied(was, now, batch, passes, |batch|, succeeded, failed)
    ensures forall k :: k in batch ==> k in now.outbox
    ensures now == DeliverAll(was, batch, passes)
    ensures succeeded == CountEnded(now.outbox, batch, EvDelivered) && failed == CountEnded(now.outbox, batch, EvFailed)
  {
    hide DeliverAll, CountEnded, Distinct;
    assert batch[..|batch|] == batch && passes[..|batch|] == passes;
  }

  lemma NextIsFresh(was: Db, now: Db, batch: seq<EventKey>, passes: seq<Pass>, i: nat, succeeded: nat, failed: nat)
    requires Batchable(was, batch, passes) && Tallied(was, now, batch, passes, i, succeeded, failed) && i < |batch|
    ensures |passes| == |batch| && |passes[i].rows| == |passes[i].sends|
    ensures batch[i] in now.outbox && now.outbox[batch[i]].attempts < MAX_ATTEMPTS
  {
    hide DeliverAll, CountEnded, Distinct;
    assert batch[i] in batch;
  }

  lemma TallyTurn(was: Db, now: Db, after: Db, batch: seq<EventKey>, passes: seq<Pass>, i: nat, succeeded: nat,
          failed: nat)
    requires Batchable(was, batch, passes) && Tallied(was, now, batch, passes, i, succeeded, failed) && i < |batch|
    requires batch[i] in now.outbox && |passes[i].rows| == |passes[i].sends| && after == Deliver(now, batch[i], passes[i])
    ensures batch[i] in after.outbox
    ensures Tallied(was, after, batch, passes, i + 1,
                    if after.outbox[batch[i]].status == EvDelivered then succeeded + 1 else succeeded,
                    if after.outbox[batch[i]].status == EvFailed then failed + 1 else failed)
  {
    DeliverAllSnoc(was, batch, passes, i);
    PassFrameAt(now, batch[i], passes[i]);
    assert forall j :: i < j < |batch| ==> batch[j] != batch[i] && batch[j] in batch;
    hide Deliver, DeliverAll, CountEnded;
    EndedSnoc(now.outbox, after.outbox, batch, i, EvDelivered);
    EndedSnoc(now.outbox, after.outbox, batch, i, EvFailed);
  }

  lemma NoneEnded(outbox: map<EventKey, Event>, batch: seq<EventKey>)
    requires forall k :: k in batch ==> k in outbox
    ensures CountEnded(outbox, batch[..0], EvDelivered) == CountEnded(outbox, batch[..0], EvFailed) == 0
  {
  }

  lemma NoneDelivered(db: Db, batch: seq<EventKey>, passes: seq<Pass>)
    requires batch == [] && passes == []
    ensures DeliverAll(db, batch, passes) == db
  {
  }

  /** The next pass of a batch. */
  lemma DeliverAllSnoc(db: Db, batch: seq<EventKey>, passes: seq<Pass>, i: nat)
    requires |batch| == |passes| && i < |batch|
    requires forall k :: k in batch ==> k in db.outbox
    requires forall j :: 0 <= j < |passes| ==> |passes[j].rows| == |passes[j].sends|
    ensures batch[i] in DeliverAll(db, batch[..i], passes[..i]).outbox
    ensures DeliverAll(db, batch[..i + 1], passes[..i + 1])
              == Deliver(DeliverAll(db, batch[..i], passes[..i]), batch[i], passes[i])
  {
    hide Deliver;
    assert batch[..i + 1][..i] == batch[..i] && passes[..i + 1][..i] == passes[..i];
  }

  lemma SettleAgain(db: Db, k: EventKey, t: Tally, endAt: Time)
    requires k in db.outbox
    ensures Settle(db.(deliveries := t.deliveries), k, t, endAt) == Settle(db, k, t, endAt)
  {
  }

  lemma SettleOutbox(db: Db, k: EventKey, t: Tally, endAt: Time)
    requires k in db.outbox
    ensures Settle(db, k, t, endAt).outbox == db.outbox[k := Verdict(db.outbox[k], t.failures, endAt)]
  {
    hide Verdict;
  }

  /** How one pass moves the outbox. */
  lemma PassFrameAt(db: Db, k: EventKey, p: Pass)
    requires k in db.outbox && |p.rows| == |p.sends|
    ensures Deliver(db, k, p).outbox.Keys == db.outbox.Keys
    ensures forall j :: j in db.outbox && j != k ==> Deliver(db, k, p).outbox[j] == db.outbox[j]
    ensures Deliver(db, k, p).outbox[k].status == EvFailed ==> Deliver(db, k, p).outbox[k].attempts >= MAX_ATTEMPTS
  {
    hide TakeTurns, Settle, Backoff;
    if p.rows != [] {
      SettleOutbox(db, k, TakeTurns(db.deliveries, k, p.rows, p.sends), p.endAt);
    }
  }

  /** Items after the one that raised are not looked at. */
  lemma {:induction false} ScanStopped(p: Progress, prev: Option<Time>, items: seq<Arrival>, i: nat)
    requires i <= |items| && ScanItems(p, prev, items[..i]).raised
    ensures ScanItems(p, prev, items) == ScanItems(p, prev, items[..i])
    decreases |items| - i
  {
    if i == |items| {
      assert items[..i] == items;
    } else {
      assert items[..i + 1][..i] == items[..i];
      ScanStopped(p, prev, items, i + 1);
    }
  }

  /** Pages after the one that ended the loop are not requested. */
  lemma {:induction false} LoopEnds(db: Db, prev: Option<Time>, fetches: seq<Fetch>, i: nat)
    requires i <= |fetches| && (i == |fetches| || TakePages(db, prev, fetches[..i]).phase != Going)
    ensures TakePages(db, prev, fetches) == TakePages(db, prev, fetches[..i])
    decreases |fetches| - i
  {
    if i == |fetches| {
      assert fetches[..i] == fetches;
    } else {
      assert fetches[..i + 1][..i] == fetches[..i];
      LoopEnds(db, prev, fetches, i + 1);
    }
  }

  lemma NothingScanned(p: Progress, prev: Option<Time>, items: seq<Arrival>)
    ensures ScanItems(p, prev, items[..0]) == Scan(p, 0, [], false)
  {
  }

  /** The next item of a page. */
  lemma ScanNext(p: Progress, prev: Option<Time>, items: seq<Arrival>, i: nat)
    requires i < |items| && !ScanItems(p, prev, items[..i]).raised
    ensures ScanItems(p, prev, items[..i + 1]) ==
            var s := ScanItems(p, prev, items[..i]);
            match items[i].built
            case None => s.(p := s.p.(seen := s.p.seen + 1), raised := true)
            case Some(r) =>
              var p' := Absorb(s.p, r, prev, items[i]);
              Scan(p', s.pageInserted + p'.inserted - s.p.inserted, s.times + [r.chargedAt], false)
  {
    hide Absorb;
    assert items[..i + 1][..i] == items[..i];
  }

  lemma NothingTaken(db: Db, prev: Option<Time>, fetches: seq<Fetch>)
    ensures TakePages(db, prev, fetches[..0]) == Start(db, prev)
  {
  }

  /** The next page of a run. */
  lemma TakeNext(db: Db, prev: Option<Time>, fetches: seq<Fetch>, i: nat)
    requires i < |fetches| && TakePages(db, prev, fetches[..i]).phase == Going
    ensures TakePages(db, prev, fetches[..i + 1]) == TakePage(TakePages(db, prev, fetches[..i]), prev, fetches[i])
  {
    hide TakePage;
    assert fetches[..i + 1][..i] == fetches[..i];
  }
}
