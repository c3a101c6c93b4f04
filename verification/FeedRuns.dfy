/** Nothing is lost over whole runs: collections, succeeding or failing, interleaved with
    everything else the pipeline does, while the feed grows. */
module FeedRuns {
  import opened Common
  import opened Charges
  import opened Pipeline
  import opened DeliveryPass
  import opened Reconciliation
  import opened Collection
  import opened Feed
  import opened Invariants
  import opened Machine
  import opened Stalls

  /** An account's records stay, and it keeps its owner and its watermark. */
  ghost predicate KeepsRecords(db: Db, db': Db, account: AccountId) {
    && (forall rs :: rs in db.records && rs.account == account ==> rs in db'.records)
    && (account in db.accounts ==>
          account in db'.accounts
          && db'.accounts[account].user == db.accounts[account].user
          && db'.accounts[account].watermark == db.accounts[account].watermark)
  }

  lemma DeliverKeepsRecords(db: Db, k: EventKey, p: Pass)
    requires k in db.outbox && |p.rows| == |p.sends|
    ensures Deliver(db, k, p).records == db.records && Deliver(db, k, p).accounts == db.accounts
  {
    DeliverFrame(db, k, p);
  }

  lemma ReconcileKeepsRecords(db: Db, batch: seq<ChargeRecord>, now: Time, reps: seq<Repair>)
    requires RepairsOk(db, batch, reps)
    ensures ReconcileAll(db, batch, now, reps).records == db.records
    ensures ReconcileAll(db, batch, now, reps).accounts == db.accounts
  {
    RunRepairs(db, batch, now, reps);
    hide ReconcileAll;
  }

  lemma EnqueueKeepsRecords(db: Db, k: EventKey, t: EventType, p: Payload, at: Time)
    ensures Enqueue(db, k, t, p, at).records == db.records && Enqueue(db, k, t, p, at).accounts == db.accounts
  {
    EnqueueOnlyCollects(db, k, t, p, at);
  }

  lemma {:induction false} BatchKeepsRecords(db: Db, batch: seq<EventKey>, passes: seq<Pass>)
    requires PassesOk(db, batch, passes)
    requires forall i :: 0 <= i < |passes| ==> |passes[i].rows| == |passes[i].sends|
    ensures DeliverAll(db, batch, passes).records == db.records
    ensures DeliverAll(db, batch, passes).accounts == db.accounts
  {
    if batch != [] {
      var n := |batch| - 1;
      BatchKeepsRecords(db, batch[..n], passes[..n]);
      DeliverKeepsRecords(DeliverAll(db, batch[..n], passes[..n]), batch[n], passes[n]);
      hide Deliver;
    }
  }

  /** Collecting for another account. */
  lemma OtherCollectKeepsRecords(db: Db, other: AccountId, fetches: seq<Fetch>, runId: nat, endAt: Time,
          account: AccountId)
    requires other in db.accounts && other != account
    ensures KeepsRecords(db, Collect(db, other, fetches, runId, endAt), account)
  {
    hide TakePages, Conclude;
    PagesOnlyCollect(db, db.accounts[other].watermark, fetches);
    ConcludeFrame(TakePages(db, db.accounts[other].watermark, fetches), other, runId, endAt);
  }

  lemma StepKeepsRecords(cfg: Settings, db: Db, step: Step, account: AccountId)
    requires Possible(cfg, db, step)
    requires !(step.Collecting? && step.account == account) && !(step.UnbindingAccount? && step.account == account)
    ensures KeepsRecords(db, Next(cfg, db, step), account)
  {
    hide Enqueue, DeliverAll, ReconcileAll, Deliver, Collect, KeepsRecords, TakePages, TestReady;
    hide FetchesTimely, FetchesBuilt, Selected, Scanned, RepairsTimely, PassOk, Bind, Unbind, RetryDelivery, CleanUp;
    match step
    case Collecting(acc, fetches, runId, endAt) => OtherCollectKeepsRecords(db, acc, fetches, runId, endAt, account);
    case Processing(scope, now, batch, passes) =>
      PassesAreAligned(db.(clock := now), batch, passes);
      BatchKeepsRecords(db.(clock := now), batch, passes);
      SameRecords(db, Next(cfg, db, step), account);
    case Passing(k, p) =>
      PassIsAligned(db, k, p);
      DeliverKeepsRecords(db, k, p);
      SameRecords(db, Next(cfg, db, step), account);
    case Reconciling(scope, now, records, reps) =>
      ReconcileKeepsRecords(db.(clock := now), records, now, reps);
      SameRecords(db, Next(cfg, db, step), account);
    case Announcing(j, t, p, at) =>
      EnqueueKeepsRecords(db, j, t, p, at);
      SameRecords(db, Next(cfg, db, step), account);
    case Retrying(user, slot, now) => RetryKeepsRecords(db, user, slot, now, account);
    case CleaningUp(now) => CleanUpKeepsRecords(db, cfg.retentionDays, now, account);
    case TestingChannel(c, name, at, pass) =>
      TestKeyReady(db, c, name, at);
      TestIsAligned(db, c, name, at, pass);
      TestKeepsRecords(db, c, name, at, pass);
      SameRecords(db, Next(cfg, db, step), account);
    case BindingAccount(a, user) => BindKeepsRecords(db, a, user, account);
    case UnbindingAccount(a) => UnbindKeepsRecords(db, a, account);
    case AddingChannel(_, _, _) => SameRecords(db, Next(cfg, db, step), account);
    case EnablingChannel(_, _) => SameRecords(db, Next(cfg, db, step), account);
    case Subscribing(_) => SameRecords(db, Next(cfg, db, step), account);
    case DeletingChannel(_) => SameRecords(db, Next(cfg, db, step), account);
  }

  lemma SameRecords(db: Db, db': Db, account: AccountId)
    requires db'.records == db.records && db'.accounts == db.accounts
    ensures KeepsRecords(db, db', account)
  {
  }

  lemma PassIsAligned(db: Db, k: EventKey, p: Pass)
    requires k in db.outbox && PassOk(db, k, None, p)
    ensures |p.rows| == |p.sends|
  {
  }

  lemma TestKeyReady(db: Db, c: ChannelId, name: string, at: Time)
    requires c in db.channels
    ensures TestKey(db, c, name) in TestReady(db, c, name, at).outbox
  {
  }

  lemma TestIsAligned(db: Db, c: ChannelId, name: string, at: Time, p: Pass)
    requires c in db.channels && TestKey(db, c, name) in TestReady(db, c, name, at).outbox
    requires PassOk(TestReady(db, c, name, at), TestKey(db, c, name), Some(c), p)
    ensures |p.rows| == |p.sends|
  {
  }

  lemma RetryKeepsRecords(db: Db, user: UserId, slot: Slot, now: Time, account: AccountId)
    ensures KeepsRecords(db, RetryDelivery(db, user, slot, now), account)
  {
    var done := RetryCheck(db, user, slot) == Queued;
    hide RetryCheck;
    if done {
    } else {
    }
  }

  lemma CleanUpKeepsRecords(db: Db, retentionDays: nat, now: Time, account: AccountId)
    ensures KeepsRecords(db, CleanUp(db, retentionDays, now), account)
  {
    hide Outdated, Surviving;
  }

  lemma BindKeepsRecords(db: Db, a: AccountId, user: UserId, account: AccountId)
    requires a in db.accounts ==> db.accounts[a].user == user
    ensures KeepsRecords(db, Bind(db, a, user), account)
  {
  }

  lemma UnbindKeepsRecords(db: Db, a: AccountId, account: AccountId)
    requires a != account
    ensures KeepsRecords(db, Unbind(db, a), account)
  {
  }

  lemma TestKeepsRecords(db: Db, c: ChannelId, name: string, at: Time, pass: Pass)
    requires c in db.channels && TestKey(db, c, name) !in db.outbox && |pass.rows| == |pass.sends|
    ensures Deliver(TestReady(db, c, name, at), TestKey(db, c, name), pass).records == db.records
    ensures Deliver(TestReady(db, c, name, at), TestKey(db, c, name), pass).accounts == db.accounts
  {
    hide Deliver;
    EnqueueOnlyCollects(db, TestKey(db, c, name), ScheduledJobFailed, Details("test"), at);
    DeliverKeepsRecords(TestReady(db, c, name, at), TestKey(db, c, name), pass);
  }

  /** How far the feed has grown when a step ends, and at each fetch it made. */
  datatype Mark = Mark(lens: seq<nat>, after: nat)

  /** The steps lead from `db` to `db'`, the account bound all along, while the feed grows from `n` to `n'`. What arrives during a
      step is later than what was there before it; between collections, several charges may arrive in
      one second. No collection for the account ran out of pages; one that stopped by itself fetched
      from the feed as it was at the time, and found what arrived meanwhile in different seconds; one
      that failed may have met anything. */
  ghost predicate LeadsWithFeed(cfg: Settings, db: Db, steps: seq<Step>, marks: seq<Mark>, account: AccountId,
          feed: seq<ChargeRecord>, n: nat, db': Db, n': nat)
    decreases |steps|
  {
    if steps == [] then marks == [] && db' == db && n' == n
    else
      && marks != [] && n <= marks[0].after <= |feed| && Later(feed[..marks[0].after], n)
      && Possible(cfg, db, steps[0]) && !(steps[0].UnbindingAccount? && steps[0].account == account)
      && (steps[0].Collecting? && steps[0].account == account ==>
            var phase := TakePages(db, db.accounts[account].watermark, steps[0].fetches).phase;
            && phase != Going
            && (phase == Broke ==> FetchedWhole(db, steps[0], marks[0], account, feed, n)))
      && LeadsWithFeed(cfg, Next(cfg, db, steps[0]), steps[1..], marks[1..], account, feed, marks[0].after, db', n')
  }

  ghost predicate FetchedWhole(db: Db, step: Step, mark: Mark, account: AccountId, feed: seq<ChargeRecord>, n: nat)
    requires step.Collecting? && account in db.accounts && n <= mark.after <= |feed|
  {
    && Fetched(step.fetches, feed[..mark.after], n, mark.lens)
    && FeedOk(feed[..mark.after], db.accounts[account].user, account, n)
  }

  lemma GrowthKeepsCaught(db: Db, w: Option<Time>, feed: seq<ChargeRecord>, n: nat, n': nat)
    requires n <= n' <= |feed| && Later(feed[..n'], n)
    requires forall i, j :: 0 <= i < j < |feed| ==> feed[i].chargedAt <= feed[j].chargedAt
    requires Caught(db, w, feed, n)
    ensures Caught(db, w, feed, n')
  {
    if w.Some? {
      forall i | n <= i < n'
        ensures feed[i].chargedAt > w.value
      {
        assert feed[..n'][n - 1].chargedAt < feed[..n'][i].chargedAt;
      }
    }
  }

  /** One collection for the account. */
  lemma CollectKeepsCaught(db: Db, step: Step, lens: seq<nat>, account: AccountId, feed: seq<ChargeRecord>, n: nat)
    requires step.Collecting? && step.account == account && account in db.accounts && Aligned(db.records)
    requires FeedOk(feed, db.accounts[account].user, account, |feed|) && n <= |feed| && Later(feed, n)
    requires Caught(db, db.accounts[account].watermark, feed, n)
    requires TakePages(db, db.accounts[account].watermark, step.fetches).phase != Going
    requires TakePages(db, db.accounts[account].watermark, step.fetches).phase == Broke ==>
               Fetched(step.fetches, feed, n, lens) && FeedOk(feed, db.accounts[account].user, account, n)
    ensures var db' := Collect(db, account, step.fetches, step.runId, step.endAt);
            && account in db'.accounts && db'.accounts[account].user == db.accounts[account].user
            && Caught(db', db'.accounts[account].watermark, feed, |feed|)
  {
    hide TakePages, Conclude, FeedOk, Fetched, Aligned, Later;
    CollectLosesNothing(db, account, step.fetches, step.runId, step.endAt, feed, n, lens);
    PagesOnlyCollect(db, db.accounts[account].watermark, step.fetches);
    ConcludeFrame(TakePages(db, db.accounts[account].watermark, step.fetches), account, step.runId, step.endAt);
    hide OnlyCollects, Caught;
  }

  /** What is known of a feed is known of its beginning. */
  lemma CaughtPrefix(db: Db, w: Option<Time>, feed: seq<ChargeRecord>, n: nat, n': nat)
    requires n <= n' <= |feed|
    ensures Caught(db, w, feed[..n'], n) <==> Caught(db, w, feed, n)
  {
    assert forall i :: 0 <= i < n ==> feed[..n'][i] == feed[i];
  }

  lemma FeedOkPrefix(feed: seq<ChargeRecord>, user: UserId, account: AccountId, n: nat)
    requires FeedOk(feed, user, account, |feed|) && n <= |feed|
    ensures FeedOk(feed[..n], user, account, n)
  {
    assert forall i :: 0 <= i < n ==> feed[..n][i] == feed[i];
  }

  /** What is stored of the account's feed stays stored. */
  lemma KeptStaysCaught(db: Db, db': Db, account: AccountId, w: Option<Time>, feed: seq<ChargeRecord>, n: nat)
    requires n <= |feed| && Caught(db, w, feed, n) && KeepsRecords(db, db', account)
    requires forall i :: 0 <= i < |feed| ==> feed[i].account == account
    ensures Caught(db', w, feed, n)
  {
  }

  /** One step. */
  lemma StepKeepsCaught(cfg: Settings, db: Db, step: Step, mark: Mark, account: AccountId, feed: seq<ChargeRecord>, n: nat)
    requires Inv(db) && Possible(cfg, db, step) && account in db.accounts
    requires !(step.UnbindingAccount? && step.account == account)
    requires n <= mark.after <= |feed| && FeedOk(feed, db.accounts[account].user, account, |feed|)
    requires Later(feed[..mark.after], n) && Caught(db, db.accounts[account].watermark, feed, n)
    requires step.Collecting? && step.account == account ==>
               var phase := TakePages(db, db.accounts[account].watermark, step.fetches).phase;
               && phase != Going
               && (phase == Broke ==> FetchedWhole(db, step, mark, account, feed, n))
    ensures var db' := Next(cfg, db, step);
            && account in db'.accounts && db'.accounts[account].user == db.accounts[account].user
            && Caught(db', db'.accounts[account].watermark, feed, mark.after)
  {
    hide TakePages, Fetched, Collect, Later;
    var n' := mark.after;
    if step.Collecting? && step.account == account {
      InvGivesAligned(db);
      FeedOkPrefix(feed, db.accounts[account].user, account, n');
      hide Inv, Caught, FetchesTimely, FetchesBuilt, FeedOk;
      CaughtPrefix(db, db.accounts[account].watermark, feed, n, n');
      CollectKeepsCaught(db, step, mark.lens, account, feed[..n'], n);
      var db' := Collect(db, account, step.fetches, step.runId, step.endAt);
      CaughtPrefix(db', db'.accounts[account].watermark, feed, n', n');
    } else {
      GrowthKeepsCaught(db, db.accounts[account].watermark, feed, n, n');
      hide Inv, FetchedWhole, Possible, Next;
      StepKeepsRecords(cfg, db, step, account);
      KeptStaysCaught(db, Next(cfg, db, step), account, db.accounts[account].watermark, feed, n');
    }
  }

  /** Over every run in which no collection runs out of pages: no charge of the feed that is
      not newer than its account's watermark is ever missing from the records. */
  lemma {:induction false} NothingIsLost(cfg: Settings, db: Db, steps: seq<Step>, marks: seq<Mark>, account: AccountId,
          feed: seq<ChargeRecord>, n: nat, db': Db, n': nat)
    requires cfg.Valid() && Inv(db) && account in db.accounts
    requires n <= |feed| && FeedOk(feed, db.accounts[account].user, account, |feed|)
    requires Caught(db, db.accounts[account].watermark, feed, n)
    requires LeadsWithFeed(cfg, db, steps, marks, account, feed, n, db', n')
    ensures n' <= |feed| && account in db'.accounts
    ensures Caught(db', db'.accounts[account].watermark, feed, n')
    decreases |steps|
  {
    hide Inv, Possible, Next, Caught, FetchedWhole, TakePages, Later, FeedOk;
    if steps != [] {
      StepKeepsInv(cfg, db, steps[0]);
      StepKeepsCaught(cfg, db, steps[0], marks[0], account, feed, n);
      NothingIsLost(cfg, Next(cfg, db, steps[0]), steps[1..], marks[1..], account, feed, marks[0].after, db', n');
    }
  }
}
