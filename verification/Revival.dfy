/** What can bring an event back: runs in which it is sent again, and when there are any. */
module Revival {
  import opened Common
  import opened Charges
  import opened Pipeline
  import opened DeliveryPass
  import opened Invariants
  import opened Machine
  import opened Theorems
  import opened Stalls

  /** A run continued by one step. */
  lemma {:induction false} LeadsOn(cfg: Settings, db: Db, steps: seq<Step>, mid: Db, step: Step)
    requires Leads(cfg, db, steps, mid) && Possible(cfg, mid, step)
    ensures Leads(cfg, db, steps + [step], Next(cfg, mid, step))
    decreases |steps|
  {
    hide Possible, Next;
    if steps == [] {
      assert steps + [step] == [step] && [step][1..] == [];
      assert Leads(cfg, Next(cfg, mid, step), [], Next(cfg, mid, step));
    } else {
      assert (steps + [step])[1..] == steps[1..] + [step];
      LeadsOn(cfg, Next(cfg, db, steps[0]), steps[1..], mid, step);
    }
  }

  // ---------------------------------------------------------------- one send

  lemma {:induction false} Enumerated(channels: set<ChannelId>) returns (rows: seq<ChannelId>)
    ensures Distinct(rows) && Elements(rows) == channels
    decreases |channels|
  {
    rows := [];
    if c :| c in channels {
      var rest := Enumerated(channels - {c});
      assert c !in Elements(rest);
      rows := rest + [c];
      assert Elements(rows) == Elements(rest) + {c};
    }
  }

  /** A pass over the event in which every send succeeds at once. */
  lemma QuickPass(db: Db, k: EventKey) returns (p: Pass)
    requires k in db.outbox
    ensures PassOk(db, k, None, p)
    ensures forall i :: 0 <= i < |p.sends| ==> p.sends[i] == Send(db.clock, db.clock, true)
  {
    hide Targets;
    var rows := Enumerated(Targets(db, k, None));
    p := Pass(rows, seq(|rows|, i => Send(db.clock, db.clock, true)), db.clock);
  }

  /** It sends to every matching channel that has no success and whose delivery, if any, is due. */
  lemma PassSendsTo(db: Db, k: EventKey, p: Pass, c: ChannelId)
    requires k in db.outbox && PassOk(db, k, None, p) && Matches(db, k.user, db.outbox[k].eventType, c)
    requires forall i :: 0 <= i < |p.sends| ==> p.sends[i] == Send(db.clock, db.clock, true)
    requires !Won(Get(db.deliveries, Slot(k, c))) && !Waiting(Get(db.deliveries, Slot(k, c)), db.clock)
    ensures Deliver(db, k, p).hist.sent[Slot(k, c)] == db.hist.sent[Slot(k, c)] + 1
    ensures Deliver(db, k, p).hist.won[Slot(k, c)] == db.hist.won[Slot(k, c)] + 1
  {
    hide Deliver;
    var r, w := Reached(db.deliveries, k, p.rows, p.sends), WonNow(db.deliveries, k, p.rows, p.sends);
    DeliverSlots(db, k, None, p, r, w);
    assert c in Elements(p.rows);
    var i :| 0 <= i < |p.rows| && p.rows[i] == c;
    ReachedAt(db.deliveries, k, p.rows, p.sends, i);
    hide Reached, WonNow;
  }

  /** An event that waits, a channel of its owner without a success, and nothing to wait for. */
  ghost predicate Sendable(db: Db, k: EventKey, c: ChannelId) {
    && k in db.outbox && Selectable(db.outbox[k], db.clock)
    && c in db.channels && db.channels[c].user == k.user
    && !Won(Get(db.deliveries, Slot(k, c))) && !Waiting(Get(db.deliveries, Slot(k, c)), db.clock)
  }

  /** Whatever becomes of other events and channels. */
  ghost predicate Grows(db: Db, db': Db, s: Slot) {
    db'.hist.sent[s] > db.hist.sent[s] && db'.hist.won[s] > db.hist.won[s]
  }

  /** The channel switched on and subscribed, a pass sends to it. */
  lemma SendableIsSent(cfg: Settings, db0: Db, steps: seq<Step>, db: Db, k: EventKey, c: ChannelId)
    returns (more: seq<Step>, db': Db)
    requires Leads(cfg, db0, steps, db) && Sendable(db, k, c)
    ensures Leads(cfg, db0, more, db') && Grows(db, db', Slot(k, c))
  {
    hide Leads;
    var db1 := EnableChannel(db, c, true);
    var subs := db1.subs[SubKey(c, db.outbox[k].eventType) := Subscription(k.user, true)];
    var db2 := SetSubscriptions(db1, subs);
    LeadsOn(cfg, db0, steps, db, EnablingChannel(c, true));
    LeadsOn(cfg, db0, steps + [EnablingChannel(c, true)], db1, Subscribing(subs));
    var p := QuickPass(db2, k);
    PassSendsTo(db2, k, p, c);
    hide Deliver, PassOk;
    LeadsOn(cfg, db0, steps + [EnablingChannel(c, true)] + [Subscribing(subs)], db2, Passing(k, p));
    more := steps + [EnablingChannel(c, true)] + [Subscribing(subs)] + [Passing(k, p)];
    db' := Deliver(db2, k, p);
  }

  // ---------------------------------------------------------------- retries by hand

  /** A failed delivery whose channel still exists can be retried once the channel is switched on,
      subscribed or not; the event, whatever its budget, can then be selected at once. */
  lemma FailedCanBeRetried(cfg: Settings, db0: Db, steps: seq<Step>, db: Db, s: Slot, now: Time)
    returns (more: seq<Step>, db': Db)
    requires Leads(cfg, db0, steps, db) && db.clock <= now
    requires s in db.deliveries && db.deliveries[s].status == DlFailed
    requires s.event in db.outbox && db.outbox[s.event].status != EvMerged
    requires s.channel in db.channels && db.channels[s.channel].user == s.event.user
    ensures Leads(cfg, db0, more, db') && db'.clock == now
    ensures s.event in db'.outbox && Selectable(db'.outbox[s.event], now)
    ensures db'.deliveries == db.deliveries[s := Delivery(DlPending, 0, now, None)]
    ensures db'.hist.sent == db.hist.sent && db'.hist.won == db.hist.won
    ensures db'.channels == db.channels[s.channel := db.channels[s.channel].(enabled := true)]
  {
    hide Leads;
    var db1 := EnableChannel(db, s.channel, true);
    LeadsOn(cfg, db0, steps, db, EnablingChannel(s.channel, true));
    assert RetryCheck(db1, s.event.user, s) == Queued;
    LeadsOn(cfg, db0, steps + [EnablingChannel(s.channel, true)], db1, Retrying(s.event.user, s, now));
    more := steps + [EnablingChannel(s.channel, true)] + [Retrying(s.event.user, s, now)];
    db' := RetryDelivery(db1, s.event.user, s, now);
  }

  /** What every answer to a request for a retry means. Of a delivery of one's own that is on record with
      its event, it is refused exactly for what could be seen to be in its way. */
  lemma RetryAnswers(db: Db, user: UserId, s: Slot)
    ensures var answer := RetryCheck(db, user, s);
            && (answer == NotFound <==> s.event.user != user || (s !in db.deliveries && s !in db.audit))
            && (answer == Queued <==>
                  && s in db.deliveries && db.deliveries[s].status == DlFailed
                  && s.event.user == user && s.event in db.outbox && db.outbox[s.event].status != EvMerged
                  && Get(db.channels, s.channel) == Some(Channel(user, true)))
            && (answer == EventGone ==> s.event !in db.outbox)
            && (answer == EventWasMerged <==>
                  answer != NotFound && s.event in db.outbox && db.outbox[s.event].status == EvMerged)
            && (answer == ChannelGone ==>
                  s !in db.deliveries || s.channel !in db.channels || db.channels[s.channel].user != user)
            && (answer == AlreadySucceeded ==> s in db.deliveries && db.deliveries[s].Success())
            && (answer == NotRetryable ==> s in db.deliveries && db.deliveries[s].status == DlPending)
  {
  }

  /** A retry refused because its channel is switched off is granted once that is switched on, and only
      such a one is. */
  lemma SwitchedOnIsQueued(db: Db, user: UserId, s: Slot)
    ensures RetryCheck(db, user, s) == ChannelDisabled <==>
            && RetryCheck(db, user, s) != Queued && s.channel in db.channels
            && RetryCheck(EnableChannel(db, s.channel, true), user, s) == Queued
  {
  }

  /** And of a delivery that the invariant holds of, no retry is refused for a missing event or channel. */
  lemma OwnRetry(db: Db, s: Slot)
    requires Inv(db) && s in db.deliveries
    ensures s.event in db.outbox && s.channel in db.channels
    ensures var answer := RetryCheck(db, s.event.user, s);
            answer == if db.outbox[s.event].status == EvMerged then EventWasMerged
                      else match db.deliveries[s].status
                           case DlPending => NotRetryable
                           case DlFailed => if db.channels[s.channel].enabled then Queued else ChannelDisabled
                           case _ => AlreadySucceeded
  {
    RowHasChannel(db, s);
    hide Inv;
  }

  // ---------------------------------------------------------------- the exhausted event

  /** Some run sends the event to some channel. */
  ghost predicate CanBeSent(cfg: Settings, db: Db, k: EventKey) {
    exists steps, db', s: Slot :: Leads(cfg, db, steps, db') && s.event == k && db'.hist.sent[s] > db.hist.sent[s]
  }

  /** In every reachable state, an event that waits for a retry with its budget used up is sent again
      by some run exactly when a delivery of it failed: retried by hand, that one takes the rest along. */
  lemma ExhaustedSentIff(cfg: Settings, db0: Db, before: seq<Step>, db: Db, k: EventKey)
    requires cfg.Valid() && Installation(db0) && Leads(cfg, db0, before, db)
    requires k in db.outbox && db.outbox[k].status == EvRetry && db.outbox[k].attempts >= MAX_ATTEMPTS
    ensures CanBeSent(cfg, db, k) <==> HasFailedRow(db, k)
  {
    hide Installation, Leads, Inv;
    if HasFailedRow(db, k) {
      var s :| s in db.deliveries && s.event == k && db.deliveries[s].status == DlFailed;
      InstallationInv(db0);
      RunKeepsInv(cfg, db0, before, db);
      RowHasChannel(db, s);
      NoSteps(cfg, db);
      var steps, db1 := FailedCanBeRetried(cfg, db, [], db, s, db.clock);
      var more, db2 := SendableIsSent(cfg, db, steps, db1, k, s.channel);
      assert db2.hist.sent[s] > db.hist.sent[s];
    } else {
      assert Stuck(db, k);
      forall steps, db', s: Slot | Leads(cfg, db, steps, db') && s.event == k
        ensures db'.hist.sent[s] == db.hist.sent[s]
      {
        StuckForever(cfg, db, steps, db', k);
      }
    }
  }

  lemma RowHasChannel(db: Db, s: Slot)
    requires Inv(db) && s in db.deliveries
    ensures s.event in db.outbox && s.channel in db.channels && db.channels[s.channel].user == s.event.user
  {
    assert SlotInv(db, s);
  }

  lemma NoSteps(cfg: Settings, db: Db)
    ensures Leads(cfg, db, [], db)
  {
  }
}
