/** What one delivery pass does to each channel, to the event and to the send history. */
module DeliveryPass {
  import opened Common
  import opened Charges
  import opened Pipeline

  /** The delivery row a channel's turn leaves behind. */
  function AfterTurn(d: Option<Delivery>, s: Send): Option<Delivery> {
    if Sends(d, s) then Some(Attempted(d, s)) else d
  }

  /** The channels a pass sends to. */
  ghost function Reached(ds: map<Slot, Delivery>, k: EventKey, rows: seq<ChannelId>, sends: seq<Send>): set<Slot>
    requires |rows| == |sends|
  {
    set i | 0 <= i < |rows| && Sends(Get(ds, Slot(k, rows[i])), sends[i]) :: Slot(k, rows[i])
  }

  /** The channels a pass wins. */
  ghost function WonNow(ds: map<Slot, Delivery>, k: EventKey, rows: seq<ChannelId>, sends: seq<Send>): set<Slot>
    requires |rows| == |sends|
  {
    set i | 0 <= i < |rows| && Sends(Get(ds, Slot(k, rows[i])), sends[i]) && sends[i].ok :: Slot(k, rows[i])
  }

  /** One pass, channel by channel: every row takes its own turn on the row it found and no
      other delivery changes. */
  lemma {:induction false} PassRows(ds: map<Slot, Delivery>, k: EventKey, rows: seq<ChannelId>, sends: seq<Send>)
    requires |rows| == |sends| && Distinct(rows)
    ensures forall i :: 0 <= i < |rows| ==>
                          Get(TakeTurns(ds, k, rows, sends).deliveries, Slot(k, rows[i]))
                          == AfterTurn(Get(ds, Slot(k, rows[i])), sends[i])
    ensures forall s: Slot :: s.event != k || s.channel !in rows ==>
                                Get(TakeTurns(ds, k, rows, sends).deliveries, s) == Get(ds, s)
  {
    if rows != [] {
      var n := |rows| - 1;
      var front := rows[..n];
      var before := TakeTurns(ds, k, front, sends[..n]).deliveries;
      var after := TakeTurns(ds, k, rows, sends).deliveries;
      var slot := Slot(k, rows[n]);
      PassRows(ds, k, front, sends[..n]);
      assert rows[n] !in front;
      assert Get(after, slot) == AfterTurn(Get(ds, slot), sends[n]);
      assert forall s: Slot :: s != slot ==> Get(after, s) == Get(before, s);
      forall i | 0 <= i < n
        ensures Get(after, Slot(k, rows[i])) == AfterTurn(Get(ds, Slot(k, rows[i])), sends[i])
      {
        assert rows[i] == front[i] && sends[..n][i] == sends[i];
      }
      forall s: Slot | s.event != k || s.channel !in rows
        ensures Get(after, s) == Get(ds, s)
      {
        assert s.channel in front ==> s.channel in rows;
      }
    }
  }

  /** One turn of a pass, as its row tells afterwards: a channel without a success is sent to exactly when
      nothing is to be waited for, and a send is written down with its time and with the wait after it. */
  lemma TurnTells(ds: map<Slot, Delivery>, k: EventKey, rows: seq<ChannelId>, sends: seq<Send>, i: nat)
    requires |rows| == |sends| && Distinct(rows) && i < |rows|
    ensures var s := Slot(k, rows[i]); var after := TakeTurns(ds, k, rows, sends).deliveries;
            var before := if s in ds then ds[s].attempts else 0;
            if s in ds && (ds[s].status == DlSucceeded || ds[s].status == DlLegacySuccess || ds[s].due > sends[i].checkedAt)
            then Get(after, s) == Some(ds[s])
            else
              && s in after && after[s].attempts == before + 1
              && (if sends[i].ok then after[s].status == DlSucceeded && after[s].deliveredAt == Some(sends[i].doneAt)
                  else
                    && after[s].status == DlFailed && after[s].due == sends[i].doneAt + Backoff(before + 1)
                    && after[s].deliveredAt == if s in ds then ds[s].deliveredAt else None)
  {
    PassRows(ds, k, rows, sends);
    hide TakeTurns, Backoff;
  }

  /** The wait after a failure: a minute, and twice as long each time. */
  lemma BackoffDoubles(n: nat)
    requires n > 0
    ensures Backoff(1) == 60 && Backoff(n + 1) == 2 * Backoff(n)
  {
    assert Pow2(1) == 2 * Pow2(0);
  }

  /** A pass counts no failure exactly when every row ends with a success. */
  lemma {:induction false} PassFailures(ds: map<Slot, Delivery>, k: EventKey, rows: seq<ChannelId>, sends: seq<Send>)
    requires |rows| == |sends| && Distinct(rows)
    ensures TakeTurns(ds, k, rows, sends).failures == 0 <==> AllEndWon(ds, k, rows, sends)
  {
    if rows != [] {
      var n := |rows| - 1;
      NotYetTaken(ds, k, rows, sends);
      PassFailures(ds, k, rows[..n], sends[..n]);
      var before := TakeTurns(ds, k, rows[..n], sends[..n]);
      TurnFails(before, k, rows[n], sends[n]);
      AllEndSnoc(ds, k, rows, sends);
      assert TakeTurns(ds, k, rows, sends) == TakeTurn(before, k, rows[n], sends[n]);
      hide TakeTurns, TakeTurn, AfterTurn;
    }
  }

  ghost predicate AllEndWon(ds: map<Slot, Delivery>, k: EventKey, rows: seq<ChannelId>, sends: seq<Send>)
    requires |rows| == |sends|
  {
    forall i :: 0 <= i < |rows| ==> Won(AfterTurn(Get(ds, Slot(k, rows[i])), sends[i]))
  }

  lemma AllEndSnoc(ds: map<Slot, Delivery>, k: EventKey, rows: seq<ChannelId>, sends: seq<Send>)
    requires |rows| == |sends| > 0
    ensures var n := |rows| - 1;
            AllEndWon(ds, k, rows, sends) <==>
            AllEndWon(ds, k, rows[..n], sends[..n]) && Won(AfterTurn(Get(ds, Slot(k, rows[n])), sends[n]))
  {
    hide AfterTurn;
    var n := |rows| - 1;
    var front, fs := rows[..n], sends[..n];
    assert forall i :: 0 <= i < n ==> rows[i] == front[i] && sends[i] == fs[i];
  }

  lemma TurnFails(t: Tally, k: EventKey, c: ChannelId, s: Send)
    ensures TakeTurn(t, k, c, s).failures == 0 <==>
            t.failures == 0 && Won(AfterTurn(Get(t.deliveries, Slot(k, c)), s))
  {
  }

  /** Each channel is sent to at most once, namely when its turn sends. */
  lemma {:induction false} PassSends(ds: map<Slot, Delivery>, k: EventKey, rows: seq<ChannelId>, sends: seq<Send>)
    requires |rows| == |sends| && Distinct(rows)
    ensures TakeTurns(ds, k, rows, sends).sent == multiset(Reached(ds, k, rows, sends))
    ensures TakeTurns(ds, k, rows, sends).won == multiset(WonNow(ds, k, rows, sends))
  {
    hide TakeTurn, Sends;
    if rows == [] {
    } else {
      var n := |rows| - 1;
      var before := TakeTurns(ds, k, rows[..n], sends[..n]);
      var slot := Slot(k, rows[n]);
      NotYetTaken(ds, k, rows, sends);
      PassSends(ds, k, rows[..n], sends[..n]);
      assert TakeTurns(ds, k, rows, sends) == TakeTurn(before, k, rows[n], sends[n]);
      hide TakeTurns;
      var r, w := Reached(ds, k, rows[..n], sends[..n]), WonNow(ds, k, rows[..n], sends[..n]);
      ReachedSnoc(ds, k, rows, sends);
      hide Reached, WonNow;
      MultisetOfUnion(r, slot);
      MultisetOfUnion(w, slot);
      TurnSends(before, k, rows[n], sends[n]);
    }
  }

  /** A channel's own turn finds its row as the pass found it. */
  lemma NotYetTaken(ds: map<Slot, Delivery>, k: EventKey, rows: seq<ChannelId>, sends: seq<Send>)
    requires |rows| == |sends| > 0 && Distinct(rows)
    ensures var n := |rows| - 1; var slot := Slot(k, rows[n]);
            Get(TakeTurns(ds, k, rows[..n], sends[..n]).deliveries, slot) == Get(ds, slot)
  {
    hide TakeTurns;
    var n := |rows| - 1;
    PassRows(ds, k, rows[..n], sends[..n]);
    assert rows[n] !in rows[..n];
  }

  lemma TurnSends(t: Tally, k: EventKey, c: ChannelId, s: Send)
    ensures var d := Get(t.deliveries, Slot(k, c));
            && TakeTurn(t, k, c, s).sent == (if Sends(d, s) then t.sent + multiset{Slot(k, c)} else t.sent)
            && TakeTurn(t, k, c, s).won == (if Sends(d, s) && s.ok then t.won + multiset{Slot(k, c)} else t.won)
  {
  }

  lemma MultisetOfUnion(r: set<Slot>, s: Slot)
    requires s !in r
    ensures multiset(r + {s}) == multiset(r) + multiset{s}
  {
  }

  /** Membership in the two send sets, read off the row itself. */
  lemma ReachedAt(ds: map<Slot, Delivery>, k: EventKey, rows: seq<ChannelId>, sends: seq<Send>, i: nat)
    requires |rows| == |sends| && Distinct(rows) && i < |rows|
    ensures Slot(k, rows[i]) in Reached(ds, k, rows, sends) <==> Sends(Get(ds, Slot(k, rows[i])), sends[i])
    ensures Slot(k, rows[i]) in WonNow(ds, k, rows, sends) <==>
            Sends(Get(ds, Slot(k, rows[i])), sends[i]) && sends[i].ok
  {
  }

  lemma ReachedSnoc(ds: map<Slot, Delivery>, k: EventKey, rows: seq<ChannelId>, sends: seq<Send>)
    requires |rows| == |sends| > 0 && Distinct(rows)
    ensures var n := |rows| - 1;
            var slot := Slot(k, rows[n]);
            var r := Reached(ds, k, rows[..n], sends[..n]);
            var w := WonNow(ds, k, rows[..n], sends[..n]);
            && slot !in r && slot !in w
            && Reached(ds, k, rows, sends) == (if Sends(Get(ds, slot), sends[n]) then r + {slot} else r)
            && WonNow(ds, k, rows, sends) == (if Sends(Get(ds, slot), sends[n]) && sends[n].ok then w + {slot} else w)
  {
    var n := |rows| - 1;
    var front, fs := rows[..n], sends[..n];
    forall i | 0 <= i < n
      ensures front[i] == rows[i] && fs[i] == sends[i] && rows[i] != rows[n]
    {
    }
  }

  // ---------------------------------------------------------------- the event's outcome

  lemma AllRowsIffAllTargets(db: Db, k: EventKey, target: Option<ChannelId>, p: Pass, ds: map<Slot, Delivery>)
    requires k in db.outbox && PassOk(db, k, target, p)
    ensures (forall i :: 0 <= i < |p.rows| ==> Won(Get(ds, Slot(k, p.rows[i])))) <==>
            (forall c :: c in Targets(db, k, target) ==> Won(Get(ds, Slot(k, c))))
    ensures p.rows == [] <==> Targets(db, k, target) == {}
  {
    assert forall i :: 0 <= i < |p.rows| ==> p.rows[i] in Elements(p.rows);
    if p.rows != [] {
      assert p.rows[0] in Targets(db, k, target);
    }
    forall c | c in Targets(db, k, target)
      ensures exists i :: 0 <= i < |p.rows| && p.rows[i] == c
    {
      assert c in Elements(p.rows);
    }
  }

  /** An untargeted pass ends `delivered` exactly when some enabled subscribed channel matches
      and every matching channel has succeeded; it fails exactly when one has not and the
      budget is used up. With no match it ends `pending`: no attempt spent, no row touched. */
  lemma DeliverOutcome(db: Db, k: EventKey, p: Pass)
    requires k in db.outbox && PassOk(db, k, None, p)
    ensures var db', e := Deliver(db, k, p), db.outbox[k];
            var e' := db'.outbox[k];
            var matching := Matching(db, k.user, e.eventType);
            var allWon := forall c :: c in matching ==> Won(Get(db'.deliveries, Slot(k, c)));
            && (e'.status == EvDelivered <==> matching != {} && allWon)
            && (e'.status == EvFailed <==> matching != {} && !allWon && e.attempts + 1 >= MAX_ATTEMPTS)
            && (matching != {} ==> e'.attempts == e.attempts + 1)
            && (matching == {} ==>
                  db' == db.(clock := p.endAt, outbox := db.outbox[k := e.(status := EvPending)]))
  {
    AllToldIff(db, k, p);
    hide TakeTurns, Matching, Backoff, PassOk;
  }

  /** Whether there is anyone to tell, and whether all of them have been told in the end. */
  lemma AllToldIff(db: Db, k: EventKey, p: Pass)
    requires k in db.outbox && PassOk(db, k, None, p)
    ensures |p.rows| == |p.sends|
    ensures var matching := Matching(db, k.user, db.outbox[k].eventType);
            var t := TakeTurns(db.deliveries, k, p.rows, p.sends);
            && (p.rows == [] <==> matching == {})
            && (t.failures == 0 <==> forall c :: c in matching ==> Won(Get(t.deliveries, Slot(k, c))))
  {
    assert Targets(db, k, None) == Matching(db, k.user, db.outbox[k].eventType);
    hide TakeTurns, Targets, Matching, AfterTurn, Sends, Attempted;
    AllRowsIffAllTargets(db, k, None, p, TakeTurns(db.deliveries, k, p.rows, p.sends).deliveries);
    PassRows(db.deliveries, k, p.rows, p.sends);
    PassFailures(db.deliveries, k, p.rows, p.sends);
  }

  /** The matching channels an event still has to reach. */
  ghost function Unreached(db: Db, k: EventKey): set<Slot>
    requires k in db.outbox
  {
    set c | c in Matching(db, k.user, db.outbox[k].eventType) && !Won(Get(db.deliveries, Slot(k, c))) :: Slot(k, c)
  }

  /** When the event's open deliveries are due and every send succeeds, one pass sends to
      exactly the matching channels that lacked a success and leaves the event delivered. */
  lemma RepairConverges(db: Db, k: EventKey, p: Pass)
    requires k in db.outbox && PassOk(db, k, None, p)
    requires Matching(db, k.user, db.outbox[k].eventType) != {}
    requires forall s :: s in db.deliveries && s.event == k && !db.deliveries[s].Success() ==>
                           db.deliveries[s].due <= db.clock
    requires forall i :: 0 <= i < |p.sends| ==> p.sends[i].ok
    ensures var db' := Deliver(db, k, p);
            && db'.outbox[k].status == EvDelivered
            && db'.hist.sent == db.hist.sent + multiset(Unreached(db, k))
            && db'.hist.won == db.hist.won + multiset(Unreached(db, k))
  {
    var rows, sends, ds := p.rows, p.sends, db.deliveries;
    forall i | 0 <= i < |rows|
      ensures Sends(Get(ds, Slot(k, rows[i])), sends[i]) <==> !Won(Get(ds, Slot(k, rows[i])))
      ensures Won(AfterTurn(Get(ds, Slot(k, rows[i])), sends[i]))
    {
      var s := Slot(k, rows[i]);
      if s in ds && !ds[s].Success() {
        assert ds[s].due <= db.clock <= sends[i].checkedAt;
      }
    }
    assert Targets(db, k, None) == Matching(db, k.user, db.outbox[k].eventType);
    AllRowsIffAllTargets(db, k, None, p, ds);
    PassFailures(ds, k, rows, sends);
    PassSends(ds, k, rows, sends);
    ReachedIsUnreached(db, k, p);
  }

  lemma ReachedIsUnreached(db: Db, k: EventKey, p: Pass)
    requires k in db.outbox && PassOk(db, k, None, p)
    requires forall i :: 0 <= i < |p.sends| ==> p.sends[i].ok
    requires forall i :: 0 <= i < |p.rows| ==>
                           (Sends(Get(db.deliveries, Slot(k, p.rows[i])), p.sends[i])
                            <==> !Won(Get(db.deliveries, Slot(k, p.rows[i]))))
    ensures Reached(db.deliveries, k, p.rows, p.sends) == Unreached(db, k)
    ensures WonNow(db.deliveries, k, p.rows, p.sends) == Unreached(db, k)
  {
    var r := Reached(db.deliveries, k, p.rows, p.sends);
    assert Targets(db, k, None) == Matching(db, k.user, db.outbox[k].eventType);
    forall s | s in Unreached(db, k)
      ensures s in r
    {
      assert s.channel in Elements(p.rows);
      var i :| 0 <= i < |p.rows| && p.rows[i] == s.channel;
      ReachedAt(db.deliveries, k, p.rows, p.sends, i);
    }
    forall s | s in r
      ensures s in Unreached(db, k)
    {
      var i :| 0 <= i < |p.rows| && s == Slot(k, p.rows[i]) && Sends(Get(db.deliveries, s), p.sends[i]);
      assert p.rows[i] in Elements(p.rows);
    }
    assert WonNow(db.deliveries, k, p.rows, p.sends) == r;
  }

  // ---------------------------------------------------------------- per-slot summary

  /** What a pass may do to one slot's row: nothing, or one attempt on a row that was neither
      won nor waiting, for a current channel of the event's owner. */
  ghost predicate SlotStep(db: Db, k: EventKey, endAt: Time, s: Slot, d: Option<Delivery>, d': Option<Delivery>,
          sent: bool, won: bool) {
    if !sent then d' == d && !won
    else
      && s.event == k && s.channel in db.channels && db.channels[s.channel].user == k.user
      && !Won(d) && d'.Some?
      && (d.Some? ==> d.value.due <= endAt)
      && d'.value.attempts == (if d.Some? then d.value.attempts else 0) + 1
      && d'.value.status == (if won then DlSucceeded else DlFailed)
      && (!won ==> d'.value.due <= endAt + Backoff(d'.value.attempts))
  }

  lemma TurnIsSlotStep(db: Db, k: EventKey, endAt: Time, s: Slot, d: Option<Delivery>, send: Send)
    requires s.event == k && s.channel in db.channels && db.channels[s.channel].user == k.user
    requires send.checkedAt <= send.doneAt <= endAt
    ensures SlotStep(db, k, endAt, s, d, AfterTurn(d, send), Sends(d, send), Sends(d, send) && send.ok)
  {
  }

  lemma PassSlot(db: Db, k: EventKey, target: Option<ChannelId>, p: Pass, s: Slot)
    requires k in db.outbox && PassOk(db, k, target, p)
    ensures SlotStep(db, k, p.endAt, s, Get(db.deliveries, s),
                     Get(TakeTurns(db.deliveries, k, p.rows, p.sends).deliveries, s),
                     s in Reached(db.deliveries, k, p.rows, p.sends), s in WonNow(db.deliveries, k, p.rows, p.sends))
  {
    PassRows(db.deliveries, k, p.rows, p.sends);
    if s.event == k && s.channel in p.rows {
      var i :| 0 <= i < |p.rows| && p.rows[i] == s.channel;
      assert s == Slot(k, p.rows[i]);
      ReachedAt(db.deliveries, k, p.rows, p.sends, i);
      assert s.channel in Elements(p.rows);
      TurnIsSlotStep(db, k, p.endAt, s, Get(db.deliveries, s), p.sends[i]);
    }
  }

  lemma DeliverParts(db: Db, k: EventKey, p: Pass)
    requires k in db.outbox && |p.rows| == |p.sends|
    ensures Deliver(db, k, p).deliveries == TakeTurns(db.deliveries, k, p.rows, p.sends).deliveries
    ensures Deliver(db, k, p).hist.sent == db.hist.sent + TakeTurns(db.deliveries, k, p.rows, p.sends).sent
    ensures Deliver(db, k, p).hist.won == db.hist.won + TakeTurns(db.deliveries, k, p.rows, p.sends).won
    ensures Deliver(db, k, p).hist.passes ==
            (if TakeTurns(db.deliveries, k, p.rows, p.sends).sent == multiset{} then db.hist.passes
             else db.hist.passes[k := Count(db.hist.passes, k) + 1])
    ensures TakeTurns(db.deliveries, k, p.rows, p.sends).sent != multiset{} ==> p.rows != []
  {
    if p.rows == [] {
      assert TakeTurns(db.deliveries, k, p.rows, p.sends) == Tally(db.deliveries, 0, multiset{}, multiset{});
      hide TakeTurns;
      assert db.hist.sent + multiset{} == db.hist.sent;
      assert db.hist.won + multiset{} == db.hist.won;
    } else {
      hide TakeTurns, Verdict;
      SettleParts(db, k, TakeTurns(db.deliveries, k, p.rows, p.sends), p.endAt);
      hide Settle;
    }
  }

  lemma SettleParts(db: Db, k: EventKey, t: Tally, endAt: Time)
    requires k in db.outbox
    ensures Settle(db, k, t, endAt).deliveries == t.deliveries
    ensures Settle(db, k, t, endAt).hist.sent == db.hist.sent + t.sent
    ensures Settle(db, k, t, endAt).hist.won == db.hist.won + t.won
    ensures Settle(db, k, t, endAt).hist.passes ==
            if t.sent == multiset{} then db.hist.passes else db.hist.passes[k := Count(db.hist.passes, k) + 1]
  {
    hide Verdict;
    if t.sent == multiset{} {
    } else {
    }
  }

  lemma DeliveredMeansNoFailure(db: Db, k: EventKey, p: Pass)
    requires k in db.outbox && |p.rows| == |p.sends|
    requires Deliver(db, k, p).outbox[k].status == EvDelivered
    ensures p.rows != [] && TakeTurns(db.deliveries, k, p.rows, p.sends).failures == 0
  {
    hide TakeTurns, Backoff;
  }

  /** A pass that delivers its event fails no send. */
  lemma DeliveredMeansWon(db: Db, k: EventKey, target: Option<ChannelId>, p: Pass)
    requires k in db.outbox && PassOk(db, k, target, p)
    requires Deliver(db, k, p).outbox[k].status == EvDelivered
    ensures Reached(db.deliveries, k, p.rows, p.sends) == WonNow(db.deliveries, k, p.rows, p.sends)
  {
    PassFailures(db.deliveries, k, p.rows, p.sends);
    hide TakeTurns, Verdict;
    DeliveredMeansNoFailure(db, k, p);
    hide Deliver;
    forall i | 0 <= i < |p.rows| && Sends(Get(db.deliveries, Slot(k, p.rows[i])), p.sends[i])
      ensures p.sends[i].ok
    {
      assert Won(AfterTurn(Get(db.deliveries, Slot(k, p.rows[i])), p.sends[i]));
    }
  }

  /** The sets of slots a pass sends to and wins account for the whole change of the delivery
      table and of the send history. */
  lemma DeliverSlots(db: Db, k: EventKey, target: Option<ChannelId>, p: Pass, r: set<Slot>, w: set<Slot>)
    requires k in db.outbox && PassOk(db, k, target, p)
    requires r == Reached(db.deliveries, k, p.rows, p.sends) && w == WonNow(db.deliveries, k, p.rows, p.sends)
    ensures Deliver(db, k, p).hist.sent == db.hist.sent + multiset(r)
    ensures Deliver(db, k, p).hist.won == db.hist.won + multiset(w)
    ensures forall s: Slot ::
              SlotStep(db, k, p.endAt, s, Get(db.deliveries, s), Get(Deliver(db, k, p).deliveries, s), s in r, s in w)
    ensures Deliver(db, k, p).hist.passes ==
            (if r == {} then db.hist.passes else db.hist.passes[k := Count(db.hist.passes, k) + 1])
    ensures r != {} ==> p.rows != []
  {
    DeliverParts(db, k, p);
    PassSends(db.deliveries, k, p.rows, p.sends);
    MultisetOfSetEmpty(r);
    forall s: Slot
      ensures SlotStep(db, k, p.endAt, s, Get(db.deliveries, s), Get(Deliver(db, k, p).deliveries, s), s in r, s in w)
    {
      PassSlot(db, k, target, p, s);
    }
  }

  lemma MultisetOfSetEmpty(r: set<Slot>)
    ensures multiset(r) == multiset{} <==> r == {}
  {
    if s :| s in r {
      assert s in multiset(r);
    }
  }
}
