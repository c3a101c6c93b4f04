/**
 The notification pipeline's tables and the operations of the delivery service on them.

 A table is a map keyed by its unique constraint, so the constraint holds by construction:
 outbox events by dedupe key, deliveries by (event, channel), subscriptions by (channel, event
 type), charge records by (account, record key). What a query returns in an order the database
 chooses, the instants the clock shows and the results of sends are arguments.
 */
module Pipeline {
  import opened Common
  import opened Charges

  const MAX_ATTEMPTS := 5
  const BATCH_LIMIT := 100

  datatype EventType =
    | NewCharge | CollectionFailed | CookieExpired | CouponClaimSucceeded | CouponClaimFailed
    | ScheduledJobFailed | DailyTaskSucceeded | DailyTaskFailed

  /** What a dedupe key is about. */
  datatype Topic =
    | ChargeTopic(account: AccountId, eventId: Digest)
    | RunTopic(run: nat)
    | CookieTopic(account: AccountId)
    | NamedTopic(name: string)

  /** A tenant-scoped dedupe key; the hash of the user and the topic is taken to be injective. */
  datatype EventKey = EventKey(user: UserId, topic: Topic)

  datatype EventStatus = EvPending | EvRetry | EvDelivered | EvFailed | EvMerged

  datatype Payload =
    | ChargePayload(supporter: string, amount: int, brokerage: int, chargedAt: Time)
    | Details(text: string)

  datatype Event = Event(
    eventType: EventType, payload: Payload, status: EventStatus, attempts: nat, due: Time, created: Time)

  datatype DeliveryStatus = DlPending | DlFailed | DlSucceeded | DlLegacySuccess

  datatype Delivery = Delivery(status: DeliveryStatus, attempts: nat, due: Time, deliveredAt: Option<Time>)
  {
    predicate Success() {
      status == DlSucceeded || status == DlLegacySuccess
    }
  }

  datatype Slot = Slot(event: EventKey, channel: ChannelId)
  datatype Channel = Channel(user: UserId, enabled: bool)
  datatype SubKey = SubKey(channel: ChannelId, eventType: EventType)
  datatype Subscription = Subscription(user: UserId, enabled: bool)
  datatype RecordSlot = RecordSlot(account: AccountId, key: Digest)
  datatype Account = Account(user: UserId, watermark: Option<Time>, active: bool, lastChecked: Option<Time>)

  /** What has happened so far; no operation reads it. `passes` counts the delivery passes that
      sent at least once for an event, `retries` the manual retries on its deliveries, `erased`
      holds the keys retention has deleted, `baseline` the watermark each record's inserting
      run began with, `unbound` the accounts that are gone. */
  datatype History = History(
    sent: multiset<Slot>,
    won: multiset<Slot>,
    passes: map<EventKey, nat>,
    retries: map<EventKey, nat>,
    erased: set<EventKey>,
    retired: set<ChannelId>,
    baseline: map<RecordSlot, Option<Time>>,
    unbound: set<AccountId>)

  datatype Db = Db(
    clock: Time,
    accounts: map<AccountId, Account>,
    records: map<RecordSlot, ChargeRecord>,
    outbox: map<EventKey, Event>,
    deliveries: map<Slot, Delivery>,
    audit: map<Slot, Delivery>,
    channels: map<ChannelId, Channel>,
    subs: map<SubKey, Subscription>,
    hist: History)

  function ChargeKey(r: ChargeRecord): EventKey {
    EventKey(r.user, ChargeTopic(r.account, r.eventId))
  }

  function NewChargePayload(r: ChargeRecord): Payload {
    ChargePayload(r.supporterName, r.amount, r.brokerage, r.chargedAt)
  }

  function Backoff(attempts: nat): Time {
    Pow2(attempts) * 30
  }

  // ---------------------------------------------------------------- enqueueing

  /** Inserting an event whose dedupe key exists does nothing. */
  function Enqueue(db: Db, k: EventKey, t: EventType, p: Payload, at: Time): Db {
    if k in db.outbox then db.(clock := at)
    else db.(
         clock := at,
         outbox := db.outbox[k := Event(t, p, EvPending, 0, at, at)],
         hist := db.hist.(passes := db.hist.passes[k := 0], retries := db.hist.retries[k := 0]))
  }

  // ---------------------------------------------------------------- one delivery pass

  predicate Matches(db: Db, user: UserId, t: EventType, c: ChannelId) {
    && SubKey(c, t) in db.subs
    && db.subs[SubKey(c, t)] == Subscription(user, true)
    && c in db.channels
    && db.channels[c] == Channel(user, true)
  }

  /** The enabled channels of a user with an enabled subscription to an event type. */
  function Matching(db: Db, user: UserId, t: EventType): set<ChannelId> {
    set c | c in db.channels && Matches(db, user, t, c)
  }

  function Targets(db: Db, k: EventKey, target: Option<ChannelId>): set<ChannelId>
    requires k in db.outbox
  {
    set c | c in db.channels && Matches(db, k.user, db.outbox[k].eventType, c)
            && (target.None? || target.value == c)
  }

  /** One row of a pass: when the channel's turn comes, when its send ends and how. A send that
      raises counts as unsuccessful. */
  datatype Send = Send(checkedAt: Time, doneAt: Time, ok: bool)

  datatype Pass = Pass(rows: seq<ChannelId>, sends: seq<Send>, endAt: Time)

  predicate Waiting(d: Option<Delivery>, now: Time) {
    d.Some? && d.value.due > now
  }

  predicate Won(d: Option<Delivery>) {
    d.Some? && d.value.Success()
  }

  /** Whether a channel's turn leads to a send. */
  predicate Sends(d: Option<Delivery>, s: Send) {
    !Won(d) && !Waiting(d, s.checkedAt)
  }

  function Attempted(d: Option<Delivery>, s: Send): Delivery {
    var was := if d.Some? then d.value else Delivery(DlPending, 0, s.checkedAt, None);
    var n := was.attempts + 1;
    if s.ok then Delivery(DlSucceeded, n, was.due, Some(s.doneAt))
    else Delivery(DlFailed, n, s.doneAt + Backoff(n), was.deliveredAt)
  }

  datatype Tally = Tally(
    deliveries: map<Slot, Delivery>, failures: nat, sent: multiset<Slot>, won: multiset<Slot>)

  function TakeTurn(t: Tally, k: EventKey, c: ChannelId, s: Send): Tally {
    var slot := Slot(k, c);
    var d := Get(t.deliveries, slot);
    if Won(d) then t
    else if Waiting(d, s.checkedAt) then t.(failures := t.failures + 1)
    else Tally(
           t.deliveries[slot := Attempted(d, s)],
           if s.ok then t.failures else t.failures + 1,
           t.sent + multiset{slot},
           if s.ok then t.won + multiset{slot} else t.won)
  }

  function TakeTurns(ds: map<Slot, Delivery>, k: EventKey, rows: seq<ChannelId>, sends: seq<Send>): Tally
    requires |rows| == |sends|
  {
    if rows == [] then Tally(ds, 0, multiset{}, multiset{})
    else
      var n := |rows| - 1;
      TakeTurn(TakeTurns(ds, k, rows[..n], sends[..n]), k, rows[n], sends[n])
  }

  function Verdict(e: Event, failures: nat, endAt: Time): Event {
    var n := e.attempts + 1;
    if failures == 0 then e.(attempts := n, status := EvDelivered)
    else if n >= MAX_ATTEMPTS then e.(attempts := n, status := EvFailed)
    else e.(attempts := n, status := EvRetry, due := endAt + Backoff(n))
  }

  function Count(m: map<EventKey, nat>, k: EventKey): nat {
    if k in m then m[k] else 0
  }

  /** Nobody to tell: the event stays, with its budget. */
  function Idle(db: Db, k: EventKey, endAt: Time): Db
    requires k in db.outbox
  {
    db.(clock := endAt, outbox := db.outbox[k := db.outbox[k].(status := EvPending)])
  }

  /** The end of a pass that had rows. */
  function Settle(db: Db, k: EventKey, t: Tally, endAt: Time): Db
    requires k in db.outbox
  {
    db.(clock := endAt,
        outbox := db.outbox[k := Verdict(db.outbox[k], t.failures, endAt)],
        deliveries := t.deliveries,
        hist := db.hist.(
        sent := db.hist.sent + t.sent,
        won := db.hist.won + t.won,
        passes := if t.sent == multiset{} then db.hist.passes else db.hist.passes[k := Count(db.hist.passes, k) + 1]))
  }

  function Deliver(db: Db, k: EventKey, p: Pass): Db
    requires k in db.outbox && |p.rows| == |p.sends|
  {
    if p.rows == [] then Idle(db, k, p.endAt)
    else Settle(db, k, TakeTurns(db.deliveries, k, p.rows, p.sends), p.endAt)
  }

  /** The rows and instants of a pass are ones the database and the clock can produce. */
  ghost predicate PassOk(db: Db, k: EventKey, target: Option<ChannelId>, p: Pass)
    requires k in db.outbox
  {
    && |p.rows| == |p.sends|
    && Distinct(p.rows)
    && Elements(p.rows) == Targets(db, k, target)
    && db.clock <= p.endAt
    && (forall i :: 0 <= i < |p.sends| ==>
                      db.clock <= p.sends[i].checkedAt <= p.sends[i].doneAt <= p.endAt)
  }

  // ---------------------------------------------------------------- a pass over the outbox

  predicate Selectable(e: Event, now: Time) {
    && (e.status == EvPending || e.status == EvRetry)
    && e.due <= now
    && e.attempts < MAX_ATTEMPTS
  }

  predicate InScope(k: EventKey, user: Option<UserId>) {
    user.None? || k.user == user.value
  }

  /** A result of the selection query: the first hundred selectable events, oldest first. */
  ghost predicate Selected(db: Db, user: Option<UserId>, now: Time, batch: seq<EventKey>) {
    && Distinct(batch)
    && |batch| <= BATCH_LIMIT
    && (forall k :: k in batch ==> k in db.outbox && InScope(k, user) && Selectable(db.outbox[k], now))
    && (forall i, j :: 0 <= i < j < |batch| ==> db.outbox[batch[i]].created <= db.outbox[batch[j]].created)
    && (forall k :: k in db.outbox && InScope(k, user) && Selectable(db.outbox[k], now) && k !in batch ==>
                      |batch| == BATCH_LIMIT
                      && forall j :: j in batch ==> db.outbox[j].created <= db.outbox[k].created)
  }

  function DeliverAll(db: Db, batch: seq<EventKey>, passes: seq<Pass>): Db
    requires |batch| == |passes|
    requires forall k :: k in batch ==> k in db.outbox
    requires forall i :: 0 <= i < |passes| ==> |passes[i].rows| == |passes[i].sends|
    ensures DeliverAll(db, batch, passes).outbox.Keys == db.outbox.Keys
    decreases |batch|
  {
    if batch == [] then db
    else
      var n := |batch| - 1;
      assert forall k :: k in batch[..n] ==> k in batch;
      Deliver(DeliverAll(db, batch[..n], passes[..n]), batch[n], passes[n])
  }

  /** Each pass of a batch is possible in the state its turn finds. */
  ghost predicate PassesOk(db: Db, batch: seq<EventKey>, passes: seq<Pass>)
    decreases |batch|
  {
    && |batch| == |passes|
    && (forall k :: k in batch ==> k in db.outbox)
    && (batch == [] ||
        var n := |batch| - 1;
        && PassesOk(db, batch[..n], passes[..n])
        && (forall i :: 0 <= i < n ==> |passes[i].rows| == |passes[i].sends|)
        && batch[n] in DeliverAll(db, batch[..n], passes[..n]).outbox
        && PassOk(DeliverAll(db, batch[..n], passes[..n]), batch[n], None, passes[n]))
  }

  // ---------------------------------------------------------------- manual retry

  datatype RetryResult =
    | Queued | NotFound | EventGone | EventWasMerged | ChannelGone
    | AlreadySucceeded | NotRetryable | ChannelDisabled

  function RetryCheck(db: Db, user: UserId, s: Slot): RetryResult {
    if s.event.user != user || (s !in db.deliveries && s !in db.audit) then NotFound
    else if s.event !in db.outbox then EventGone
    else if db.outbox[s.event].status == EvMerged then EventWasMerged
    else if s !in db.deliveries || s.channel !in db.channels || db.channels[s.channel].user != user then ChannelGone
    else if db.deliveries[s].Success() then AlreadySucceeded
    else if db.deliveries[s].status != DlFailed then NotRetryable
    else if !db.channels[s.channel].enabled then ChannelDisabled
    else Queued
  }

  /** Both retry budgets start again, and the event becomes selectable at once. */
  function ResetForRetry(db: Db, s: Slot, now: Time): Db
    requires s in db.deliveries && s.event in db.outbox
  {
    var k := s.event;
    db.(clock := now,
        deliveries := db.deliveries[s := Delivery(DlPending, 0, now, None)],
        outbox := db.outbox[k := db.outbox[k].(status := EvRetry, attempts := 0, due := now)],
        hist := db.hist.(retries := db.hist.retries[k := Count(db.hist.retries, k) + 1]))
  }

  function RetryDelivery(db: Db, user: UserId, s: Slot, now: Time): Db {
    if RetryCheck(db, user, s) == Queued then ResetForRetry(db, s, now) else db.(clock := now)
  }

  // ---------------------------------------------------------------- retention

  predicate Expired(e: Event, cutoff: Time) {
    e.created < cutoff && (e.status == EvDelivered || e.status == EvFailed)
  }

  function Outdated(outbox: map<EventKey, Event>, cutoff: Time): set<EventKey> {
    set k | k in outbox && Expired(outbox[k], cutoff)
  }

  /** The rows whose event is not deleted. */
  function Surviving(ds: map<Slot, Delivery>, gone: set<EventKey>): map<Slot, Delivery> {
    map s | s in ds && s.event !in gone :: ds[s]
  }

  /** Finished events older than the retention period go, and their deliveries with them. */
  function CleanUp(db: Db, retentionDays: nat, now: Time): Db {
    var gone := Outdated(db.outbox, now - retentionDays * DAY);
    db.(clock := now,
        outbox := db.outbox - gone,
        deliveries := Surviving(db.deliveries, gone),
        audit := Surviving(db.audit, gone),
        hist := db.hist.(erased := db.hist.erased + gone))
  }

  // ---------------------------------------------------------------- channels

  function AddChannel(db: Db, c: ChannelId, user: UserId, enabled: bool): Db {
    db.(channels := db.channels[c := Channel(user, enabled)])
  }

  function EnableChannel(db: Db, c: ChannelId, enabled: bool): Db
    requires c in db.channels
  {
    db.(channels := db.channels[c := db.channels[c].(enabled := enabled)])
  }

  function SetSubscriptions(db: Db, subs: map<SubKey, Subscription>): Db {
    db.(subs := subs)
  }

  /** The channel and its subscriptions go; its deliveries stay as an audit trail. */
  function DeleteChannel(db: Db, c: ChannelId): Db {
    var moved := map s | s in db.deliveries && s.channel == c :: db.deliveries[s];
    db.(channels := db.channels - {c},
        subs := map s | s in db.subs && s.channel != c :: db.subs[s],
        deliveries := db.deliveries - moved.Keys,
        audit := db.audit + moved,
        hist := db.hist.(retired := db.hist.retired + {c}))
  }

  // ---------------------------------------------------------------- accounts

  /** The account goes, and its records with it; their events stay. */
  function Unbind(db: Db, a: AccountId): Db {
    db.(accounts := db.accounts - {a},
        records := map rs | rs in db.records && rs.account != a :: db.records[rs],
        hist := db.hist.(unbound := db.hist.unbound + {a}))
  }
}
