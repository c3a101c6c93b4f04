# Charge notification pipeline: a verified model

A service collects charge records from a video platform's paginated feed, stores each with an
outbox event if it is new enough to announce, delivers events to the channels their owner has
subscribed, repairs gaps by reconciliation, and lets its users retry by hand and its maintenance
delete old events. This project models that pipeline, and the parts of the service around it that
hold state, and proves what they promise: per call, and over every run.

`dafny verify dfyconfig.toml` checks everything.

## How it is built

| files | what they hold |
|---|---|
| `Common`, `Charges`, `ChargeIdentity` | options, instants, identifiers; feed items, records, and the two ways a record's key is computed; which charges the keys tell apart |
| `Pipeline` | the tables, and the service's operations on them as functions of table values |
| `DeliveryPass`, `Reconciliation`, `Collection`, `CollectionFacts` | what one delivery pass, one reconciliation and one collection run do |
| `Feed`, `FeedRuns` | a feed that grows while it is paged through; nothing is lost, per run and over all runs |
| `Invariants`, `Machine`, `Theorems`, `Stalls` | the pipeline as one state machine of fourteen kinds of step, what every step keeps, and the promises over every run |
| `Upgrade`, `MergedSends` | installations that the migration has just upgraded meet the same invariant; when a charge whose events it merged can be sent twice |
| `Revival`, `Witnesses` | runs that send an event again, and when there are any; runs that reach the states the findings below speak of |
| `Store` | the same operations as a class whose methods update the tables in place, each proved to do exactly what the function of `Pipeline` or its neighbours says |
| `Migration`, `MigrationRun` | the migration that merges duplicate charges and their outbox events |
| `Dispatch`, `DispatchRuns`, `Scheduler` | job runs: one dispatch, any number of dispatches and of users' own requests interleaved, and the scheduler object |
| `DailyTask` | the coin donation loop, and the once-a-day rule |
| `Limiter` | the sliding-window limiter |
| `Tenants` | what is done for one user leaves the others' events alone; what a user asks for is what is sent |
| `ChannelConfig`, `SubscriptionRules` | masked channel settings and subscription rules |

Functions state an operation's whole effect; the imperative methods are proved against them, and
the lemmas are about them. `Theorems.Leads` says that a sequence of steps can happen; theorems that
mention it hold of every such sequence that begins with a `Theorems.Installation`: an empty database,
or one the migration has just upgraded.

## Assumptions

- SHA-256 and the texts that are joined before hashing are injective: a key is the value that is
  hashed. `Legacy` stands for keys that older releases made.
- A table is a map keyed by its unique constraint. The order in which a query returns rows, the
  instants the clock shows and how each send, request or upstream reply turns out are arguments,
  constrained only by what the database and a clock that does not run backwards can produce.
- The default values of an event's creation and due times are the same instant. Instants are whole
  seconds; money is in hundredths.
- Row ids are numbers and are ordered as such; where the code orders their text, any fixed total order
  would do.
- Savepoints are atomic and the database reports no errors other than violated unique constraints.
- The delivery of one event is one serial step; the deliveries of a batch may be interrupted by any
  other steps, an event being delivered only while selectable. The code sends before it commits, so a crash in the middle of
  a pass, or two passes over one event at a time, can send twice; nothing here says otherwise.
- The feed is newest first, and what it gains is later than what was there before. Charges of one
  second may appear together; only of those that appear while a run pages through the feed are the
  seconds taken to differ.
- An account that is bound again after it was unbound gets a new id.
- Releases before the migration computed event ids in another way, so none equals a present key.
- Python's `str.strip` removes the ASCII blanks and separators; `str.lower` lowers ASCII letters.
- An upstream call that raises has had no effect upstream; in particular a coin request that raises
  has given no coin.
- A run of the daily task comes to one of its own ends. The day's record is committed only there, so
  a process that dies in between loses the record, and a later run of the day donates again.

## Where code and promises part

Each of these is proved of the model; the code is kept as it is.

1. **A requeued event can be stuck.** Reconciliation requeues a delivered event for a new channel
   without giving it a new budget. It can be selected again exactly when it was delivered before its
   fifth attempt (`Stalls.RequeuedSelectableIff`). Delivered on the fifth, it is stuck exactly when
   none of its deliveries failed (`Stalls.RequeuedStuckIff`): the new delivery row is pending, and
   only failed rows can be retried by hand. Stuck, it is never sent again by any steps
   (`Stalls.StuckForever`). A failed row, left by a channel that was switched off or unsubscribed
   before the fifth attempt, saves it: retried by hand it gives the event a new budget, so some run
   sends it again exactly when there is such a row (`Revival.ExhaustedSentIff`). The summary counts it
   as requeued in either case. `Witnesses.StuckIsReached` is a run of a fresh installation that ends
   stuck.
2. **Events nobody is subscribed to can starve later ones.** A pass takes the hundred oldest
   selectable events; an event without a matching channel stays selectable and spends nothing. An
   event that waits is taken exactly when fewer than a hundred others of the scope wait that were
   created no later (`Stalls.SelectedIff`, where no other was created in its second; with ties
   `Stalls.FewAheadIsSelected` and `Stalls.ManyOlderIsNotSelected` give the two bounds). Behind a
   hundred events that no channel matches it is not sent by any sequence of steps of any kind that
   gives them none (`Stalls.StarvedForever`), and `Witnesses.StarvationIsReached` is a run that
   comes to that.
3. **A charge in the watermark's second is stored but never announced**
   (`CollectionFacts.AnnouncedIffNewer`), if it was not seen before: eligibility needs a strictly
   later time.
4. **Running out of pages loses charges** (`CollectionFacts.CompleteIff`). The loop that stops at
   page 100 with more to come ends as a success and moves the watermark; a run over an unchanging
   feed is complete exactly when all of the feed but its last 5000 charges was stored before. Where
   nothing newer than the watermark is stored yet, that is when at most 5000 charges are newer; after
   a failed run, whose charges stay, there can be more.
5. **The migration's key can differ from the collector's.** For every item that parses they agree
   exactly when the item's first usable order identifier is still the first usable one after storage
   has turned each into text of at most 1000 characters or, where there is none, none appears in
   storage and the supporter's id survives (`Charges.KeysAgreeIff`). A null `id` does not: it is
   stored as the text `None`, which the migration takes for an order number, and all such charges of
   an account get one key (`Charges.NullIdBreaksAgreement`).
6. **The migration's name choice** is the kept row's own informative name
   (`Migration.OwnNameStays`), and otherwise the first informative one of the others exactly when
   that tells more than the kept row's uid, or no later informative one does and the last of them is
   the same text (`Migration.FirstInformativeIff`). With one uid in a group it always is
   (`Migration.SameUidName`); with several, a later one can replace it (`Migration.OtherUidName`).
7. **A day donates exactly when its first recording run is enabled and comes as far as the coins**
   (`DailyTask.DonatesIff`). A day begun with the daily task switched off stays without a donation
   after it is switched on, because the skip is recorded as the day's record; a second run while it
   is off fails on the unique constraint instead of being skipped. A first run that finds the login
   expired while watching or sharing leaves a `running` record and no donation, and later runs of the
   day skip. Coins given before an error in the same run are spent but not reported
   (`DailyTask.DonationRun.DonateCoins`).
8. **Reconciliation's rebuild branch is never taken** in a state the pipeline itself can reach
   (`Theorems.ReconciliationNeverRebuilds`): a record and its event are stored together, and what
   retention deletes is out of every scan's window. It matters for databases changed by other means.
9. **Editing one header stores the masks of the others** (`ChannelConfig.PartialMaskIsStored`,
   `ChannelConfig.HeaderEditLosesSecret`). A submitted object is recognised as a mask only when every
   field is one.
10. **An expired login found by a user's own request leaves entries behind**
    (`DispatchRuns.ExpiryClearsIff`). The account and its jobs are switched off, but nothing takes
    the jobs out of the scheduler: the account is clear at once exactly when none of its jobs had an
    entry. Until another request changes the account or its jobs, an entry then goes exactly when a
    dispatch of one of the account's jobs ends, a dispatch of its own job fails, or the service
    restarts (`DispatchRuns.EntryLeftIff`).
11. **A user's own request can leave its run open.** A collection or coupon request that is cancelled,
    or whose end cannot be stored, leaves its run `running`, and no other ending does
    (`DispatchRuns.RequestLeavesRunIff`); it stays so until a restart or the six-hour clean-up closes it
    (`DispatchRuns.UnheldRun`).
12. **After the migration a charge can be sent to a channel twice**, though no event is
    (`Theorems.AtMostOneSuccess`). The deliveries of a merged event stay with it, and nothing looks at
    them when the kept event is sent. Over all its events some run sends a charge to a channel a second
    time exactly when two of them had succeeded there before, or a merged one had while the kept one
    had not and is still open: it waits with some budget left, or a delivery of it failed
    (`MergedSends.SentTwiceIff`). `Witnesses.SecondSendIsReached` is such an installation.

## Model

| member | source | states |
|---|---|---|
| `ChargeIdentity.SameKeyIff` | app/services/collection.py:40-66 | two items get one key if and only if they are of one account and either name the same order, the first of `id`, `orderNo`, `tradeNo` that is there, not null and not empty reading it between blanks, or name none and agree in supporter id, amount, brokerage and time |
| `ChargeIdentity.SameMigrationKeyIff` | migrations/versions/0006_canonical_charge_keys.py:20-55 | the same of two stored rows and the migration's key |
| `ChargeIdentity.RecordTells` | app/services/collection.py:95-129 | the record built of an item holds its supporter, sums, time, words and the first thousand characters of its listed fields |
| `ChargeIdentity.UidNameIff` | app/services/collection.py:132-133 | a supporter's name is passed over if and only if it is blank or reads the supporter id between blanks |
| `Charges.KeysAgreeIff` | migrations/versions/0006_canonical_charge_keys.py:20-55 | for every item that parses, the key the migration computes from the stored row is the collector's if and only if the order identifier found is the one found again in storage or, where there is none, none appears there and the supporter id survives |
| `Charges.KeysAgree` | migrations/versions/0006_canonical_charge_keys.py:20-55 | where every order id the item has is non-null and at most 1000 characters and its `mid` is non-empty and at most 1000, the key the migration computes from the stored row is the collector's key |
| `Charges.OrderIdDecides` | migrations/versions/0006_canonical_charge_keys.py:36-55 | a usable `id` of at most 1000 characters, or an `orderNo` where there is no `id`, keeps the two keys equal whatever the other fields are |
| `Charges.ContentKeysAgreeIff` | app/services/collection.py:48-66 | for an item without any order id the two keys agree if and only if the supporter id survives truncation and the `mid`/`uid` fall-back |
| `Charges.NullIdBreaksAgreement` | app/services/collection.py:112-115 | every item with a null `id`, whatever its other order ids, is re-keyed by the migration to one key per account, which is the collector's if and only if the identifier it found is the text `None` |
| `Charges.EnrichKeepsKeys` | app/services/collection.py:136-150 | seeing a charge again never changes its stored keys and, if the migration would give both sightings one key, it still gives the row that key |
| `CollectionFacts.ReplayIsIdle` | app/services/collection.py:204-219 | collecting items whose records are stored inserts nothing, enqueues nothing and leaves the set of records |
| `CollectionFacts.AbsorbCounts` | app/services/collection.py:205-241 | one item is either inserted or a duplicate, and an event appears exactly when it is inserted and not suppressed |
| `CollectionFacts.RunCounts` | app/services/collection.py:199-241 | over a run of any pages however it ends: seen = inserted + duplicates, plus the one item it raised on if it did; new records = inserted; new events = inserted - suppressed |
| `Theorems.CollectionsBalance` | app/services/collection.py:199-241 | so in every run of the pipeline the counters of a collection are the sizes of what it did |
| `CollectionFacts.NewestIsMaximum` | app/services/collection.py:197-209 | the watermark a run leaves, unless it raised on an item, is at least the one it began with and every time on the pages it read, and is one of them |
| `CollectionFacts.AnnouncedIffNewer` | app/services/collection.py:220-238 | a new charge is stored in any case and announced if and only if strictly newer than the watermark |
| `CollectionFacts.AnnouncedAsCharged` | app/notifications/service.py:102-113 | the event of a new charge carries the supporter, amount, brokerage and time of its record, pending and due at once |
| `CollectionFacts.DifferentChargesAreStored` | app/services/collection.py:199-241 | two charges that their items tell apart are both stored, under two keys, by a run that reads them and does not fail; if both are new the records grow by two |
| `CollectionFacts.QuietRunStops` | app/services/collection.py:242-252 | a run that finds only stored charges no newer than the watermark reads at most two pages, whatever more there is, and leaves the watermark |
| `CollectionFacts.KnownPagesStop` | app/services/collection.py:242-252 | two such pages in a row end any run |
| `CollectionFacts.EndIsTold` | app/services/collection.py:253-317 | a failed run leaves the event that tells of it, and if the login has expired a second one and the account out of service, watermark and check time as they were; any other run moves both and tells of no failure |
| `CollectionFacts.CompleteIff` | app/services/collection.py:199-254 | a run from any watermark over an unchanging feed never fails, moves the watermark to the newest charge, and has stored everything up to it if and only if every charge but the last 5000 of the feed was stored before |
| `CollectionFacts.NewChargesCompleteIff` | app/services/collection.py:199-254 | so where exactly `m` charges are newer than the watermark and none of those is stored yet, it is complete if and only if `m` is at most 5000 |
| `CollectionFacts.FirstRunCompleteIff` | app/services/collection.py:199-254 | and a first run that finds nothing of the feed stored is complete if and only if the feed has at most 5000 charges |
| `Feed.PageTimes` | app/bilibili/client.py:238-242 | what a page shows of the feed's times, and that a known page ends at a charge no newer than the watermark |
| `Feed.TurnSweeps` | app/services/collection.py:242-252 | one turn of the page loop leaves no gap between the windows read so far, whatever the feed has gained meanwhile |
| `Feed.BrokenRunComplete` | app/services/collection.py:195-254 | a run that stops early has stored every charge present when it began and everything not newer than the watermark it leaves |
| `Feed.FailedRunKeeps` | app/services/collection.py:301-317 | a run that raises on any page loses nothing: the watermark stays and what was stored stays |
| `Feed.CollectLosesNothing` | app/services/collection.py:195-317 | a stored run, ended either way, keeps "every feed charge not newer than the watermark is stored" |
| `FeedRuns.NothingIsLost` | app/services/collection.py:195-317 | the same over every sequence of pipeline steps in which the account stays bound and no collection of it runs out of pages, while the feed gains later charges, of equal seconds too except among those that appear while a run pages |
| `DeliveryPass.PassRows` | app/notifications/service.py:229-269 | what every delivery row is after a pass, row by row, although the loop updates one table |
| `DeliveryPass.PassFailures` | app/notifications/service.py:228-269 | the loop counts no failure if and only if every row of the pass ends in a success |
| `DeliveryPass.TurnTells` | app/notifications/service.py:229-269 | each channel is sent to if and only if it has no success and nothing to wait for, and its row then tells the attempt, the time of a success, and the time a failure is to be tried again |
| `DeliveryPass.BackoffDoubles` | app/notifications/service.py:263-277 | the first failure is followed by a wait of a minute, each further one by twice the wait before |
| `DeliveryPass.DeliverOutcome` | app/notifications/service.py:207-278 | a pass ends `delivered` if and only if some enabled subscribed channel matches and all matching ones have succeeded; `failed` if and only if not all have and the budget is spent; with no match it stays pending and nothing else changes |
| `DeliveryPass.DeliverSlots` | app/notifications/service.py:229-269 | a pass sends at most once per channel, and the whole change of the delivery table is those attempts |
| `DeliveryPass.RepairConverges` | app/notifications/service.py:201-278 | with its open deliveries due and all sends succeeding, one pass sends to exactly the matching channels without a success and delivers the event |
| `Reconciliation.RunRepairs` | app/services/reconciliation.py:104-246 | every scanned record ends with its event, failed for good or with a row per enabled subscribed channel; existing rows change only from delivered to retry |
| `Reconciliation.RunKeepsTenants` | app/services/reconciliation.py:202-246 | every added row is pending, of a scanned record's event and a channel of that record's user |
| `Reconciliation.ReconciliationIdempotent` | app/services/reconciliation.py:104-169 | a second run over the same records changes nothing and reports every record complete or skipped |
| `Reconciliation.CountersMatch` | app/services/reconciliation.py:122-169 | every counter is the size of the change it names, and each scanned record is counted exactly once |
| `Reconciliation.RequeuedCount` | app/services/reconciliation.py:157-169 | as many events are reported as requeued as were delivered before the run and wait for a retry after it |
| `Reconciliation.RebuiltTells` | app/notifications/service.py:102-113 | a rebuilt event carries what its record tells, as the one collected with it does |
| `Machine.StepKeepsInv` | app/notifications/service.py:201-278 | every possible step, of all fourteen kinds, keeps the invariant on records, events, deliveries, successes and erased events |
| `Machine.BatchKeepsInv` | app/notifications/service.py:177-190 | delivering a selected batch keeps the invariant, and an event not reached yet is as the selection found it |
| `Invariants.AttemptKeepsSlotInv` | app/notifications/service.py:263-277 | after a failed attempt a delivery is due again no later than its event, although their attempts are counted separately |
| `Invariants.RetryKeepsInv` | app/routers/notifications.py:1051-1072 | a manual retry, granted or refused, keeps the invariant |
| `Invariants.CleanUpKeepsInv` | app/services/scheduler.py:208-219 | retention keeps the invariant: what it deletes is more than a week old, and so is its record |
| `Invariants.DeleteChannelKeepsInv` | app/routers/notifications.py:605-627 | deleting a channel, its deliveries moved to the audit trail, keeps the invariant |
| `Invariants.UnbindKeepsInv` | app/routers/accounts.py:195-209 | unbinding an account, which deletes its records and leaves their events, keeps the invariant |
| `Theorems.AtMostOneSuccess` | app/notifications/service.py:229-269 | over every run of collecting, delivering, reconciling, retrying, cleaning up and changing channels, an event about a charge is sent successfully to a channel at most once; over several events of one charge that the migration merged, see `MergedSends.SentTwiceIff` |
| `Theorems.SendBudget` | app/notifications/service.py:170-174 | after r manual retries an event has had at most 5 (r + 1) sending passes; with none, deliveries' attempts <= the event's <= 5, and failed means 5 |
| `Theorems.SelectedIsDue` | app/notifications/service.py:238-243 | without manual retries every open delivery of a selected event is due, so its pass sends to all that lack a success |
| `Theorems.NoPassOnlyWaits` | app/notifications/service.py:170-243 | in every run, a pass over a selected event not retried by hand sends if anyone is left to tell, and delivers if not |
| `Theorems.RepairConvergesInRun` | app/services/reconciliation.py:139-169 | in every reachable state one successful pass repairs any selectable event not retried by hand |
| `Tenants.OthersAreLeft` | app/notifications/service.py:167-177 | a pass, a reconciliation or a retry that one user asked for makes, changes and sends no event of another user |
| `Tenants.RequestedIsDelivered` | app/notifications/service.py:207-222 | after an accepted update of a user's subscription rules a pass over an event of the user has turns for exactly the channels the rules ask for that are switched on |
| `Theorems.EligibleIffAnnounced` | app/services/collection.py:220-241 | over every run a record is eligible if and only if newer than the watermark its run began with, and has had its event if and only if eligible, there or erased and not both |
| `Theorems.AnnouncedIsStored` | app/services/collection.py:223-234 | every event about a charge has its eligible record if and only if its account has not been unbound since |
| `Theorems.ErasedStaysErased` | app/services/scheduler.py:214-219 | with retention of at least 7 days and lookback of at most 168 hours, no charge event that retention deleted is ever rebuilt |
| `Theorems.ReconciliationNeverRebuilds` | app/services/reconciliation.py:171-200 | in every reachable state a reconciliation finds no event missing |
| `Stalls.RequeuedSelectableIff` | app/services/reconciliation.py:157-167 | a requeued event can be selected again if and only if it was delivered before its fifth attempt |
| `Stalls.RequeuedStuckIff` | app/services/reconciliation.py:157-167 | delivered on the fifth attempt and requeued, it is stuck if and only if none of its deliveries failed |
| `Stalls.StuckForever` | app/notifications/service.py:170-174 | whatever follows, manual retries included, a stuck event, waiting for a retry with its budget used up and no failed delivery, is never sent again |
| `Revival.ExhaustedSentIff` | app/routers/notifications.py:1034-1072 | in every reachable state, an event that waits for a retry with its budget used up is sent by some later run if and only if a delivery of it failed |
| `Revival.FailedCanBeRetried` | app/routers/notifications.py:1034-1072 | a failed delivery whose channel exists can be retried once the channel is switched on, subscribed or not, and its event can then be selected at once whatever its budget was |
| `Revival.RetryAnswers` | app/routers/notifications.py:1034-1072 | what each answer to a request for a retry means; it is granted if and only if the delivery is the user's own, has failed, and its event and its switched-on channel are there |
| `Revival.SwitchedOnIsQueued` | app/routers/notifications.py:1034-1072 | a retry is refused for a disabled channel if and only if switching the channel on gets it granted |
| `Stalls.SelectedIff` | app/notifications/service.py:167-177 | where no other waiting event has its creation instant, an event is in a selection if and only if it waits and fewer than a hundred others of the scope wait that were created no later |
| `Stalls.FewAheadIsSelected` | app/notifications/service.py:167-177 | ties or not, an event that waits with fewer than a hundred others created no later is selected |
| `Stalls.ManyOlderIsNotSelected` | app/notifications/service.py:167-177 | ties or not, an event behind a hundred older ones that wait is not |
| `Stalls.StarvedNotSelected` | app/notifications/service.py:175-177 | behind a hundred older waiting events of its user that no channel matches, an event is in no selection of any later instant, its user's or everyone's |
| `Stalls.StepLeavesStarved` | app/notifications/service.py:224-227 | every step of any kind, other than a pass over that very event, after which no channel matches those before it leaves the event starved and unsent |
| `Stalls.StarvedForever` | app/notifications/service.py:224-227 | so does every sequence of such steps |
| `Witnesses.StuckIsReached` | app/services/reconciliation.py:157-167 | a fresh installation reaches a stuck event: four failed passes, a fifth that succeeds, a second channel, a reconciliation |
| `Witnesses.StarvationIsReached` | app/notifications/service.py:175-177 | a fresh installation reaches a starved event: a hundred and one events of a user without a channel |
| `Witnesses.SecondSendIsReached` | migrations/versions/0006_canonical_charge_keys.py:181-203 | an upgraded installation with two records of one charge, the duplicate's event delivered, in which the charge can be sent to the same channel again |
| `Store.PipelineStore.EnqueueEvent` | app/notifications/service.py:78-99 | inserts once per dedupe key and says whether it did |
| `Store.PipelineStore.DeliverEvent` | app/notifications/service.py:201-278 | the loop over channels has exactly the effect `Pipeline.Deliver` states |
| `Store.PipelineStore.ProcessPending` | app/notifications/service.py:167-199 | every selected event gets one pass, and the counters count those that ended delivered, failed, and out of budget |
| `Store.PipelineStore.Retry` | app/routers/notifications.py:1034-1072 | which answer every request gets; granted only for the user's own failed delivery, which is then new, with its event selectable at once; refused, nothing changes; other rows never do |
| `Store.PipelineStore.ReconcileOne` | app/services/reconciliation.py:139-169 | one record repaired and counted as the specification says |
| `Store.PipelineStore.Reconcile` | app/services/reconciliation.py:104-137 | the whole run, tables and summary |
| `Store.PipelineStore.CleanUpExpired` | app/services/scheduler.py:214-219 | exactly the delivered and failed events older than the retention period go, and exactly their deliveries |
| `Store.PipelineStore.RemoveChannel` | app/routers/notifications.py:605-627 | the channel and its subscriptions go, its deliveries stay as an audit trail |
| `Store.PipelineStore.StoreItem` | app/services/collection.py:210-241 | known, new or conflicting: which rows change and how |
| `Store.PipelineStore.CollectLocked` | app/services/collection.py:195-317 | the page loop with its early stop, watermark and failure handling, with the counters of the run |
| `Migration.MergedTexts` | migrations/versions/0006_canonical_charge_keys.py:148-156 | avatar and remark of the row kept are its own or the first non-empty later ones; identity, money and time stay its own |
| `Migration.MergedRaw` | migrations/versions/0006_canonical_charge_keys.py:67-76 | every raw field any row of a group has is kept, with the first text of it that is not empty |
| `Migration.OwnNameStays` | migrations/versions/0006_canonical_charge_keys.py:148-151 | a row kept with an informative name keeps it, and so does one whose group has no other informative name |
| `Migration.NameIsFirstInformative` | migrations/versions/0006_canonical_charge_keys.py:148-151 | the name kept is its own if informative, else the first that is informative for its own row and differs from the kept row's uid |
| `Migration.FirstInformativeIff` | migrations/versions/0006_canonical_charge_keys.py:148-151 | a row kept without a name of its own gets the first informative one if and only if that is not the kept row's uid, or no later informative one differs from that uid and the last of them is the same text |
| `Migration.SameUidName` | migrations/versions/0006_canonical_charge_keys.py:148-151 | with one uid throughout a group that is the first informative name |
| `Migration.OtherUidName` | migrations/versions/0006_canonical_charge_keys.py:148-151 | so with several uids the first informative name can be replaced by a later one: two duplicates that show it |
| `Migration.SurvivorIdentity` | migrations/versions/0006_canonical_charge_keys.py:145-167 | the row kept keeps its identity, and its key is the one its merged data give |
| `Migration.EarliestRemains` | migrations/versions/0006_canonical_charge_keys.py:134-147 | of every group exactly the first row by creation and id remains |
| `Migration.OneRecordPerCharge` | migrations/versions/0006_canonical_charge_keys.py:134-220 | afterwards no two records of an account share a key, every record is represented, and none is to be announced |
| `Migration.NoOutboxIsLost` | migrations/versions/0006_canonical_charge_keys.py:169-203 | no event is deleted, dedupe keys stay pairwise distinct, and every merged event points straight at an unmerged one |
| `Migration.RowAfter` | migrations/versions/0006_canonical_charge_keys.py:181-203 | what becomes of each outbox row; the one a merged row points at carries the kept record's key |
| `Migration.KeptIff` | migrations/versions/0006_canonical_charge_keys.py:181-190 | of a charge's events the one that stays unmerged is the earliest record's own, and where that has none, the earliest by creation and id |
| `Migration.EventIsSettled` | migrations/versions/0006_canonical_charge_keys.py:181-203 | that event keeps its status and gets the earliest record's key; every other is marked as merged into it |
| `Migration.SurvivorKeepsAnEvent` | migrations/versions/0006_canonical_charge_keys.py:181-190 | if any row of a group had an event, the record kept has one under its own key |
| `Migration.CollectorFindsMigrated` | migrations/versions/0006_canonical_charge_keys.py:36-55 | a record made by any earlier release of an item whose keys survive storage is found afterwards under the key the collector computes for that item |
| `MigrationRun.ChargeTables.FillCanonical` | migrations/versions/0006_canonical_charge_keys.py:147-167 | the field-by-field loop merges as the specification says |
| `MigrationRun.ChargeTables.MergeOutboxes` | migrations/versions/0006_canonical_charge_keys.py:169-203 | one group's events: the first row's own is kept, or else the earliest, under the first row's key; the others are marked, and no others change |
| `MigrationRun.ChargeTables.Upgrade` | migrations/versions/0006_canonical_charge_keys.py:125-207 | the whole migration leaves exactly the records and outbox rows the specification gives, although groups are merged one after another over a changing index; of every charge the right event is kept |
| `Upgrade.UpgradedInv` | migrations/versions/0006_canonical_charge_keys.py:125-207 | a database the migration has just upgraded, its deliveries as the delivery service leaves them, whatever was retried by hand, meets the invariant of the pipeline; what is promised of runs, event by event, holds of it |
| `MergedSends.SentTwiceIff` | migrations/versions/0006_canonical_charge_keys.py:169-203 | over the event the migration keeps and those it merges into it, some run sends a charge to a channel a second time if and only if two of them had succeeded there before, or a merged one had, the kept one had not, and the kept one has budget left or a failed delivery |
| `MergedSends.StepKeepsClosed` | app/notifications/service.py:170-174 | no step of any kind sends or reopens a merged event, or an old one that has finished without a failed delivery |
| `Dispatch.EntryOnlyIfLive` | app/services/scheduler.py:361-388 | after a dispatch its job has a runtime entry only if enabled and its account, if any, active; an inactive account keeps none |
| `Dispatch.EntryIffLive` | app/services/scheduler.py:361-388 | after a dispatch its job has an entry if and only if it had one, is enabled and its account, if any, is active; the entry keeps its time and the row says it |
| `Dispatch.PersistFrame` | app/services/scheduler.py:361-388 | no other job, run or account is changed |
| `Dispatch.ExpiryClearsAccount` | app/services/collection.py:276-300 | a handler's login failure followed by the end of its dispatch closes the run and leaves no job of the account enabled or with an entry |
| `DispatchRuns.StepKeepsSound` | app/services/scheduler.py:247-339 | every step of any number of interleaved dispatches, direct collection and coupon requests, other requests, maintenance and restarts keeps the invariant on runs and locks |
| `DispatchRuns.FinishedRuns` | app/services/scheduler.py:306-327 | however its work ends, returned, raised, login expired, cancelled or unable to store anything, a dispatch closes its own run and writes no other |
| `DispatchRuns.FinalStatus` | app/services/scheduler.py:306-339 | a run ends with the handler's own status where it returned one, as a success for a resending that returned, and otherwise failed, with the time of its end |
| `DispatchRuns.TurnedAwayFails` | app/services/scheduler.py:253-307 | a run turned away before its handler takes it over has failed, for a reason that is given |
| `DispatchRuns.FailureIsReported` | app/services/scheduler.py:306-327 | a job's owner is told of a failure if and only if its handler raised |
| `DispatchRuns.NoRunIsAbandoned` | app/services/scheduler.py:247-339 | in every reachable state an open run is either held by exactly one dispatch or request still to close it or among those a request left open, and a run is open exactly when it has no final status with a finish time |
| `DispatchRuns.RequestLeavesRunIff` | app/routers/charges.py:32-60 | a direct request leaves its run open if and only if it is cancelled or cannot store its end |
| `DispatchRuns.UnheldRun` | app/services/scheduler.py:226-235 | a run nobody holds is never taken up again; a closed one never changes, an open one exactly at a restart or at the clean-up six hours later, which close it |
| `DispatchRuns.DepartureIsClean` | app/services/scheduler.py:328-339 | a dispatch that ends has closed its run, and its job keeps its entry, with its time, if and only if it is live |
| `DispatchRuns.StepKeepsEntry` | app/services/scheduler.py:247-388 | a live job with an entry stays live through every step but an expired login of its account, other requests aside, and keeps its entry, which only a restart gives another time |
| `DispatchRuns.LiveJobKeepsEntry` | app/services/scheduler.py:247-388 | so over any number of dispatches, direct requests, clean-ups and restarts it goes on being scheduled, at the time the last restart gave it |
| `DispatchRuns.EntryLeftIff` | app/services/scheduler.py:361-388 | after an expired login, until another request changes the account or its jobs, a job has an entry if and only if it had one then and no restart, no end of a dispatch of the account's jobs and no failure of its own has taken it |
| `DispatchRuns.ExpiryClearsIff` | app/services/collection.py:276-300 | found by a dispatch of one of the account's jobs, an expired login clears all its entries when that dispatch ends; found by a direct request it takes none, so the account is clear if and only if no job of it had one |
| `DispatchRuns.ExpirySilencesAccount` | app/services/collection.py:276-300 | after an expired login, whoever found it, and the end of any dispatch of the account's jobs, no job of the account is enabled or has an entry, restarts included, until another request changes the account or its jobs |
| `DispatchRuns.CollectionsExclude` | app/services/collection.py:164-170 | two collections never work on one account at a time, whether dispatched or requested directly |
| `DispatchRuns.RestartClosesEverything` | app/services/scheduler.py:48-69 | a restart leaves no run open, and exactly the enabled jobs have entries |
| `Scheduler.SchedulerManager.RecoverInterruptedRuns` | app/services/scheduler.py:116-133 | the loop over open runs, and the number returned |
| `Scheduler.SchedulerManager.GiveUpStaleRuns` | app/services/scheduler.py:226-235 | runs open for more than six hours are failed, and no other is changed |
| `Scheduler.SchedulerManager.Start` | app/services/scheduler.py:48-69 | a new process fails what was open, and exactly the enabled jobs get entries, with their next fire times stored |
| `Scheduler.SchedulerManager.PersistNextRunAt` | app/services/scheduler.py:361-388 | every branch, with the loops over the account's jobs: the job's entry stays, unchanged, if and only if the job is live, and its row says when it fires |
| `Scheduler.SchedulerManager.RemoveAccountJobs` | app/services/scheduler.py:162-174 | exactly the account's entries go, and the number returned is how many there were |
| `Scheduler.SchedulerManager.DispatchChecks` | app/services/scheduler.py:253-307 | admitted only for an enabled job, with a handler only for an active account of the job's user; turned away, a run handed over is queued no more; no other run changes |
| `Scheduler.SchedulerManager.HandleFailure` | app/services/scheduler.py:312-327 | the dispatch's run is open no more, runs closed before and other runs are not touched, and the job keeps its entry unless disabled |
| `DailyTask.DonationRun.NextVideo` | app/services/daily_task.py:418-439 | ends, and answers only an untried video with an id from the pool; it answers none only after the pool and every refill of it held no such video, the last refill being empty or the third |
| `DailyTask.DonationRun.FillPool` | app/services/daily_task.py:441-476 | the pool gains exactly the untried videos the searches found, and stays empty only when every configured uploader, the list of those followed, the first five of them, and the ranking were asked |
| `DailyTask.DonationRun.DonateCoins` | app/services/daily_task.py:342-416 | in every outcome the coins given are exactly the requests accepted in its turns, within the allowance, on pairwise distinct videos with fewer than two before; a run that comes to its end reports exactly them, and gave the whole allowance, took ten turns, found no untried video or was refused for good |
| `DailyTask.AllowanceIs` | app/services/daily_task.py:353-380 | the allowance is nothing where donating is off, skipped or without balance, and otherwise the largest number within the target, the balance less the protected coins, and ten |
| `DailyTask.AllowanceProtects` | app/services/daily_task.py:356-377 | coins given keep the day's target, the protected balance and the ten attempts |
| `DailyTask.DonatesAtMostOnce` | app/services/daily_task.py:82-142 | over all runs an account-day comes to donating at most once |
| `DailyTask.DonatesIff` | app/services/daily_task.py:82-158 | it does so if and only if the first run of the day that leaves a record is an enabled one that is not stopped before the coins |
| `DailyTask.DailyTaskService.RunOnce` | app/services/daily_task.py:82-198 | a run gives coins only if it is the one of its account-day that comes to donating, then those accepted in its turns, within its allowance; over any runs an account-day has at most ten coins, on pairwise distinct videos, and a partial day has none |
| `Limiter.SlidingWindowLimiter.Allow` | app/web_security.py:20-28 | the pruned deque decides exactly as the full history of accepted calls would, and leaves other keys' deques |
| `Limiter.AcceptedIff` | app/web_security.py:20-28 | a call is accepted if and only if fewer than the limit of its key's calls were accepted in the window that ends with it |
| `Limiter.WindowBound` | app/web_security.py:20-28 | any half-open interval of the window's length holds at most `limit` accepted calls of a key, over any calls |
| `Limiter.WindowBoundClosed` | app/web_security.py:20-28 | the same for intervals open at the start and closed at the end |
| `Limiter.KeysIndependent` | app/web_security.py:17-21 | what a key is granted depends on its own calls only |
| `ChannelConfig.MaskedViewRoundTrips` | app/routers/notifications.py:399-408 | saving the masked view of any configuration leaves it unchanged |
| `ChannelConfig.PartOfTheViewRoundTrips` | app/routers/notifications.py:399-408 | so does saving any part of that view |
| `ChannelConfig.MaskConfig` | app/routers/notifications.py:358-362 | the loop that builds the masked view |
| `ChannelConfig.ViewTells` | app/routers/notifications.py:348-362 | two configurations have one masked view if and only if they have the same entries, the open ones with the same values and the secret ones alike: short texts or plain values, longer texts with the same last four characters, objects with the same field names, or lists |
| `ChannelConfig.SensitiveIff` | app/routers/notifications.py:331-335 | an entry is secret if and only if its name is one of six or holds one of five words, in any letter case |
| `ChannelConfig.OpenEntriesShown` | app/routers/notifications.py:358-362 | every other entry is shown as stored |
| `ChannelConfig.OneEdit` | app/routers/notifications.py:399-408 | an edit of one entry changes that entry only, and a submitted mask changes nothing |
| `ChannelConfig.MergeStoresNoMask` | app/routers/notifications.py:365-383 | a merge never puts a mask where there was none |
| `ChannelConfig.PartialMaskIsStored` | app/routers/notifications.py:338-345 | a submitted object is stored, masks included, if and only if some field of it is not a mask or it was stored already |
| `ChannelConfig.MaskLooksMasked` | app/routers/notifications.py:338-355 | every mask is recognised as one, except that of an empty object, which is the object itself |
| `ChannelConfig.LooksMaskedIff` | app/routers/notifications.py:338-345 | a value is taken for a mask if and only if all it holds, at whatever depth, is texts that begin with three stars, and no object or list in it is empty |
| `ChannelConfig.MergeChannelConfig` | app/routers/notifications.py:399-408 | the loop over submitted entries |
| `SubscriptionRules.SubscriptionTable.UpdateSubscriptions` | app/routers/notifications.py:958-1009 | accepted if and only if every event is supported, named once and sent to own channels; a refusal changes nothing; otherwise the user's rows follow the rules |
| `SubscriptionRules.SubscriptionTable.ListSubscriptions` | app/routers/notifications.py:901-955 | for every event in order the ascending list of enabled own channels |
| `SubscriptionRules.SubscriptionTable.ReplaceChannelSubscriptions` | app/routers/notifications.py:533-556 | the channel is subscribed to exactly the selected events, other channels' rows untouched |
| `SubscriptionRules.ListedIsRequested` | app/routers/notifications.py:901-1009 | listing after an update gives exactly the sorted requested channels, and none for an event not mentioned |
| `SubscriptionRules.OthersUntouched` | app/routers/notifications.py:984-1006 | other users' rows stay as they were and no row disappears |
| `SubscriptionRules.UpdateIsIdempotent` | app/routers/notifications.py:984-1006 | the same request again changes nothing |

## Left out

- Limiter.SlidingWindowLimiter.Allow: windows are positive, as every caller's are; the limit and the window are a function of the key.
- Charges.KeysAgreeIff: raw data that is not an object counts as an empty one, and the constant `schema_version` entry is not modelled; neither is read by either key.
- DailyTask.DonationRun.NextVideo: the choice among untried videos is arbitrary rather than uniformly random, and the shuffles of the lists are the caller's.
- DispatchRuns.NoRunIsAbandoned: a dispatch cancelled before its first step leaves its run queued until the restart's recovery; this happens only in shutdown and appears as `Restart`.
- DispatchRuns.ExpirySilencesAccount: the events a handler enqueues on failure are modelled in `Collection`, not again here; closing the client is taken not to raise, and an error while storing the next fire time is not modelled.
- SubscriptionRules.SubscriptionTable.ListSubscriptions: channel ids are numbers, ordered as such; titles, descriptions and the list of channels in the view are presentation.
- Concurrency inside one delivery pass or one reconciliation, and the reconciliation lock: passes are serial steps.
- The handler that no job kind lacks: all four kinds have one, so the "unsupported job kind" branch cannot be reached.
- Deleting old job runs, sessions and login sessions: single conditional deletes. The one for job runs leaves runs that ended as a partial success out of its list of final states, so those are kept for good (`app/services/scheduler.py`, lines 220-225).
- The coupon service: one request and one row a month, the same shape as the daily task's record.
- Watching and sharing in the daily task: single requests whose results are recorded.
- The steps of sending, rendering and redacting a message, and provider settings: a send succeeds or not.
- Encryption of settings and cookies, passwords, sessions, CSRF checks, HTTP routing and views: library calls and plumbing.
- Validating a channel's settings beyond refusing masks: fixed lists of required fields and URL checks.
- Dashboards, CSV export and share links: queries without state of their own.
- Cron and interval computation: the next fire time is an argument.
- The schema part of the migration, its downgrade and the other migrations.
- Durations in milliseconds, log lines and texts shown to users.
