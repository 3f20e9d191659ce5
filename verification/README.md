# Verification of the alert and delivery core

A Dafny 4.11 model of the parts of the platform that decide who is told about a missing child, on which channel, and
when, with proofs about all inputs, all runs and all interleavings. `dafny verify dfyconfig.toml` checks it.

## What is modelled

**The delivery engine as a concurrent step protocol.** `Protocol` holds the delivery tables, the outbox, the replay
set and any number of threads: matching workers, dispatch workers and callback handlers. A thread takes one database
round trip per step, keeps in-memory copies between steps, and may stop for good between any two of them. A claim is
two steps, the query that selects a row and the locked update, because the query reads lower tiers without locking
them. `ProtocolDispatch` and `ProtocolMatching` show that each step keeps the invariant; `ProtocolSafety` draws the
consequences for every run, `ProtocolRows` says how a stored delivery can move and when it is stuck, `ProtocolCallbacks`
follows each callback's handler from arrival to its end, `ProtocolOutbox` says when a claimed event can still be
published, and `LostReports` and `StrandedRuns` build runs in which something is lost. The centre of the invariant
is that each delivery's log replays to its row (`DeliveryLog`), so one fact carries versions, attempt numbers and the
counters.

**The same code as imperative programs.** `Deliveries.Delivery`, `Repository.DeliveryRepository`, `Dispatch`,
`Matching`, `Callbacks` are classes and loops in the form of the original, each specified by the functions the
protocol uses. `Dispatch.Drain` runs the worker to quiescence under an arbitrary channel.

**Matching and planning.** `Subscriptions` and `Planning` take an alert through rule evaluation, grouping by consumer
and planning, and characterise the resulting plan exactly. `Matching` persists it over a connection that fails where a
script says, as do the dispatch worker and the callback handler.

**Cases and alerts over whole runs.** `Lifecycle` lets requests read a case in two queries, decide in memory and write
back by compare-and-set; `LifecycleTheorems` says what must have happened before an alert can exist.

**Laws beside the specifications.** Where a method is specified by a function, the function has a law of its own, in
terms of the data alone: what becomes of a delivery for each answer (`OutcomeIsRecorded`), what may be claimed and in
which order (`ReadyIff`, `ClaimTakesFirst`), which callbacks are the same (`KeysAgreeIff`), what each rule accepts
(`RuleHoldsIff`), whom an alert is meant for (`PlannedIffMeant`), who may change a case or register whom
(`ReviewersDecide`, `GrantedIff`), and what an issued alert carries (`IssuedIff`).

**Queries, citizen subscriptions, memberships.** `AlertListing`, `Geography`, `Citizen`; `MembershipRuns` with each
registration one step, `RegistrationRaces` with its round trips interleaved.

## What the proofs found

- Planned deliveries are persisted in one transaction each, not all together, so a fault can leave an alert with part of
  its plan (`AbandonedRun`). A claimed event can still be published if and only if some matching worker has it in its
  batch (`ClaimedIsPublishableIffOwned`). Once its worker is gone it stays claimed, and no delivery its plan lacks is
  ever added (`AbandonedForGood`, `AbandonedGainsNothing`).
- A delivery whose worker is gone while it is Sending is stuck for good, and so is every later channel of its chain
  (`StuckRun`, `StuckChainRun`, `StuckHoldsItsChain`). A Sending delivery can move if and only if some worker holds it
  (`SendingMovesIffHeld`).
- The dispatch worker ignores whether its write applied. That is safe: the write cannot conflict
  (`WorkerWritesAlwaysApply`).
- A failure callback can never take effect. The lookup by provider message id needs a recorded success, and a delivery
  with one has left Sending, the only status that accepts a failure (`FailureReportsChangeNothing`).
- A delivery callback can be lost although it arrived. It takes effect if and only if its handler's lookup finds the
  recorded send and the handler does not die before its write (`ReportTakesEffectIff`); once the handler is gone, no
  repeat is looked at again (`GoneForGood`). A report looked up before the worker has recorded the send is lost
  (`EarlyLookupLoses`), and so is one whose handler meets a database fault behind the replay guard, even for a delivery
  long Sent (`DyingHandlerLoses`). Arriving early is not what loses it (`LateLookupConfirms`).
- The lookup by message id does not ask for the channel, and nothing keeps message ids unique. A report confirms a
  delivery sent under the id it names, which is the only such delivery where ids are unique (`ConfirmedIsTheOneMeant`);
  where they are not, a report of one channel can confirm the delivery on another (`CrossedRun`).
- A first registration that stops between creating its account and adding its membership locks the deployment out
  (`LockedOutRun`): with an account and no member, a platform admin can still appear if and only if another first
  registration is in flight and can finish (`AdminIsPossibleIff`). Two first registrations at once make two platform
  admins (`TwoAdminsRun`). The other promises about registrations survive every interleaving
  (`EveryInterleavingIsSound`, `OrgAdminsOnlyAddMembers`).
- The alert listing returns nothing to a caller without subscriptions, although the access check lets an organization
  read the alerts it issued; `ListedIsReadablePageIff` gives the exact condition.
- An alert can be issued for a case that was cancelled after the request read it (`AlertForCancelledCase`); a
  cancellation is the only change that can be missed (`IssueMissesOnlyACancellation`).
- The gate's comment speaks of a delivery left alone by a succeeded lower tier. The proof needs one thing more that the
  code provides: the deliveries of a chain are inserted in tier order, so no lower tier appears behind an open gate
  (`InsertsInTierOrder`).

## Model

| member | source | states |
|---|---|---|
| `ProtocolSafety.FallbackExclusion` | README.md:121-130 | In every state of every interleaving: a delivery that left the queue found all lower tiers of its alert and consumer failed for good, and under a sequential strategy two deliveries of a chain are never both sending, retrying, sent or delivered |
| `ProtocolSafety.LogAgreement` | crates/domain/src/delivery.rs:561-639 | However workers and callbacks race, each delivery's persisted events replay to its stored row, are versioned 1..version without gap or repeat, number attempts in increasing order, and report delivery at most once; version and attempts are balanced exactly by status |
| `ProtocolSafety.WorkerWritesAlwaysApply` | apps/worker/src/dispatch.rs:84-135 | The worker's `expect("a claimed delivery is always Sending")` cannot fire in either place, and its write always applies, so ignoring the write's outcome loses nothing |
| `Protocol.OutcomeIsRecorded` | apps/worker/src/dispatch.rs:101-109 | Recording an answer on a delivery being sent cannot fail: accepted leads to Sent with the message id; refused leads to Retrying if and only if the refusal is retryable and attempts are left, else to FailedPermanently; the attempt keeps the answer and the attempt number |
| `ProtocolSafety.SelectedGateStaysOpen` | crates/infrastructure/src/postgres/deliveries.rs:304-408 | A gate that the claim query saw open, without locking the lower tiers it read, is still open when the claim is made, and the locked row's update always applies |
| `ProtocolSafety.DeliveryReportsStick` | apps/api/src/webhooks.rs:90-132 | A delivery report that reaches a delivery leaves it Delivered even when the handler's copy was stale or another handler came first, and changes no other row |
| `ProtocolSafety.FailureReportsChangeNothing` | crates/domain/src/delivery.rs:607-639 | A failure report never changes any delivery at any point of any run: the delivery it can find is already past Sending |
| `ProtocolSafety.OutboxSafety` | apps/worker/src/subscription_matching.rs:36-60 | In every reachable state a published event has its whole plan on record, no two deliveries share an idempotency key, every delivery of an alert is in the plan made for that alert, and an unclaimed event has no plan |
| `ProtocolSafety.NothingIsPlannedTwice` | apps/worker/src/subscription_matching.rs:36-60 | Whenever a worker plans an event it has not been planned before, and whenever it inserts a planned delivery the key is free |
| `ProtocolSafety.CrashSafeBatches` | apps/worker/src/subscription_matching.rs:36-60 | With workers stopping at any point, every batch ever claimed is a published prefix, planned in full, followed by claimed events of which only the first may have been planned |
| `ProtocolSafety.AbandonedBatchIsFrozen` | migrations/0016_outbox_claim_lease.up.sql:11-21 | No single step of the engine touches the events of a batch whose worker is gone; `ProtocolOutbox` carries this to every continuation |
| `ProtocolOutbox.ClaimedIsPublishableIffOwned` | migrations/0016_outbox_claim_lease.up.sql:11-21 | At the end of any run, a claimed event is published in some continuation if and only if some matching worker has it in its batch |
| `ProtocolOutbox.AbandonedForGood` | migrations/0016_outbox_claim_lease.up.sql:11-21 | In every continuation a claimed event whose worker is gone stays claimed by nobody, and its plan and the ids made for it stay as they are |
| `ProtocolOutbox.AbandonedGainsNothing` | apps/worker/src/subscription_matching.rs:36-60 | In every continuation the deliveries on record for an abandoned event are exactly those it had: what its plan lacks it lacks for good |
| `ProtocolOutbox.OwnerCanPublish` | apps/worker/src/subscription_matching.rs:36-60 | From any state of any run, the worker that has an unpublished event ahead in its batch can go on until it has published it |
| `StrandedRuns.AbandonedRun` | crates/infrastructure/src/postgres/deliveries.rs:415-449 | A concrete run for every alert, consumer, strategy and pair of channels: a fault between two inserts leaves the event abandoned with the first delivery on record and the second missing |
| `ProtocolSafety.RunIsQuiescentIffSettled` | README.md:121-130 | At the end of any run nothing is left to claim if and only if every chain has failed throughout or has settled |
| `ProtocolCallbacks.RepeatsChangeNothing` | apps/api/src/webhooks.rs:80-132 | Every run of the engine, with callbacks interleaved step by step with each other and with the workers, leads exactly where it leads with every repeated arrival dropped, wherever the first copy's handler stands; a repeat is an arrival with the channel and event id of an earlier one (`Webhook.KeysAgreeIff`) |
| `ProtocolCallbacks.RepeatCanBeAdded` | crates/application/src/webhook.rs:102-118 | A repeat can arrive at the end of any run, at any free thread, and changes nothing |
| `ProtocolCallbacks.ReplayIsArrivedKeys` | crates/application/src/webhook.rs:102-118 | In every run the replay guard remembers exactly the keys that have arrived |
| `Webhook.KeysAgreeIff` | crates/application/src/webhook.rs:110-118 | The guard tells two callbacks apart exactly by channel and provider event id |
| `ProtocolCallbacks.NewEventsReachTheirLookup` | apps/api/src/webhooks.rs:80-88 | After any run a callback whose channel and event id no earlier arrival had goes on to its lookup; any other changes nothing |
| `ProtocolCallbacks.EveryHandlersStory` | apps/api/src/webhooks.rs:80-132 | A key has at most one handler at a time, and only once it has arrived; the handler is waiting, applying, or done in exactly one of three ways: it wrote, its lookup missed, or it died |
| `ProtocolCallbacks.ReportTakesEffectIff` | apps/api/src/webhooks.rs:80-132 | A delivery report whose handler is done confirmed a delivery sent under the message id it names if and only if its lookup found a recorded send and the handler did not die before its write |
| `ProtocolCallbacks.ConfirmedAtTheEnd` | crates/domain/src/delivery.rs:596-603 | A delivery a report confirmed is Delivered at the end of the run |
| `ProtocolCallbacks.ConfirmedIsTheOneMeant` | crates/infrastructure/src/postgres/deliveries.rs:257-281 | A delivery a report confirmed has a send on record under the message id the report names; where no two deliveries do, it is the only one |
| `ProtocolCallbacks.HandlersFoundTheirs` | crates/infrastructure/src/postgres/deliveries.rs:257-281 | In every run a handler past its lookup holds a delivery with a send on record under its event's message id |
| `StrandedRuns.CrossedRun` | migrations/0008_webhook_replay.up.sql:17-21 | A concrete run in which two channels use one message id and a report of the second channel confirms the delivery on the first, leaving its own merely Sent |
| `ProtocolCallbacks.FindingMeansSent` | crates/infrastructure/src/postgres/deliveries.rs:260-281 | A lookup that found something found a delivery then on record as Sent or Delivered, under the message id of the event that arrived first |
| `ProtocolCallbacks.GoneForGood` | apps/api/src/webhooks.rs:80-88 | Once a key's handler is gone, no step of any continuation is made for that key, whatever repeats arrive |
| `LostReports.EarlyLookupLoses` | apps/api/src/webhooks.rs:90-98 | A concrete run for every alert, consumer, endpoint and event: the report is looked up before the send is recorded, the delivery ends Sent, and no continuation ever applies the report |
| `LostReports.DyingHandlerLoses` | apps/api/src/webhooks.rs:80-98 | A concrete run: the delivery is already Sent, the handler dies after the guard, and no continuation ever applies the report |
| `LostReports.LateLookupConfirms` | apps/api/src/webhooks.rs:80-132 | A concrete run: the report arrives while the delivery is being sent, is looked up after the send is recorded, and confirms it |
| `ProtocolRows.RowMoves` | crates/domain/src/delivery.rs:561-639 | In every step a stored delivery moves only when its claim is started, when the worker that holds it records an outcome, or when a callback confirms it |
| `ProtocolRows.SendingMovesIffHeld` | migrations/0016_outbox_claim_lease.up.sql:17-21 | At the end of any run, a delivery that is Sending can still move in some continuation if and only if some worker holds it |
| `ProtocolRows.StuckForGood` | migrations/0016_outbox_claim_lease.up.sql:17-21 | In every continuation a Sending delivery whose worker is gone stays exactly as it is |
| `ProtocolRows.StuckHoldsItsChain` | README.md:121-130 | In every continuation the higher tiers of a stuck delivery's chain stay Queued with no attempt |
| `ProtocolRows.LogsOnlyGrow` | crates/infrastructure/src/postgres/deliveries.rs:596-649 | In every continuation each delivery's log keeps what it holds and only grows at its end |
| `StrandedRuns.StuckRun` | apps/worker/src/dispatch.rs:84-98 | A concrete run for every alert, consumer and endpoint that ends with the only delivery stuck |
| `StrandedRuns.StuckChainRun` | README.md:121-130 | A concrete run that ends with the first channel stuck and the second channel of the same priority list on record behind it |
| `ProtocolSafety.ReachableInv` | crates/infrastructure/src/postgres/deliveries.rs:304-408 | Every state of every run satisfies the protocol invariant (tables, gate, plans, batches, in-flight copies) |
| `ProtocolSafety.ChainTiersDiffer` | crates/domain/src/delivery.rs:196-217 | Two stored deliveries of the same alert and consumer are on different channels, and under a sequential strategy in different tiers |
| `ProtocolMatching.InsertsInTierOrder` | crates/infrastructure/src/postgres/deliveries.rs:415-449 | The next delivery a matching worker inserts has the highest tier of its chain so far, so inserting it closes no gate that is open |
| `ProtocolMatching.KeyIsFree` | crates/infrastructure/src/postgres/deliveries.rs:524-558 | The next planned delivery's idempotency key is not on record |
| `ProtocolDispatch.ApplyEffect` | crates/application/src/delivery_workflow.rs:194-207 | Exactly what writing a possibly stale callback back does: a failure report nothing; a delivery report either moves Sent to Delivered or finds it Delivered already |
| `Database.InsertKeeps` | crates/infrastructure/src/postgres/deliveries.rs:524-558 | Inserting a planned delivery keeps log agreement and the gate, and closes no open gate |
| `Database.CompareAndSetKeeps` | crates/infrastructure/src/postgres/deliveries.rs:564-594 | A transition that follows the stored row always applies; the write keeps log agreement and the gate, and closes no open gate |
| `Database.AtMostOneActive` | README.md:121-130 | Two deliveries of a chain in different tiers are never both in progress or successful |
| `Database.QuiescentIffSettled` | README.md:121-130 | Nothing is claimable, even with every backoff elapsed, if and only if every chain has all channels failed, or is settled on one delivery (being sent, sent or delivered) with every lower tier failed and every higher tier queued with no attempt |
| `Repository.DeliveryRepository.Create` | crates/infrastructure/src/postgres/deliveries.rs:415-449 | A planned delivery is inserted as Queued, version 1, with its first event, exactly when its idempotency key is free; otherwise nothing changes |
| `Repository.DeliveryRepository.ApplyTransition` | crates/infrastructure/src/postgres/deliveries.rs:454-519 | Compare-and-set on the version: Applied and written with its event, or Conflict and unchanged |
| `Repository.DeliveryRepository.ClaimNext` | crates/infrastructure/src/postgres/deliveries.rs:304-408 | Claims only deliveries that were queued, or waiting for a retry whose backoff has elapsed, behind lower tiers that have all failed for good; of these the ones created first, in that order, up to the limit; each gets status Sending, one more attempt and the next version, and no other row changes; log agreement and the gate are kept |
| `Repository.ReadyIff` | crates/infrastructure/src/postgres/deliveries.rs:317-345 | A delivery is ready if and only if it is queued, or retrying and due, and every lower tier of its alert and consumer is FailedPermanently |
| `Repository.ClaimTakesFirst` | crates/infrastructure/src/postgres/deliveries.rs:317-345 | Whatever the claim leaves out although it could be claimed was created after everything it takes, and it leaves something out only when the limit is reached |
| `Repository.ClaimableInOrder` | crates/infrastructure/src/postgres/deliveries.rs:317-345 | Of two claimable deliveries the one created first comes first |
| `Repository.DeliveryRepository.StartSelected` | crates/infrastructure/src/postgres/deliveries.rs:358-406 | The claim's loop: every selected row is started and written, and the copies returned are the stored rows |
| `Repository.StartAllKeeps` | crates/infrastructure/src/postgres/deliveries.rs:358-406 | Starting a set of ready deliveries keeps log agreement, the gate and every open gate, starts exactly those and leaves the others |
| `Repository.DeliveryRepository.FindByProviderMessageId` | crates/infrastructure/src/postgres/deliveries.rs:260-281 | Finds a delivery with a successful attempt under the message id whose attempt number is largest; none exactly when no such attempt exists |
| `Repository.FoundIsLatest` | crates/infrastructure/src/postgres/deliveries.rs:257-281 | A found delivery holds a successful attempt under the message id, and no such attempt of any delivery has a higher number |
| `Deliveries.NewPreference` | crates/domain/src/delivery.rs:168-185 | A preference exists if and only if it has at least one endpoint and repeats no channel; the error names the first repeated channel |
| `Deliveries.AtMostFourChannels` | crates/domain/src/delivery.rs:201-217 | Without repeats a preference has at most four endpoints |
| `Deliveries.TierIsPosition` | crates/domain/src/delivery.rs:201-217 | The eight-bit cast never truncates: in a sequential preference the tier is the position, below 4 |
| `Deliveries.KeyDeterminesEndpoint` | crates/domain/src/delivery.rs:228-241 | Two idempotency keys are equal if and only if consumer, alert, channel and address all are, whatever colons the address holds |
| `Deliveries.BackoffFormula` | crates/domain/src/delivery.rs:291-300 | For every attempt n >= 1 the capped-exponent computation is min(30 * 2^(n-1), 1800) seconds, never shrinks and never overflows |
| `Deliveries.Delivery.StartAttempt` | crates/domain/src/delivery.rs:561-572 | From Queued or Retrying: Sending, one more attempt, next version and its event; otherwise an error and no change |
| `Deliveries.Delivery.RecordSuccess` | crates/domain/src/delivery.rs:575-593 | From Sending: Sent, next version, the attempt and its event; otherwise an error and no change |
| `Deliveries.Delivery.RecordDelivered` | crates/domain/src/delivery.rs:596-603 | From Sent: Delivered, next version and its event; otherwise an error and no change |
| `Deliveries.Delivery.RecordFailure` | crates/domain/src/delivery.rs:607-639 | From Sending: Retrying when retryable with attempts left, else FailedPermanently, with the attempt and its event; otherwise an error and no change |
| `DeliveryLog.TransitionsReplay` | crates/domain/src/delivery.rs:561-639 | Each of the four transitions writes an entry that replays to exactly the row it writes |
| `DeliveryLog.Accounting` | crates/domain/src/delivery.rs:431-460 | attempts <= max; version is 1 when Queued, 2a when Sending, 2a+1 when Retrying, Sent or FailedPermanently, 2a+2 when Delivered; the log has as many entries as the version, at most 2*max+2 |
| `DeliveryLog.CountersNeverOverflow` | crates/domain/src/delivery.rs:561-572 | Attempts stay within 32 bits and the version within 64 |
| `DeliveryLog.VersionsAreGapFree` | crates/domain/src/delivery.rs:543-550 | Event versions are 1, 2, ..., version |
| `DeliveryLog.AttemptNumbersIncrease` | crates/domain/src/delivery.rs:575-639 | Recorded attempts are numbered strictly increasing from 1 up to the attempt count |
| `DeliveryLog.SentIffRecorded` | crates/domain/src/delivery.rs:575-593 | A successful attempt is on record if and only if the delivery is Sent or Delivered |
| `DeliveryLog.DeliveredIsLast` | crates/domain/src/delivery.rs:596-603 | A delivered event is the last event and leaves the delivery Delivered |
| `DeliveryLog.BackoffIsExact` | crates/domain/src/delivery.rs:538-541 | All the backoff set along a run is exactly the formula summed over the retries scheduled so far |
| `DeliveryLog.BackoffIsBounded` | crates/domain/src/delivery.rs:538-541 | A delivery with m attempts waits at most the sum of the formula for 1..m-1, however it runs |
| `Dispatch.DispatchOne` | apps/worker/src/dispatch.rs:43-111 | Without a database fault a claimed delivery whose channel is not registered, or whose alert is gone, fails for good with that reason; otherwise its channel's answer decides: accepted Sent, refused Retrying if and only if retryable with attempts left, else FailedPermanently; the attempt is recorded and written once; with a fault, even after the send, its row stays as it was |
| `Dispatch.FinishedRecords` | apps/worker/src/dispatch.rs:43-111 | What is recorded for each delivery: a permanent failure without its channel or alert, else exactly what the channel answered |
| `Dispatch.Fail` | apps/worker/src/dispatch.rs:115-135 | A failure is recorded on a claimed delivery without rejection or conflict, or the row is left alone by a database fault |
| `Dispatch.ProcessBatch` | apps/worker/src/dispatch.rs:23-36 | With a fault possible at every round trip: the cycle claims the first ready deliveries or nothing, each of a prefix of them ends its attempt as its channel answered, exactly the rest stay Sending, and success is reported only for the whole batch |
| `Dispatch.FinishAllKeeps` | apps/worker/src/dispatch.rs:29-33 | Recording outcomes on claimed deliveries keeps log agreement and the gate and touches nothing else |
| `Dispatch.PrefixWasAttempted` | apps/worker/src/dispatch.rs:23-36 | Each delivery of the recorded prefix of a batch was started and then recorded as answered: from its waiting row to the row its answer calls for |
| `Dispatch.BatchRows` | apps/worker/src/dispatch.rs:23-36 | Each delivery of a batch goes through one whole attempt; every other row stays as it was |
| `Dispatch.BatchMakesProgress` | apps/worker/src/dispatch.rs:23-36 | Whatever the channels answer, a non-empty batch strictly reduces the transitions still possible, and leaves nothing Sending |
| `Dispatch.QuietChainsAreDrained` | README.md:121-130 | With nothing claimable and no worker dead, each chain is all failed, or exactly one tier was sent or delivered, lower tiers failed, higher tiers queued with no attempt |
| `Dispatch.Drain` | apps/worker/src/dispatch.rs:23-36 | Repeated cycles terminate under any channel answers, within the transitions left plus one rounds, with every chain drained |
| `Callbacks.ReplayGuard.RecordIfNew` | crates/application/src/webhook.rs:102-118 | True the first time a channel's event id is presented, false ever after |
| `Callbacks.ApplyWebhookEvent` | crates/application/src/delivery_workflow.rs:194-207 | A verified event becomes the transition its status asks for, or its rejection with the delivery unchanged |
| `Callbacks.ReceiveWebhook` | apps/api/src/webhooks.rs:34-133 | The whole handler with a fault possible at every round trip: an event whose channel and event id were seen before changes nothing; a new one is recorded as seen and applied to the delivery its lookup answers with, if any; after a fault nothing is written, but the event may be marked as seen |
| `Callbacks.RetryAfterFaultIsIgnored` | apps/api/src/webhooks.rs:80-98 | The retry the error answer asks for changes nothing once the guard had been passed |
| `Callbacks.FirstArrivalDecides` | apps/api/src/webhooks.rs:80-132 | A handler that runs without interruption changes the tables if and only if its key is new, it reports delivery, and its lookup answers with a delivery that is Sent; that delivery is then Delivered |
| `Callbacks.RepeatsChangeNothing` | crates/application/src/webhook.rs:102-118 | For handlers that run one at a time between arbitrary other changes of the tables, a stream of callbacks reaches a state if and only if its first occurrences alone do |
| `Webhook.FoundWasSent` | crates/infrastructure/src/postgres/deliveries.rs:260-281 | A delivery found by provider message id has a successful attempt on record |
| `Webhook.FailureReportsAreRejected` | crates/domain/src/delivery.rs:607-639 | A failure report on a delivery found by message id is always rejected |
| `Subscriptions.MatchedIffAllRulesHold` | crates/domain/src/subscription.rs:305-318 | A subscription matches if and only if each of its rules accepts the alert; the decision names the subscription, its version and its consumer, and says of each rule whether it accepted |
| `Subscriptions.RuleHoldsIff` | crates/domain/src/subscription.rs:284-299 | What each kind of rule accepts: a listed incident type, a severity that stands in the comparison, a listed trigger, a target in which a listed area is named, a listed visibility |
| `Subscriptions.MatchesTargetIff` | crates/domain/src/subscription.rs:102-107 | A target matches an area if and only if, in lower case, it reads something, the area, something |
| `Subscriptions.CompareIff` | crates/domain/src/subscription.rs:24-32 | Each of the five comparisons in terms of the order of the severities |
| `Alerts.RankOrders` | crates/domain/src/alert.rs:136-142 | Ranks order the severities low, medium, high, critical |
| `Subscriptions.EditableSubscription.UpdateRules` | crates/domain/src/subscription.rs:258-268 | Non-empty rules replace the old and advance the version; an empty list is refused and changes nothing |
| `Subscriptions.DeduplicateByConsumer` | crates/domain/src/subscription.rs:355-372 | The in-place grouping loop computes the stable group-by |
| `Subscriptions.Consumers` | crates/domain/src/subscription.rs:355-372 | The group keys are the consumers of matched decisions, once each |
| `Subscriptions.GroupedSnoc` | crates/domain/src/subscription.rs:355-372 | One more match extends its consumer's group at the end, or opens a new last group, and leaves the others |
| `Subscriptions.GroupingConserves` | crates/domain/src/subscription.rs:355-372 | The groups hold as many matches as there are matched decisions: nothing lost or duplicated |
| `Planning.PlanDeliveries` | crates/domain/src/delivery.rs:647-668 | The nested loop computes the plan: per match with a preference, one delivery per channel in order |
| `Planning.PipelineWellFormed` | crates/domain/src/delivery.rs:647-668 | The pipeline's plan lists chains with increasing distinct tiers, distinct channels and valid attempt limits |
| `Planning.PipelineExact` | apps/worker/src/subscription_matching.rs:82-107 | A delivery is planned for a consumer and endpoint if and only if some subscription of the consumer has all rules satisfied and its preference lists the endpoint |
| `Planning.ExplanationsAreExact` | crates/domain/src/subscription.rs:355-372 | What explains a delivery is exactly the consumer's subscriptions that accept the alert, each with the version it had |
| `Matching.PlannedIffMeant` | apps/worker/src/subscription_matching.rs:67-108 | The worker's plan for an event holds a delivery for a consumer and endpoint if and only if the alert is stored, a stored subscription of the consumer accepts it rule by rule, and the stored preference lists the endpoint |
| `Planning.PipelineOnceEach` | apps/worker/src/subscription_matching.rs:82-107 | Keys within a plan are distinct, each entry is for the alert with five attempts, explained by exactly the consumer's accepting subscriptions with their versions, and the plan's length is the channel count summed over matched consumers with a preference |
| `Planning.PlanKeysDistinct` | crates/domain/src/delivery.rs:228-241 | Any two entries of a well-formed plan have different idempotency keys |
| `Planning.TierNamesTheEndpoint` | crates/domain/src/delivery.rs:201-217 | In a sequential strategy an entry's tier is where its endpoint stands in the preference |
| `Matching.MatchAndPlan` | apps/worker/src/subscription_matching.rs:67-108 | With a fault possible at every round trip, exactly a prefix of the alert's plan is persisted, the whole plan on success |
| `Matching.ReadPreferences` | apps/worker/src/subscription_matching.rs:89-98 | The preference loop finds the stored preference of every matched consumer, and holds no other consumer |
| `Matching.CreatePlanned` | crates/infrastructure/src/postgres/deliveries.rs:415-449 | One transaction per delivery: a fault leaves a prefix persisted; keys already on record are skipped |
| `Matching.ProcessBatch` | apps/worker/src/subscription_matching.rs:36-60 | Wherever a cycle stops, the published events are a prefix of its batch and the rest stay claimed; when the batch is new to the tables, exactly the whole plans of the published events and a prefix of the next one were added, and each published event has a delivery for exactly the consumers and endpoints it is meant for |
| `Matching.PlannedReachExactly` | apps/worker/src/subscription_matching.rs:36-60 | On the tables after a batch: each event planned in full has a delivery for a consumer and endpoint if and only if some stored subscription of the consumer accepts the alert and its preference lists the endpoint |
| `Matching.FirstPlanIsKept` | crates/infrastructure/src/postgres/deliveries.rs:524-558 | Planning an alert for the first time skips nothing |
| `Matching.BatchPlansAreKept` | crates/infrastructure/src/postgres/deliveries.rs:524-558 | For a batch with nothing on record, persisting the plans of its first events and part of the next one skips no entry |
| `Matching.ReplanningAddsNothing` | crates/infrastructure/src/postgres/deliveries.rs:524-558 | Planning what is on record adds nothing |
| `Matching.Outbox.ClaimUnpublished` | crates/infrastructure/src/postgres/outbox.rs:42-74 | Takes unclaimed events, the oldest first and in order, up to the limit; exactly those become claimed, all others stay as they were |
| `Matching.ClaimTakesOldest` | crates/infrastructure/src/postgres/outbox.rs:42-74 | Every event of the batch was unclaimed and has each older unclaimed event before it; an unclaimed event is left out only when the limit is reached |
| `Matching.Outbox.MarkPublished` | crates/infrastructure/src/postgres/outbox.rs:81-87 | Marks one event published and nothing else |
| `LifecycleTheorems.AlertProvenance` | crates/application/src/alert_workflow.rs:107-141 | Wherever an alert was issued, a reviewer had verified its case earlier; a community or public alert was issued by a reviewer; its fields repeat nothing, come from the policy's list, never hold the reporter's identity, nor a restricted field for community or public audiences |
| `LifecycleTheorems.CaseWhenAlertIssued` | crates/domain/src/alert.rs:475-480 | At the moment an alert is issued its case is verified, active, resolved or cancelled, never earlier and never rejected |
| `LifecycleTheorems.IssueMissesOnlyACancellation` | crates/domain/src/alert.rs:514-526 | The status check, made on the request's copy, agrees with the stored case if and only if the case is not cancelled; a cancellation can only have come after the request read it |
| `LifecycleTheorems.AlertForCancelledCase` | apps/api/src/alerts.rs:291-412 | For every case and issuable draft some run ends with an active alert for a case already cancelled |
| `LifecycleTheorems.EveryAlertWasIssued` | crates/infrastructure/src/postgres/alerts.rs:245-335 | Every stored alert was issued as it stands, or withdrawn once since; version 1 or 2 accordingly |
| `LifecycleTheorems.NothingHappensTwice` | crates/infrastructure/src/postgres/alerts.rs:341-389 | One idempotency key yields one alert, and one alert is withdrawn at most once |
| `LifecycleTheorems.CaseAccounting` | crates/domain/src/case.rs:166-239 | In every run reports are distinct and at least one, event versions are gap-free, and version = reports + depth of the status, with at most four status changes |
| `LifecycleTheorems.ReportsBelongToOneCase` | migrations/0004_case_workflow.up.sql:39-47 | No report is linked to two cases |
| `LifecycleTheorems.WrittenRowIsTheAnswer` | crates/infrastructure/src/postgres/cases.rs:214-301 | A written link or review leaves exactly the row the request computed from its two-query read |
| `LifecycleTheorems.ReviewNow` | crates/application/src/case_workflow.rs:172-189 | In every reachable state a permitted status change without a competing write succeeds |
| `LifecycleTheorems.ReviewersDecide` | crates/application/src/case_workflow.rs:59-65 | In every run whatever was verified, activated, resolved, cancelled or rejected, a reviewer did it |
| `LifecycleTheorems.OpenNow` | crates/infrastructure/src/postgres/cases.rs:165-211 | In every reachable state a report that belongs to no case can open one: Reported, version 1, that report, with its event |
| `LifecycleTheorems.LinkNow` | crates/infrastructure/src/postgres/cases.rs:214-257 | In every reachable state a report that belongs to no case can be linked to any case: it is appended, the version advances and the event is recorded |
| `LifecycleTheorems.IssueNow` | crates/application/src/alert_workflow.rs:107-141 | In every reachable state an alert may be issued for a case that allows it and is stored exactly as drafted, in its first version; under a key used before nothing happens |
| `LifecycleTheorems.CancelNow` | crates/infrastructure/src/postgres/alerts.rs:290-335 | In every reachable state a reviewer can withdraw an active alert, which makes it cancelled at version 2 |
| `LifecycleSafety.ReachableInv` | crates/infrastructure/src/postgres/cases.rs:165-301 | Every state of every run of cases and alerts satisfies the life-cycle invariant |
| `LifecycleSafety.ReadReportsKeeps` | crates/infrastructure/src/postgres/cases.rs:67-97 | A read torn between its two queries is harmless: a row that shows the stored version is the stored row |
| `LifecycleSafety.IssueKeeps` | crates/infrastructure/src/postgres/alerts.rs:245-286 | Issuing from a possibly stale copy keeps the invariant |
| `LifecycleSafety.CancelEffect` | crates/infrastructure/src/postgres/alerts.rs:290-335 | A cancellation changes nothing, or withdraws an alert that is still as issued, by a reviewer |
| `CaseLog.Accounting` | crates/domain/src/case.rs:200-262 | For every event log of a case: entries = version = reports + status changes, with exact depths and at most four changes |
| `CaseLog.VersionsAreGapFree` | crates/domain/src/case.rs:241-248 | Case event versions are 1, 2, ..., version |
| `CaseLog.VerifiedIffRecorded` | crates/application/src/case_workflow.rs:59-64 | A reviewer's verification is on record if and only if the case is verified, active, resolved or cancelled |
| `CaseLog.DecisionsAreReviewers` | crates/application/src/case_workflow.rs:59-65 | In every event log of a case the events from verification on, and a rejection, have a reviewer as actor |
| `CaseLog.ReviewReplays` | crates/domain/src/case.rs:228-273 | A review writes an event that replays to the row it writes |
| `CaseLog.LinkReplays` | crates/domain/src/case.rs:200-210 | A link writes an event that replays to the row it writes |
| `Cases.Case.LinkReport` | crates/domain/src/case.rs:200-210 | Appends a new report and advances the version; a linked one is refused without change |
| `Cases.Case.TransitionTo` | crates/domain/src/case.rs:228-239 | Makes a change if and only if it is one step along the main path, a rejection out of review or a cancellation after verification, and advances the version with the matching event; any other is refused without change |
| `Cases.AllowedIff` | crates/domain/src/case.rs:251-262 | The allowed changes are the steps along reported, under review, verified, active, resolved; a rejection out of review; and a cancellation of a verified or active case |
| `Cases.EventAnnounces` | crates/domain/src/case.rs:264-273 | The event of a change names the status entered |
| `Cases.ReviewCase` | crates/application/src/case_workflow.rs:172-189 | Succeeds if and only if the actor is a reviewer or the case only enters review, and the change is one step along the main path, a rejection out of review or a cancellation after verification; then exactly the status and version change and the matching event is returned; otherwise not authorized or invalid, in this order, without change |
| `Alerts.PolicyExistsIffSafe` | crates/domain/src/alert.rs:268-307 | A policy can be built if and only if its list is non-empty, never holds the reporter's identity, holds restricted fields only for internal or partner audiences, and triggers at verification or later |
| `Alerts.PolicyRefusals` | crates/domain/src/alert.rs:268-307 | Why a policy is refused: an empty list, the reporter's identity, the first restricted field with the visibility, or the trigger |
| `Alerts.TemplateIsSafe` | crates/domain/src/alert.rs:310-329 | The built-in template passes every policy check |
| `Alerts.FieldsAcceptedIff` | crates/domain/src/alert.rs:534-546 | Fields are accepted if and only if each is on the list and none repeats |
| `Alerts.CheckFields` | crates/domain/src/alert.rs:533-546 | The loop over the fields reports the first complaint from the left, or none exactly when all are acceptable |
| `Alerts.FirstComplaint` | crates/domain/src/alert.rs:533-546 | A complaint is about the first field that is not allowed or repeats an earlier one, and says which |
| `Alerts.CreateFromCase` | crates/domain/src/alert.rs:514-566 | An alert is created if and only if the case is verified, active or resolved, the incident type agrees and the fields are allowed without repeats; it carries the case's id, the policy, severity, area, fields and issuer it was asked for, active at version 1; each error names what it found, in the order of the checks |
| `Alerts.IssuedIff` | crates/application/src/alert_workflow.rs:107-141 | Issuing needs besides a reviewer, or an internal or partner audience; and what is issued is what was asked for |
| `Alerts.AlertAggregate.Cancel` | crates/application/src/alert_workflow.rs:170-184 | Only a reviewer cancels, and only an active alert; otherwise an error and no change |
| `AlertListing.ScanReadable` | apps/api/src/alerts.rs:502-533 | The hundred-row scan terminates and returns exactly the requested page of the readable alerts |
| `AlertListing.CanReadIff` | apps/api/src/alerts.rs:211-221 | A caller may read an alert if and only if they are a platform admin, their own organization issued it, or one of their subscriptions accepts it rule by rule |
| `Prelude.PageHolds` | apps/api/src/alerts.rs:502-533 | A page holds the elements from the offset on, in order, as many as there are up to the limit |
| `AlertListing.ListAlerts` | apps/api/src/alerts.rs:478-533 | The three branches: whole table for platform admins, nothing without subscriptions, the scan otherwise |
| `AlertListing.ListedIsReadablePageIff` | apps/api/src/alerts.rs:500-501 | The listing is the requested page of what the caller may read if and only if the caller is a platform admin, has a subscription, asks for no rows, or skips all its own organization's alerts |
| `AlertListing.OwnAlertsCanBeMissing` | apps/api/src/alerts.rs:211-221 | A caller whose organization issued an alert and has no subscription may read it, yet it is not listed |
| `Geography.ListGeographyAreas` | apps/api/src/subscriptions.rs:316-331 | The three nested loops and the sort compute one entry per lower-case form, strictly increasing under lower-casing, all of them subscriber areas |
| `Geography.ListingRepresents` | apps/api/src/subscriptions.rs:316-331 | The listing is strictly increasing under lower-casing, represents every subscriber area, and holds exactly the spellings that come first among those that agree in lower case |
| `Geography.AllAreasIff` | apps/api/src/subscriptions.rs:316-331 | The areas gathered are exactly those some geography rule of some subscription lists |
| `Geography.SpellingsAreFirst` | apps/api/src/subscriptions.rs:316-331 | Of the spellings that agree in lower case exactly the first in reading order is kept |
| `Geography.NewTargetIff` | crates/domain/src/alert.rs:202-209 | A target is what stands between the leading and trailing white space of its description; a blank one is refused |
| `Geography.ListedAreaReachesItsSubscribers` | crates/domain/src/subscription.rs:102-107 | Every subscriber area has exactly one entry in the list, and an alert targeted at that entry is accepted as written and matches the subscriber |
| `Geography.SortOrders` | apps/api/src/subscriptions.rs:329-329 | Sorting distinct keys gives a strictly increasing permutation |
| `Citizen.CitizenScope` | crates/application/src/citizen_subscription.rs:117-169 | After any sequence of edits the subscription matches an alert if and only if the request in force lists the incident type, the severity is not below the minimum, some non-blank area, trimmed, stands in the target ignoring case, and the alert is community or public |
| `Citizen.EditsLeaveCitizenRules` | apps/api/src/citizen_subscriptions.rs:259-340 | After any edits the rules are those of the last accepted request, and the version counts the accepted ones |
| `Citizen.UpdateCitizenSubscription` | apps/api/src/citizen_subscriptions.rs:274-305 | An acceptable request replaces the rules, any other is refused with its complaint and no change |
| `Citizen.CitizenStore.Update` | apps/api/src/citizen_subscriptions.rs:274-340 | The edit is written only over the version it was computed from, a stale one is a conflict without effect, a new push address replaces the preference, and a blank one is refused after the rules were written |
| `Citizen.ReadRules` | apps/api/src/citizen_subscriptions.rs:214-227 | Reading back returns the requested incident types, severity and the trimmed non-blank areas in order |
| `Citizen.KeptAreas` | crates/application/src/citizen_subscription.rs:117-169 | An area is kept if and only if it is the trimmed form of a requested name that is not blank |
| `Citizen.KeptInOrder` | crates/application/src/citizen_subscription.rs:117-169 | Areas are kept in the order they were requested |
| `Citizen.PreparedOrRefused` | crates/application/src/citizen_subscription.rs:117-169 | Refused exactly without incident types, without a non-blank area, or with a blank push address, in that order; otherwise version 1 for the given consumer with the trimmed push address as the only contact |
| `RegistrationRaces.EveryInterleavingIsSound` | apps/api/src/auth.rs:84-195 | With registrations interleaved at every round trip and stopping anywhere: memberships are well shaped and belong to accounts, no two accounts share an email, and as soon as anyone is a member there is a platform admin |
| `RegistrationRaces.OrgAdminsOnlyAddMembers` | crates/application/src/authorization.rs:111-127 | With registrations interleaved at every round trip: from a point after the first account with nothing privileged in flight, a stretch in which no platform admin clears a registration adds only members, each to an organization that had an admin before it |
| `RegistrationRaces.AdminIsPossibleIff` | apps/api/src/auth.rs:155-173 | Once an account exists, some continuation has a platform admin if and only if there is one already or a first registration in flight can still finish |
| `RegistrationRaces.LockedOutForGood` | apps/api/src/auth.rs:155-173 | With accounts, no member and no first registration that can finish, no continuation ever has a member |
| `RegistrationRaces.LockedOutRun` | apps/api/src/auth.rs:155-173 | A concrete run for every valid email: the first registration stops between creating its account and adding its membership, and the deployment is locked out |
| `RegistrationRaces.TwoAdminsRun` | apps/api/src/auth.rs:84-96 | A concrete run in which two first registrations both count no account and both make a platform admin |
| `MembershipRuns.EveryRunIsSound` | crates/application/src/authorization.rs:111-165 | With each registration one step: in every run from an empty deployment all memberships are well shaped, and a platform admin exists from the first account on |
| `MembershipRuns.OrgAdminsOnlyAddMembers` | crates/application/src/authorization.rs:111-127 | With each registration one step: a stretch of a run without platform-admin registrations adds only members, each to an organization that had an admin before it |
| `MembershipRuns.Registry.Register` | apps/api/src/auth.rs:84-195 | Succeeds if and only if no check objects, and then adds exactly the account asked for, the first one as a platform admin; otherwise answers with the first check that objects and changes nothing |
| `Organizations.GrantedIff` | apps/api/src/auth.rs:84-195 | When each check objects, in terms of the request and the stored accounts: a missing role, a role that does not fit the organization, a caller who is neither a platform admin nor an admin adding a member to the own organization, an unknown or inactive organization, an address without an at sign, a taken address; the first that objects is the answer, and without any the membership asked for is granted |
| `RegistrationRaces.UndisturbedIsOneStep` | apps/api/src/auth.rs:84-195 | From any state without a stranded account, the round trips of one registration in a row do exactly what the single step does, success or refusal |
| `Text.TrimIsTrimmed` | crates/domain/src/subscription.rs:89-96 | A trimmed name neither starts nor ends with white space |
| `Text.TrimIff` | crates/domain/src/subscription.rs:89-96 | Trimming is the one way to split a text into white space, a rest without white space at its ends, and white space |
| `Text.ContainsIff` | crates/domain/src/subscription.rs:102-107 | Containment is being readable as something, the part, something |
| `Text.LexLessIff` | apps/api/src/subscriptions.rs:329-329 | The order in which areas are listed: the shorter where one continues the other, else the smaller code point at the first difference |

## Left out

- Hashing of idempotency keys: the keys themselves are compared, so an accidental collision of their SHA-256 digests is
  not modelled.
- UUID generation: a new id is any id not yet in use. A UUID is 36 characters without a colon (section 4 of RFC 9562).
- Clock time: a delivery whose backoff has elapsed is one in the set `due`; in the protocol any waiting delivery may be
  claimed at any time, which includes every timing.
- Lower-casing: a parameter of everything that uses it, so the results hold for every such function; trimming is
  concrete, over the Unicode white-space characters.
- The SQL itself: each statement or transaction is one atomic step with the effect its text describes; isolation levels
  and lock waiting are not modelled, only that the claim's query does not lock the lower tiers.
- Audit rows and the outbox rows written for deliveries and cases, which nothing in the modelled code reads.
- Matching.CreatePlanned: the insert, its event and its outbox row are one step, as in their transaction; faults fall
  between transactions only.
- Callbacks.RepeatsChangeNothing: each callback of the stream is handled without interruption; the statement for handlers
  interleaved step by step is `ProtocolCallbacks.RepeatsChangeNothing`.
- Callbacks.FirstArrivalDecides: one uninterrupted handler; for interleaved and dying handlers see
  `ProtocolCallbacks.ReportTakesEffectIff`.
- Dispatch.Drain: assumes that every backoff has elapsed, that no worker dies and that the database answers; without
  that, a stuck Sending delivery holds its chain, as `ProtocolRows.StuckHoldsItsChain` says.
- Citizen.UpdateCitizenSubscription: the aggregate only; the write over the loaded version and the push address are in
  `Citizen.CitizenStore.Update`.
- Geography.ListedAreaReachesItsSubscribers: assumes that stored areas were built by the trimming constructor, which is
  the only way to build one.
- MembershipRuns.Registry.Register: counting, creating the account and adding the membership are one step here; in
  `RegistrationRaces` they are the separate round trips of the handler.
- RegistrationRaces.AdminIsPossibleIff: accounts and memberships made by other means than registration, such as by hand
  in the database, are not modelled.
- LifecycleTheorems.AlertProvenance: the organization checks that precede creating and cancelling only refuse more, and
  are left out.
- Alert text, message building and locales, the channels themselves and the signature check of callbacks: a send is
  answered by an arbitrary function of delivery and attempt.
- Report intake, attachments, follow-up tokens, sessions, rate limits, invitations, AI assistance, the HTTP layer and
  the TypeScript applications: outside the core.
- Round trips between enumerations and their database names, and the name-trimming constructors other than areas,
  addresses and targets: finite or one-branch facts.
