# Verified model of the Polymesh REST API's stateful cores

The Polymesh REST API is mostly a thin layer over an SDK, but three parts of it have state or algebra
of their own. This project models those three and proves what they guarantee.

1. **Webhook delivery** (`Webhook*.dfy`, `Payloads.dfy`, `Numerals.dfy`). Transactions report statuses,
   statuses become events, events fan out to active subscriptions under a nonce per subscription, and
   handshakes and notifications are retried through a keyed timer registry. The protocol is a step
   relation in which every `await` ends a step: `WebhookState` has the state, including the suspended
   continuations, and `WebhookSteps` the steps. Each of the modules from `WebhookDelivery` to
   `WebhookEndings` proves one group of invariants, and `WebhookTheorems`, `WebhookReadings`,
   `WebhookTermination`, `WebhookOutrun` and `WebhookTorn` state what holds in every run, for every
   interleaving, every response and every storage failure. `WebhookMeaning` and `WebhookRecords` spell
   out, on the records and the log, what each step does. `WebhookWitnesses` has runs that show what is *not* guaranteed.
   `WebhookServices` writes the services as classes, and `WebhookServer` has one method per step over
   those classes, each proved to take exactly that step.
2. **Offline signing** (`Offline*.dfy`, `LocalMessages.dfy`, `LocalCascade.dfy`). Requests, signatures and
   finalizations travel over durable queues, or over the in-memory message service. Crashes, redelivery,
   failed sends and rejected deliveries are steps of the model.
3. **Transfer restrictions and statistics** (`Restrictions.dfy`, `Stats.dfy`). A hand-written equality,
   a normaliser, a guarded append, and two conversions to numbers that must agree.

`dafny verify dfyconfig.toml` checks everything.

## Reading the model

- A storage operation either has its effect or fails without one. `Drops` names the steps at which a failure
  outside any try block ends an attempt, which nothing retries; `FailedBump` those at which the increment of
  a nonce fails. Theorems that depend on storage name the failures of the one task or subscription concerned.
- `findAll` reads and filters, expiry included, in one step. `Expired` is `isExpired` over a clock that
  only moves forward (src/subscriptions/models/subscription.model.ts:33-37).
- Both limits on tries are positive: the stop test is `triesLeft === 0`, so a limit of 0 would never stop.
- The SDK calls back only after the transaction was started and until it is unsubscribed. It may report
  several terminal statuses. Step `Subscribe` stands for other callers of the public `createSubscription`.
- An `OverlappingFetch` reads a nonce that another event has read and not yet bumped; a `RacingFetch` does so,
  or reads one that a later event has read before. The history fields `overlapped`, `raced` and `unbumped` are
  kept per subscription; `FlagsIff` ties them to the steps of the run.
- The broker delivers a message at most three times (compose/broker.xml:76). A worker that crashes leaves its
  message in the queue, to be delivered again.
- `started`, `signed`, `refused`, `log`, `posts`, `starts`, `failures`, `emitted` and `unsubs` are history: they
  record what happened and decide nothing.

## What does not hold, and exactly when it does

- Nonces repeat when two events overlap between fetch and bump (`OverlapRepeatsNonce`). As long as no bump of
  the subscription fails, its nonces are distinct if and only if no fetch overlapped (`NoncesDistinctIff`), and
  strictly ordered by event if and only if no fetch raced (`NoncesOrderedIff`). In every run, failed bumps
  included, two events hold the same nonce if and only if no bump succeeded between their fetches
  (`NoncesDiffer`, `DistinctExactly`, `OrderedExactly`).
- A subscriber whose handshake is answered after the terminal event fetched is marked Done without having
  been told the terminal status (`LateEchoMissesTerminal`). `DoneAfterTerminal` gives the condition under
  which a subscription that is Done was told: it was Active and unexpired at that fetch.
- If a transaction reports two terminal statuses, the handler of one can turn a subscription Done before the
  other, which has read it too, notifies it (`SecondTerminalMisses`). While an event owes a notification, the
  clean-up of other handlers can do so if and only if one of them is on its way to mark the subscription
  (`OutrunIff`). With one terminal status the notification always comes first (`TerminalBeforeDone`).
- A worker that crashes between publishing and settling makes a signature or a finalization be stored twice
  (`CrashSignsTwice`). A crash can do so if and only if it falls into that window and the message has a delivery
  left (`CrashHarmsIff`); without such a crash everything is stored at most once (`FinalizedAtMostOnce`). The
  manager may sign again, and the chain may be given the same signature again, after crashes in two wider
  windows, and only after those (`CrashRepeatsIff`).
- The status theorems take an update that throws to have written nothing. Postgres updates write and then read
  the row back (src/datastore/postgres/repos/subscription.repo.ts:32-36), so a final update may be stored and
  throw all the same; `TornIsUndoneIff` says exactly when the status it stored can then be undone.
- Restrictions holding NaN equal nothing, not even themselves; repeating an accepted add is refused if and
  only if one of its restrictions is free of NaN (`RepeatIsRefusedIff`). The guard does not compare the new
  restrictions with each other (`RepeatWithinOneAdd`), so the list is free of duplicates if and only if it was
  so at first and every accepted add was so in itself (`DistinctIff`).
- A request causes more than three messages when several signers or submitters are registered
  (`TwoSignersSendFour`). It causes at most `1 + S + S * T` with `S` signers and `T` submitters
  (`CascadeBound`), and at most three if and only if `S + S * T <= 2` (`AtMostThreeIff`).

Where code and configuration disagree the code is followed: the in-memory notification store writes 10 tries
whatever is configured (src/datastore/local-store/repos/notification.repo.ts:7-28), so `notificationTries`
stands for the stored number.

## Model

| member | source | states |
|---|---|---|
| WebhookTheorems.InvKept | src/subscriptions/subscriptions.service.ts:44-240 | every step of the protocol keeps all ten groups of invariants, and moves every stored status along an allowed edge only |
| WebhookTheorems.RunInv | src/notifications/notifications.service.ts:52-217 | the invariants hold in every state of every run |
| WebhookTheorems.OneCarrier | src/schedule/schedule.service.ts:28-69 | at any time a notification or handshake is carried by at most one of: its creation, a pending timer, a running attempt; the registry holds exactly the pending timer, and no add or delete was ever refused |
| WebhookTheorems.TriesAddUp | src/notifications/notifications.service.ts:154-217 | attempts and POSTs are at most `maxTries`; an item is given up exactly when no try is left, after `maxTries` failures; until then failures and stored tries add up to `maxTries` |
| WebhookTermination.RetryingEnds | src/notifications/notifications.service.ts:202-217 | in every run the timers and moves of a task and its measure, made of its tries and its phase, add up to at most seven times `maxTries` |
| WebhookTermination.MeasureFalls | src/subscriptions/subscriptions.service.ts:225-240 | every timer and every move of an existing task lowers that measure, and no step of anything else raises it |
| WebhookTheorems.NoStuckWork | src/subscriptions/subscriptions.service.ts:80-193 | waiting work has a timer, an attempt or its creation under way, or is the handshake of an expired subscription, unless storage failed this very task outside its try block |
| WebhookTheorems.DroppedIff | src/schedule/schedule.service.ts:48-69 | a task is marked as dropped if and only if the read or the retry update of one of its attempts failed |
| WebhookTheorems.StatusesOnlyMoveForward | src/subscriptions/subscriptions.service.ts:115-240 | between any two points of a run statuses only move forward, tries never grow, and apart from status, tries and nonce no stored field changes |
| WebhookTheorems.StatusesMoveOneEdge | src/notifications/notifications.service.ts:128-217 | each step moves a subscription along Inactive-Active, Inactive-Rejected or Active-Done, and a notification only out of its unsettled status |
| WebhookTheorems.OnlyUnsettledIsPosted | src/notifications/notifications.service.ts:114-159 | a notification in a final status is never POSTed |
| WebhookMeaning.PostedUnexpired | src/notifications/notifications.service.ts:128-152 | the step that POSTs a notification is the load of its attempt, and finds the subscription's time not run out |
| WebhookMeaning.LoadDecides | src/notifications/notifications.service.ts:120-152 | a load at an expired subscription goes on to write Orphaned and sends nothing; any other POSTs type, scope and payload of the event and the notification's nonce to the subscription's URL |
| WebhookMeaning.NotificationRead | src/notifications/notifications.service.ts:114-118 | an attempt first reads the stored notification and goes on with what it read |
| WebhookMeaning.HandshakeRead | src/subscriptions/subscriptions.service.ts:161-168 | an attempt at an expired subscription ends there; any other goes on with the stored URL and tries |
| WebhookMeaning.HandshakeSent | src/subscriptions/subscriptions.service.ts:171-187 | the handshake goes to the subscription's URL with the secret just drawn, and that secret is the one waited for |
| WebhookMeaning.AnswerDecides | src/subscriptions/subscriptions.service.ts:201-216 | only 200, and for a handshake the echo of this attempt's secret, goes on to write success; every other answer, or none, goes to `retry` with one try less |
| WebhookMeaning.SettleDecides | src/notifications/notifications.service.ts:182-193 | success writes Active for a subscription and Acknowledged for a notification, expiry writes Orphaned, and nothing else is written |
| WebhookMeaning.RetryDecides | src/subscriptions/subscriptions.service.ts:225-240 | the last try gone writes Rejected or Failed and ends; otherwise one try less is written and the task is to be scheduled again |
| WebhookMeaning.FailureDecides | src/notifications/notifications.service.ts:154-158 | a failure inside the try block counts as a failed attempt, one outside ends the attempt; neither writes anything |
| WebhookMeaning.RescheduleDecides | src/notifications/notifications.service.ts:91-98 | rescheduling ends the attempt and leaves one registered timer where there was none |
| WebhookMeaning.TimerDecides | src/schedule/schedule.service.ts:48-69 | a timer that runs out frees its id and starts one attempt, which begins by reading |
| WebhookMeaning.FirstTimer | src/notifications/notifications.service.ts:52-76 | the first scheduling of a notification leaves one registered timer where there was none |
| WebhookMeaning.FirstHandshakeTimer | src/subscriptions/subscriptions.service.ts:95-143 | and so does that of a handshake |
| WebhookTorn.TornIsUndoneIff | src/datastore/postgres/repos/subscription.repo.ts:32-36 | at the end of any run, if the final update of a task is stored and the call throws all the same, ordinary steps can then reject the confirmed subscription or fail the settled notification if and only if it is not the handshake of an expired subscription with a try left |
| WebhookTheorems.HandshakeFirst | src/subscriptions/subscriptions.service.ts:161-216 | every POST of a notification was preceded by a handshake of that subscription that was sent a secret and answered with 200 and that same secret; the POST carries the event's payload and the notification's nonce to the subscription's URL |
| WebhookTheorems.AtMostOneNotification | src/events/events.service.ts:61-85 | an event has at most one notification per subscription |
| WebhookTheorems.ProcessedNotified | src/events/events.service.ts:26-92 | a processed event has notified exactly the subscriptions it read |
| WebhookTheorems.FanoutExact | src/events/events.service.ts:61-92 | once an event is processed it has a notification for a subscription if and only if that subscription matched by type, scope, Active and unexpired when the event fetched |
| WebhookRecords.FanoutSpelledOut | src/events/events.service.ts:61-85 | a processed event has notified a subscription if and only if, when it fetched, that one was Active, of its type and scope, and its time had not run out |
| WebhookRecords.HandlerFollows | src/events/events.service.ts:26-92 | every step of an event's handler, failures included: where it goes on, and what it holds then |
| WebhookRecords.HandlerWrites | src/events/events.service.ts:61-92 | and what it writes: one more on each nonce read, one notification, one processed flag, one status; failures write nothing |
| WebhookRecords.FailedStaysUnprocessed | src/events/events.service.ts:44-92 | in every run an event whose handling failed is never marked as processed |
| WebhookTheorems.DoneAfterTerminal | src/transactions/transactions.service.ts:188-246 | a Done subscription follows a processed terminal event of its scope, and has its notification if and only if it matched at that event's fetch |
| WebhookTheorems.TerminalReachesReaders | src/transactions/transactions.service.ts:188-246 | by the time a terminal event's own handler marks subscriptions as done, every subscription that matched at its fetch has its notification with the terminal payload |
| WebhookTheorems.TerminalBeforeDone | src/transactions/transactions.service.ts:188-246 | a subscription that matched when the only terminal event of its scope fetched has that event's notification before it turns Done |
| WebhookTheorems.TerminalIsDelivered | src/notifications/notifications.service.ts:114-217 | that notification is still carried, or was answered with 200, or failed `maxTries` times, or its subscription expired, or storage failed it |
| WebhookTheorems.DoneDoesNotCancel | src/notifications/notifications.service.ts:114-159 | the step that turns a subscription Done leaves every notification's timer, attempts and tries as they are, and every move of an attempt possible with the same effect |
| WebhookTheorems.FateOfNotification | src/notifications/notifications.service.ts:114-217 | a notification is still carried unless storage failed it, or was answered with 200, or failed `maxTries` times, or its subscription expired, according to its status |
| WebhookTheorems.EventsInCallbackOrder | src/transactions/transactions.service.ts:188-212 | the events of a transaction, in id order, list its statuses in callback order; each payload's status is the one its handler tests for being terminal |
| WebhookTheorems.StoreExact | src/transactions/transactions.service.ts:164-220 | the store holds exactly the transactions whose terminal update is unfinished; each other was unsubscribed exactly once; ids are not reused |
| WebhookRecords.FinishDecides | src/transactions/transactions.service.ts:204-220 | for Aborted, Failed, Rejected and Succeeded, a transaction in the store is removed, unsubscribed once more and cleaned up after; for other statuses and other transactions nothing is done |
| WebhookRecords.FindsAll | src/transactions/transactions.service.ts:235-246 | clean-up finds exactly the transaction's subscriptions that are Active and whose time has not run out |
| WebhookRecords.MarkingIsComplete | src/subscriptions/subscriptions.service.ts:115-121 | in every run a subscription that clean-up found is still to be marked, or Done, or its own update failed |
| WebhookRecords.AllAreDone | src/subscriptions/subscriptions.service.ts:115-121 | so when nothing is left to mark, every subscription found is Done unless its own update failed |
| WebhookRecords.SubscriptionIsAsAsked | src/subscriptions/subscriptions.service.ts:80-100 | in every run a subscription has URL and transaction of a request that was made, counts its time from it, and has the configured time to live |
| WebhookRecords.SignupFollows | src/subscriptions/subscriptions.service.ts:80-100 | every step of a creation, failures included: stored, then scheduled, then for a request's own the nonce |
| WebhookRecords.SignupWrites | src/transactions/transactions.service.ts:121-158 | and what it writes: an Inactive subscription with all its tries and nonce 0; nonce 1, the start of the transaction and the response with nonce 0; failures write and start nothing |
| WebhookRecords.EventIsAsReported | src/transactions/transactions.service.ts:188-202 | a reported status becomes the next event, of that transaction, with the payload of that very snapshot, for good |
| WebhookTheorems.FlagsIff | src/events/events.service.ts:61-85 | the three history flags of a subscription mean that some fetch of the run overlapped or raced on it, or some bump of it failed |
| WebhookTheorems.NoncesDistinctIff | src/events/events.service.ts:61-85 | the nonces of a subscription are distinct if no fetch of it overlapped and, unless a bump of it failed, only if |
| WebhookTheorems.NoncesOrderedIff | src/events/events.service.ts:61-85 | the nonces of a subscription grow strictly with event ids if no fetch of it raced and, unless a bump of it failed, only if |
| WebhookReadings.NoncesDiffer | src/events/events.service.ts:61-85 | in every run, of two events that hold a nonce of one subscription the later fetch holds the larger by exactly the bumps that succeeded in between; they are equal if and only if there was none |
| WebhookReadings.DistinctExactly | src/events/events.service.ts:61-85 | in every run the nonces that events hold of a subscription are distinct if and only if between any two of their fetches some bump of it succeeded |
| WebhookReadings.OrderedExactly | src/events/events.service.ts:61-85 | in every run they are in event order if and only if, moreover, the earlier event fetched first |
| WebhookTheorems.NoncesExact | src/events/events.service.ts:61-85 | if no fetch of a subscription overlapped, then once the events that read it are processed its notifications carry exactly the nonces from its first to `nextNonce - 1`, one each |
| WebhookTheorems.NoncesFollowEvents | src/events/events.service.ts:71-83 | if no fetch of a subscription raced, of two of its notifications the later event's has the larger nonce, and conversely |
| WebhookTheorems.ResponseNonceIsReserved | src/transactions/transactions.service.ts:115-159 | the request is answered with nonce 0, and no notification of that subscription carries it in any run |
| WebhookWitnesses.OverlapRepeatsNonce | src/events/events.service.ts:61-85 | a reachable state in which two events gave one subscription the same nonce |
| WebhookWitnesses.LateEchoMissesTerminal | src/transactions/transactions.service.ts:188-246 | a reachable state in which a subscription is Done and was told nothing |
| WebhookOutrun.OutrunIff | src/transactions/transactions.service.ts:188-246 | at any point of any run, for an event that has read a subscription and not stored its notification, clean-up steps alone can turn the subscription Done before the event notifies it if and only if some handler is about to unsubscribe, to look for subscriptions or to mark it |
| WebhookWitnesses.SecondTerminalMisses | src/transactions/transactions.service.ts:188-246 | a run in which a second terminal event is outrun in that way |
| WebhookDelivery.DeliveryKept | src/schedule/schedule.service.ts:28-69 | every step keeps each task's timers, attempts, counters and stored status consistent |
| WebhookEvolution.StepEvolves | src/subscriptions/subscriptions.service.ts:105-121 | every step changes status, tries and nonce only, along the allowed edges |
| WebhookFanout.FanoutKept | src/events/events.service.ts:26-92 | every step keeps each event's reads, creations and notifications in one-to-one correspondence |
| WebhookSignups.SignupsKept | src/subscriptions/subscriptions.service.ts:80-100 | every step keeps created subscriptions tied to their creation, and unscheduled until it schedules them |
| WebhookSignups.ScopesKept | src/transactions/transactions.service.ts:115-159 | every step keeps a transaction unstarted until its own subscription is complete |
| WebhookTransactions.StoreKept | src/transactions/transactions.service.ts:164-220 | every step keeps the transaction store equal to the set of unfinished transactions |
| WebhookTransactions.StatusesKept | src/transactions/transactions.service.ts:188-212 | every step keeps events in callback order |
| WebhookHandshakes.HandshakesKept | src/subscriptions/subscriptions.service.ts:161-216 | every step keeps Active and Done subscriptions proved by an echoed secret, and every POST true to its records |
| WebhookNonces.NoncesKept | src/subscriptions/subscriptions.service.ts:126-128 | every step keeps each subscription's nonces within bounds; distinct and without gap if nothing overlapped, ordered if nothing raced, and not so otherwise unless a bump failed |
| WebhookEndings.DoneKept | src/subscriptions/subscriptions.service.ts:115-121 | every step keeps Done subscriptions behind a handler of a terminal event |
| WebhookEndings.OrphansKept | src/notifications/notifications.service.ts:128-134 | every step keeps orphaned notifications behind an expired subscription |
| WebhookState.TimeoutIdInjective | src/notifications/notifications.service.ts:106-108 | two different tasks never share a timer id |
| Numerals.DecimalInjective | src/transactions/transactions.service.ts:122 | rendering an id as text loses nothing, so a scope identifies its transaction |
| Numerals.DecimalReads | src/transactions/transactions.service.ts:122 | an id is rendered as the digits of its value, without leading zeros |
| Payloads.AssemblePayload | src/transactions/transactions.service.ts:253-315 | the payload built field by field is the one the snapshot determines, and none if a field that the code reads is missing |
| Payloads.PayloadFields | src/transactions/transactions.service.ts:253-315 | each field of the payload, by status: hash, block data, result and error are the snapshot's where the status calls for them and missing elsewhere |
| Payloads.TerminalStatuses | src/transactions/transactions.service.ts:204-212 | exactly Aborted, Failed, Rejected and Succeeded are terminal |
| Payloads.PayloadShowsOutcome | src/transactions/transactions.service.ts:253-315 | a payload carries a result or an error, never both, exactly when its status is terminal |
| WebhookServices.ScheduleService.AddTimeout | src/schedule/schedule.service.ts:28-34 | the timer is set and registered under its id, or refused if the id is taken |
| WebhookServices.ScheduleService.DeleteTimeout | src/schedule/schedule.service.ts:36-38 | the registered timer is cleared and its id freed |
| WebhookServices.ScheduleService.Elapsed | src/schedule/schedule.service.ts:48-69 | a timer that runs out frees its own id before its callback runs |
| WebhookServices.SubscriptionsService.FindAll | src/subscriptions/subscriptions.service.ts:44-68 | exactly the subscriptions that pass every given filter |
| WebhookServices.SubscriptionsService.FindMatching | src/events/events.service.ts:65-70 | with all four filters, exactly the subscriptions an event affects |
| WebhookServices.SubscriptionsService.BatchBumpNonce | src/subscriptions/subscriptions.service.ts:126-128 | adds one to the nonce of each listed subscription and changes nothing else |
| WebhookServices.SubscriptionsService.Retry | src/subscriptions/subscriptions.service.ts:225-240 | stores the tries left; at zero the subscription is Rejected, otherwise it is to be scheduled again |
| WebhookServices.SubscriptionsService.ResumeHandshake | src/subscriptions/subscriptions.service.ts:161-216 | one segment of an attempt has the effect of the corresponding step |
| WebhookServices.EventsService.CreateEvent | src/events/events.service.ts:26-42 | the event gets the next id and is stored unprocessed |
| WebhookServices.EventsService.MarkEventAsProcessed | src/events/events.service.ts:87-92 | only the processed flag of that event changes |
| WebhookServices.NotificationsService.Retry | src/notifications/notifications.service.ts:202-217 | stores the tries left; at zero the notification is Failed, otherwise it is to be scheduled again |
| WebhookServices.NotificationsService.Deliver | src/notifications/notifications.service.ts:114-175 | orphans if the subscription expired, otherwise posts the event's payload under the notification's nonce |
| WebhookServices.NotificationsService.ResumeNotification | src/notifications/notifications.service.ts:114-193 | one segment of an attempt has the effect of the corresponding step |
| WebhookServices.TransactionsService.AddListener | src/transactions/transactions.service.ts:164-181 | a fresh id is counted up and stored |
| WebhookServices.TransactionsService.HandleStatusChange | src/transactions/transactions.service.ts:188-202 | the event and its handler start from one snapshot: same status, same scope |
| WebhookServices.TransactionsService.Finish | src/transactions/transactions.service.ts:204-220 | a terminal status removes the transaction and unsubscribes it, unless that was done before |
| WebhookServer.Server.Submit | src/transactions/transactions.service.ts:115-127 | takes step Submit and keeps the invariants |
| WebhookServer.Server.Subscribe | src/subscriptions/subscriptions.service.ts:80-100 | takes step Subscribe and keeps the invariants |
| WebhookServer.Server.StoreSubscription | src/subscriptions/subscriptions.service.ts:80-100 | takes step StoreSubscription, with a fresh id, and keeps the invariants |
| WebhookServer.Server.ScheduleHandshake | src/subscriptions/subscriptions.service.ts:136-143 | takes step ScheduleHandshake and keeps the invariants |
| WebhookServer.Server.SetNonce | src/transactions/transactions.service.ts:128-158 | takes step SetNonce, which sets the nonce to 1 and answers with 0, and keeps the invariants |
| WebhookServer.Server.StatusChange | src/transactions/transactions.service.ts:188-202 | takes step StatusChange and keeps the invariants |
| WebhookServer.Server.Fetch | src/events/events.service.ts:61-80 | takes step Fetch and keeps the invariants |
| WebhookServer.Server.Bump | src/events/events.service.ts:81-83 | takes step Bump and keeps the invariants |
| WebhookServer.Server.StoreNotification | src/notifications/notifications.service.ts:52-70 | takes step StoreNotification, with a fresh id, and keeps the invariants |
| WebhookServer.Server.ScheduleNotification | src/notifications/notifications.service.ts:70-98 | takes step ScheduleNotification and keeps the invariants |
| WebhookServer.Server.MarkProcessed | src/events/events.service.ts:44-92 | takes step MarkProcessed and keeps the invariants |
| WebhookServer.Server.Finish | src/transactions/transactions.service.ts:204-220 | takes step Finish and keeps the invariants |
| WebhookServer.Server.FindDone | src/transactions/transactions.service.ts:235-246 | takes step FindDone and keeps the invariants |
| WebhookServer.Server.MarkDone | src/subscriptions/subscriptions.service.ts:115-121 | takes step MarkDone and keeps the invariants |
| WebhookServer.Server.Fire | src/schedule/schedule.service.ts:48-69 | takes step Fire and keeps the invariants |
| WebhookServer.Server.Resume | src/notifications/notifications.service.ts:114-217 | takes step Go for a handshake or a notification and keeps the invariants |
| OfflineProofs.InvKept | src/message/artemis/artemis.service.ts:157-206 | every step, crash and redelivery included, keeps messages sound, workers true to their deliveries, the log causal and nothing lost |
| OfflineProofs.NoTransactionLost | src/message/artemis/artemis.service.ts:104-206 | in every run a started transaction is on Requests, on Signatures, finalized, in a delivery that a listener rejected, or in one that the broker gave up after three attempts |
| OfflineProofs.RunGraves | compose/broker.xml:72-76 | no message is delivered more than three times, and a dead one was rejected by its listener or delivered three times |
| OfflineProofs.FinalizationHasOrigin | src/offline-submitter/offline-submitter.service.ts:34-72 | every finalization carries id, address and nonce of a payload begun under that id, and follows a submission of that payload with a signature made over it |
| OfflineProofs.FinalizedRowIsTrue | src/offline-submitter/offline-submitter.service.ts:34-78 | a row marked Finalized was submitted to the chain and then its finalization published |
| OfflineMeaning.ResultIsTheChains | src/offline-submitter/offline-submitter.service.ts:50-65 | in every run a finalization carries, unchanged, the result with which the chain replied to a submission of that transaction |
| OfflineMeaning.FinalizedRowIsPublished | src/offline-submitter/offline-submitter.service.ts:56-71 | a row marked Finalized holds the very result, id, address and nonce that were published before |
| OfflineMeaning.RowsAreTrue | src/offline-submitter/offline-submitter.service.ts:34-47 | in every run every row holds the payload begun under its id, a signature made over it, its address and its nonce |
| OfflineMeaning.TurnsSettle | src/message/artemis/artemis.service.ts:164-206 | a delivery is rejected exactly if validation or an await of its listener fails, and accepted exactly when the listener is through |
| OfflineMeaning.BrokerDecides | compose/broker.xml:72-76 | a message nobody holds goes to a free worker, at most three times; a crash leaves it queued; after three deliveries it is put aside as it is |
| OfflineMeaning.TurnsFollow | src/offline-submitter/offline-submitter.service.ts:34-72 | the awaits of a listener come in the source's order, each handed what the one before it gave |
| OfflineMeaning.ReplyIsKept | src/offline-signer/offline-signer.service.ts:30-38 | the manager is given the request's own payload, and the signature it gives is what the listener goes on with |
| OfflineMeaning.SignatureIsStored | src/offline-signer/offline-signer.service.ts:38-42 | the message stored on Signatures has id and payload of the request and that signature |
| OfflineMeaning.RowIsCreated | src/offline-submitter/offline-submitter.service.ts:40-47 | the new row has id, payload and signature of the message, is Signed and has no result; no other row changes |
| OfflineMeaning.ReplyIsNoted | src/offline-submitter/offline-submitter.service.ts:49-53 | what the chain includes is the message's own payload with its own signature |
| OfflineMeaning.UpdateIsStarted | src/offline-submitter/offline-submitter.service.ts:67-78 | the update writes Finalized and the chain's result to the row and leaves the rest of it |
| OfflineMeaning.UpdateIsWritten | src/offline-submitter/offline-submitter.service.ts:74-78 | an update that arrives replaces its row, one that is lost changes nothing |
| OfflineMeaning.BegunAs | src/offline-starter/offline-starter.service.ts:21-36 | a transaction keeps the payload it was begun with: what is to be signed, the given metadata and its own id under `internalTxId` |
| OfflineMeaning.BegunIsQueued | src/offline-starter/offline-starter.service.ts:21-36 | beginning puts that payload on Requests under that id, as a new message |
| OfflineProofs.DeliveredOnce | src/message/artemis/artemis.service.ts:104-126 | a message is with at most one worker at a time, and is in the broker until settled |
| OfflineOnce.CrashSignsTwice | src/offline-signer/offline-signer.service.ts:30-42 | a run in which a request is signed, its signer crashes before accepting, and it is signed again |
| OfflineOnce.CrashHarmsIff | src/message/artemis/artemis.service.ts:164-206 | a crash can lead to a second stored signature or stored finalization of a transaction if and only if its worker has published and not settled, and the message has a delivery left |
| OfflineRepeats.CrashRepeatsIff | src/offline-signer/offline-signer.service.ts:30-42 | a crash can make the manager sign again for a request, or a signature be submitted to the chain again, if and only if its worker has had that done and not settled, and the message has a delivery left |
| OfflineRepeats.AtMostOncePerMessage | src/offline-submitter/offline-submitter.service.ts:34-72 | without such a crash every request is signed at most once and every signature submitted at most once |
| OfflineOnce.FinalizedAtMostOnce | src/offline-submitter/offline-submitter.service.ts:34-72 | if no crash fell between publishing and settling, no transaction has two signatures or two finalizations stored, nor two requests |
| OfflineOnce.NoCrashFinalizesOnce | src/message/artemis/artemis.service.ts:164-206 | without a crash no message is delivered twice, so no transaction is finalized twice |
| Numerals.ParseHexRoundTrip | src/offline-submitter/offline-submitter.service.ts:37 | a nonce written as 0x and hexadecimal digits is read as the same number |
| Numerals.ParseHexReads | src/offline-submitter/offline-submitter.service.ts:37 | digits, with or without 0x, are read to the first other character, each further one multiplying by sixteen |
| Numerals.DigitValues | src/offline-submitter/offline-submitter.service.ts:37 | the sixteen digits in both spellings have their values, and nothing else has |
| Numerals.ParseHexFails | src/offline-submitter/offline-submitter.service.ts:37 | text without a leading digit is no number |
| OfflineServices.OfflineStarterService.BeginTransaction | src/offline-starter/offline-starter.service.ts:21-48 | puts the id into the metadata and publishes a request under that id |
| OfflineServices.OfflineSignerService.AutoSign | src/offline-signer/offline-signer.service.ts:30-42 | signs the request's payload and publishes payload and signature under the request's id |
| OfflineServices.OfflineSubmitterService.Submit | src/offline-submitter/offline-submitter.service.ts:34-72 | creates the row, submits, publishes and starts the row's update, in that order, stopping at the first failure |
| OfflineServices.OfflineSubmitterService.Write | src/offline-submitter/offline-submitter.service.ts:74-78 | the update that nobody waits for replaces the row or is lost |
| OfflineServices.Node.Begin | src/offline-starter/offline-starter.service.ts:21-48 | takes step Begin and keeps the invariant; the receipt names the queued request |
| OfflineServices.Node.Deliver | src/message/artemis/artemis.service.ts:104-126 | takes step Deliver and keeps the invariant |
| OfflineServices.Node.Proceed | src/message/artemis/artemis.service.ts:164-206 | takes step Proceed, settling the delivery when the listener is through or has thrown, and keeps the invariant |
| OfflineServices.Node.GiveUp | compose/broker.xml:72-76 | takes step GiveUp after three deliveries and keeps the invariant |
| LocalMessages.RecordedExactlyOnce | src/message/local/local-message.service.ts:25-57 | a send with one recorder registered hands it exactly one copy once its validation returned, whatever other handlers do |
| LocalMessages.SentAs | src/message/local/local-message.service.ts:25-30 | a send carries the body it was given, to everybody registered for the queue and for the events log, on the address that comes next |
| LocalMessages.HandlersDecide | src/message/local/local-message.service.ts:25-57 | a registration appends one listener to one queue; a handler whose validation succeeds starts its listener, any other refuses; a receipt takes the next id; nothing else changes |
| LocalMessages.MessagesStay | src/message/local/local-message.service.ts:25-30 | and stays what it was in every later state |
| LocalMessages.ReceiptsAreTrue | src/message/local/local-message.service.ts:30-32 | a send answered with a receipt was accepted by every handler |
| LocalMessages.ReceiptsUnique | src/message/local/local-message.service.ts:25-33 | receipt ids are unique in every run |
| LocalCascade.CascadeBound | src/message/local/local-message.service.ts:25-57 | in every run, whoever is registered, a request causes at most one message for itself, one for each signer, and one for each signer and submitter |
| LocalCascade.AtMostThreeIff | src/message/local/local-message.service.ts:25-57 | from any point of any run, as long as nobody registers, a request causes at most three messages if and only if signers, plus signers times submitters, are at most two |
| LocalCascade.RisingIff | src/offline-submitter/offline-submitter.service.ts:34-72 | and at most one message on each address, in the order of the addresses, if and only if there is at most one signer and, if there is one, at most one submitter |
| LocalCascade.TwoSignersSendFour | src/message/local/local-message.service.ts:25-57 | a run from the start in which one request causes four messages |
| LocalMessages.OfflineRecorderService.RecordEvent | src/offline-recorder/offline-recorder.service.ts:29-32 | appends the message to the record |
| LocalMessages.LocalMessageService.RegisterListener | src/message/local/local-message.service.ts:35-57 | takes step Register |
| LocalMessages.LocalMessageService.SendMessage | src/message/local/local-message.service.ts:25-30 | calls every handler of the queue and of the events log |
| LocalMessages.LocalMessageService.Validate | src/message/local/local-message.service.ts:41-53 | takes step Validated: the listener is started, not awaited, or the handler throws |
| LocalMessages.LocalMessageService.Resolve | src/message/local/local-message.service.ts:30-32 | takes step Resolved: the sender gets the next receipt id |
| Restrictions.SameIsCoreEquality | src/assets/assets.util.ts:146-189 | the comparison means: no NaN, and equal but for the identity object |
| Restrictions.SameMeans | src/assets/assets.util.ts:146-189 | spelled out: the same kind, the same numbers and none NaN, the same DID, the same claim |
| Restrictions.SameIsEquivalence | src/assets/assets.util.ts:159-189 | symmetric and transitive on all restrictions, reflexive exactly on those without NaN |
| Restrictions.NormalizeUndoesChainForm | src/assets/assets.util.ts:107-144 | normalising the stored form of a restriction gives back its content |
| Restrictions.NormalizeKeeps | src/assets/assets.util.ts:107-144 | normalising keeps every part of what the chain returned |
| Restrictions.ConvertAllPointwise | src/assets/assets.util.ts:191-267 | a list converts exactly if every input does, each to its own conversion |
| Restrictions.ConvertKeepsInput | src/assets/assets.util.ts:191-267 | the input can be read off its conversion |
| Restrictions.ConvertFailsIff | src/assets/assets.util.ts:191-267 | it fails exactly for an unknown kind, an unknown claim or an issuer that cannot be found, and else has the issuer that was found |
| Restrictions.ConvertAllKeepsInput | src/assets/assets.util.ts:191-267 | the whole list can be read off the converted list, in order |
| Restrictions.StoredInputIsRecognised | src/assets/assets.util.ts:107-267 | a converted input that was stored is recognised as the same input exactly if it has no NaN |
| Restrictions.AssetRestrictions.Set | src/assets/assets.service.ts:353-369 | converts the input and then the chain shows it; if a conversion fails nothing changes |
| Restrictions.AssetRestrictions.Add | src/assets/assets.service.ts:371-403 | fails exactly if a conversion fails or a new restriction equals a current one; otherwise appends, and on failure changes nothing |
| Restrictions.AssetRestrictions.AddAll | src/assets/assets.service.ts:371-403 | any sequence of calls of `Add` is a history in the sense of the lemmas below, with the results the calls gave |
| Restrictions.HasDuplicate | src/assets/assets.service.ts:371-403 | finds a duplicate exactly if some new restriction equals some current one |
| Restrictions.RefusedIff | src/assets/assets.service.ts:371-403 | in any sequence of adds, one is refused exactly if its conversion fails or it clashes with the list on the chain |
| Restrictions.ListsGrow | src/assets/assets.service.ts:371-403 | earlier lists are prefixes of later ones |
| Restrictions.AcceptedStays | src/assets/assets.service.ts:371-403 | what an accepted add brought is there from then on |
| Restrictions.RepeatIsRefusedIff | src/assets/assets.service.ts:371-403 | repeating an accepted add is refused if and only if one of its restrictions has no NaN |
| Restrictions.DistinctIff | src/assets/assets.service.ts:371-403 | the list is free of duplicates if and only if it was so at first and every accepted add was so in itself |
| Restrictions.RepeatWithinOneAdd | src/assets/assets.service.ts:371-403 | the guard lets through an add that repeats one restriction |
| Stats.StatAgrees | src/common/decorators/scoped-count-transformer.ts:30-195 | converting a statistic gives the same with or without the transformer before it, throwing included |
| Stats.ConversionsAgree | src/common/decorators/scoped-count-transformer.ts:23-199 | for every list of values, conversion after the transformer equals conversion alone |
| Stats.EnsureIdempotent | src/assets/assets.util.ts:273-335 | the conversion applied twice equals the conversion applied once |
| Stats.EnsureMeans | src/assets/assets.util.ts:290-330 | by type: the count of a Count statistic is converted, the value of a ScopedCount, nothing of any other, and no other field |
| Stats.EnsureValueMeans | src/assets/assets.util.ts:297-326 | of an object the text under accredited, nonAccredited, affiliate and nonAffiliate becomes a number, of a list the count of each item, and all else stays; it throws exactly for a list with a missing item |
| Stats.TransformMeans | src/common/decorators/scoped-count-transformer.ts:30-195 | the DTO for each type and claim type, with the same content converted; anything else stays as it is |
| Stats.TransformValueMeans | src/common/decorators/scoped-count-transformer.ts:90-165 | the value of a scoped count, by claim type, with the same counts converted |
| Stats.AllPointwise | src/assets/assets.util.ts:285-335 | a list is converted element by element, in order |
| Stats.FillNumeric | src/assets/assets.util.ts:300-316 | the object filled key by key has the text under the four named keys converted and all else as it was |
| Stats.EnsureOne | src/assets/assets.util.ts:273-335 | the conversion as written computes `EnsureStat` |
| Stats.TransformOne | src/common/decorators/scoped-count-transformer.ts:30-195 | the transformer as written computes `TransformStat` |

## Left out

- Controllers, DTO and model classes, modules, swagger decorators: declarations and pass-through.
- The SDK, the chain and the signing managers: their replies are arbitrary inputs of the model's steps.
- HTTP, HMAC signatures, stable stringification, random secrets and ids: responses and secrets are arbitrary, ids are fresh.
- Postgres storage: only its effect on the records is modelled; keys of offline rows are arbitrary, so that both stores fit. Of updates that are stored although the call throws, only the final update of a task is modelled (`TornIsUndoneIff`).
- `processTransaction`, error mapping to HTTP, `extractTxOptions`: finite case tables that would only add easy members.
- The remaining asset methods and the other domain services: look up an entity, then submit.
- Intervals of the schedule service, shutdown, connections and sender caching.
- The payload of the initial response, with its multi-signature proposal; its nonce and its subscription are modelled.
- A callback whose snapshot lacks a field that `assemblePayload` reads throws before it does anything; it gives no step.
- The second event queue fed by broker diverts, and messages without a body, which the Artemis listener leaves unsettled.
- Leading white space and sign in `parseInt`; request nonces are written as 0x and digits.
- Decorators of the statistics DTOs: the transformer assigns its converted fields over whatever they produce. The number library's parser is a parameter.
- WebhookTheorems.NoncesDistinctIff: the only-if half excludes runs in which a bump of the subscription failed, because such an event notifies nobody and its nonce is read again; `DistinctExactly` covers those runs.
- WebhookTheorems.NoncesOrderedIff: the only-if half excludes the same runs; `OrderedExactly` covers them.
- WebhookTheorems.TerminalBeforeDone: stated for a transaction that reports one terminal status; `OutrunIff` says when an event is outrun.
