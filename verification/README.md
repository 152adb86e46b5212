# Verification of the payment reconciliation pipeline

A Dafny model of the pipeline from webhook intake to settlement, and proofs about every run of it. Check it with
`dafny verify dfyconfig.toml`.

## What is modelled

**One transition system (`Pipeline.dfy`) over two stores (`Tables.dfy`).** Postgres holds orders, payment events with
their unique gateway index, the ledger, dead letters, mismatches, settlement batches and records. Redis holds the
idempotency keys with expiry, the stream with the group's cursor and pending entries, the locks with expiry, and the
retry sorted set. Webhook handlers, workers, pollers and uploads are actors; a step is one awaited command of one actor,
a clock tick, a new actor, a crash, or a new order. Any number of actors interleave freely. Each worker command can
succeed, throw before its effect, or throw after it; workers, pollers, handlers and uploads can vanish between any two
commands. A *run* is any finite sequence of steps from the empty stores, and the main theorems quantify over all runs.
The history variables `flips`, `upserts`, `wins` and `returned` record what happened and are read by no command.

**The services in their own form.** `Services.dfy`, `Settlement.dfy`, `Balance.dfy` and `Reconciliation.dfy` hold the
source's classes and loops as classes and methods that issue one awaited command after another through a client
(`Stores.dfy`) whose environment decides which commands throw. Each is proved equal to the specification function that
the theorems are about, and `Serving.dfy` proves that serving a batch is exactly a run of its worker's steps in the
transition system, whatever throws on the way.

**The theorems**, by module:

- `Integrity`: what every command keeps; ledger, events, dead letters and settlement stay consistent, facts are never rewritten.
- `Booking`: bookings follow status writes while one worker at a time has the order; at most once under faults; exactly
  when a booking is lost. `Overlap`: with several workers on the order, exactly how its bookings follow from its status
  writes, and exactly when it is booked twice. `References`: rows that name other rows.
- `Leases`: lease safety. `Delivery`, `Acknowledgement`: who gets which stream entry, and exactly which are never acknowledged.
- `Carriers`, `Losses`: what carries an event, and exactly when a published event is lost.
- `Copies`, `Accounting`: every copy of an event is accounted for, so retries end. `Retries`, `Attempts`: exactly when
  promotions match their retries, and then the exact number and spacing of the runs. `SortedSet`, `Backoff`: their parts.
- `Races`, `Promotions`, `Incidents`: concrete runs that lose an event, publish a retry twice or early, strand a request,
  abandon a message, lose a booking, book twice, leave a batch unfinished and settle too early.
- `Intake`, `Spacing`: the forgetting cache before the table is "first payload wins"; how often an event is published.
- `Settlement`, `Batches`, `Unsettled`, `Balance`: the loop against a set description, upload history, soundness; what a
  batch counts; what uploads leave pending or unfinished; the trial balance.
- `Outcomes`: everything one message changes when nothing throws, or when only the run throws.

## Where the code and its documentation disagree

The model follows the code.

- `packages/shared/src/queue/stream-producer.ts:9-11` says that when publishing fails the gateway's redelivery makes it
  good. The idempotency key is already set by then (`services/ingestion/src/services/webhook.service.ts:39`), so
  redeliveries are answered as duplicates and the event stays unpublished until the key expires
  (`Spacing.RedeliveryShutOut`). `Incidents.RequestStranded` gives a run, and `Spacing.RedeliveryRecoversExactly` proves
  that a redelivery publishes the event if and only if the key has expired.
- The repository's overview promises at-least-once delivery (`README.md:29`). Only `">"` is read, so an entry whose
  worker is gone is never delivered again (`Acknowledgement.NeverRedelivered`). `Incidents.MessageAbandoned` gives a run
  that leaves an event without outcome so, `Acknowledgement.NeverAcknowledgedExactly` says exactly which entries are
  never acknowledged whatever happens next, and `Acknowledgement.ForsakenExactly` exactly which steps make them so.
- Even without crashes and infrastructure errors, published events can be lost in two ways: a message is acknowledged
  unread behind a holder that has already rescheduled the event and not yet released the lock, or it waits in a batch
  that a second dead letter for another event aborts. `Losses.NothingLostExactly` proves that nothing is lost if and
  only if no step does one of these to an event's last carrier, and `Races` gives a run for each. A single worker loses
  only in the second way (`Losses.OneWorkerLosesByAbandoning`), and not at all with a batch size of one.
- A retry is promoted by reading what is due and then removing it (`services/reconciliation-worker/src/lib/retry-schedule.ts:21-27`),
  and every worker does so on its own interval, which does not wait for the previous promotion
  (`services/reconciliation-worker/src/consumer/stream-consumer.ts:55`). Two overlapping promotions publish one retry
  twice, so that an event published once fails more often than the attempts allow (`Promotions.RetryPublishedTwice`), or
  publish a later retry before it is due (`Promotions.RetryPublishedEarly`). `Attempts.RetriesMatchExactly` proves that
  the removals from the schedule match its retries if and only if none of them names an event whose entry is gone or not
  due; a removal that does is what leads to such publications, unless its poller stops before it publishes.
- A run stopped between the status write and the commit leaves a paid order unbooked, and the comment that such partial
  failures are tolerated by retries (`services/reconciliation-worker/src/services/reconciliation-runner.service.ts:62-64`)
  does not extend to its booking (`Booking.LostBookingIsNeverMadeGood`). `Incidents.PaidButUnbooked` gives a run, and
  `Booking.BookedExactlyUnlessStopped` proves that an order is left so if and only if a step stopped a run of it there.
- The lock is per payment event, so two payments of one order on two workers can both be booked, without any fault
  (`Incidents.BookedTwice`). `Overlap.AtMostOnceExactly` proves, for every run, that an order without refunds is booked at
  most once if and only if no more of its status writes were stale (the status has changed since the worker read it) than
  of its runs were stopped, or still are, between status write and booking.
- The repository's overview says that a ledger entry is settled once webhook and bank file agree (`README.md:95`). A pair
  booked after its row was processed stays pending, because the same file is answered as a duplicate
  (`Incidents.BookedTooLate`, `Unsettled.StaysPending`); and an upload that stops midway leaves a batch that uploading the
  file again does not finish (`Incidents.UploadAbandoned`, `Unsettled.NeverCompletedExactly`).
- A missing order is a normal outcome, so it is acknowledged and not retried (`Outcomes.RunOutcome`).

## Model

| member | source | states |
|---|---|---|
| Booking.BookingsFollowStatusWrites | services/reconciliation-worker/src/services/reconciliation-runner.service.ts:52-80 | in every run, with any throws, crashes and redeliveries, while one worker at a time handles an order: its status writes alternate paid/refunded, its status is the last one written, and its bookings are those writes in order with some possibly missing |
| Booking.AtMostOneBooking | services/reconciliation-worker/src/services/reconciliation.service.ts:85-97 | then an order that never sees a refund is booked at most once |
| Booking.AtMostOnceWithOneWorker | services/reconciliation-worker/src/consumer/stream-consumer.ts:104-106 | one worker, any number of payment events, redeliveries, throws and crashes before or after any single write: at most one pair per order without refunds |
| Booking.AtMostOnceUnderLock | services/reconciliation-worker/src/consumer/stream-consumer.ts:121-142 | any number of workers in any interleaving: if the order has one and the same event and no worker handles it past its lease, at most one pair is booked, crashes and passed-on leases included |
| Booking.BookingsAreStatusWrites | services/reconciliation-worker/src/services/reconciliation.service.ts:85-113 | with one worker at a time and no run of the order stopped between status write and commit, the bookings are exactly the status writes less the one in the window; they alternate, and payments exceed refunds by one exactly when the order is paid or, while a run is in its window, exactly when it is not, and are equal otherwise |
| Booking.LostBookingIsNeverMadeGood | services/reconciliation-worker/src/services/reconciliation-runner.service.ts:56-77 | once an order without refunds is paid and no run is in its window, nothing ever books it again: a booking lost to a stop is never made good |
| Booking.BookedExactlyUnlessStopped | services/reconciliation-worker/src/services/reconciliation-runner.service.ts:56-77 | with one worker at a time, an order without refunds that is paid with no run in its window is booked once if no step stopped a run of it between its status write and its commit, and not at all if one did |
| Incidents.PaidButUnbooked | services/reconciliation-worker/src/services/reconciliation-runner.service.ts:56-77 | a run of a single worker that crashes after the status write and leaves the order paid without a booking |
| Overlap.AlternatesExactly | services/reconciliation-worker/src/services/reconciliation.service.ts:85-113 | in every run, with any number of workers on the order and any failures, its status writes alternate between paid and refunded if and only if each of them finds the order paid, or not paid, as its worker read it |
| Overlap.BookingsAreCounted | services/reconciliation-worker/src/services/reconciliation-runner.service.ts:56-77 | in every run, with any number of workers on the order and any failures: the bookings of a kind, the runs between such a status write and their commit, and the runs stopped there add up to the writes of that status |
| Overlap.NetBookings | services/reconciliation-worker/src/services/reconciliation-runner.service.ts:56-77 | in every run payments less refunds booked are one if the order is paid, plus its stale payment writes less its stale refund writes, less its unbooked payments plus its unbooked refunds |
| Overlap.AtMostOnceExactly | services/reconciliation-worker/src/services/reconciliation.service.ts:85-97 | in every run an order that never sees a refund is booked at most once if and only if its stale status writes are no more than its runs stopped, or now, between status write and booking |
| Overlap.AtMostOnceUnlessStale | services/reconciliation-worker/src/services/reconciliation.service.ts:85-97 | so where no run of the order was stopped there and none is there now, it is booked at most once if and only if no status write was stale |
| Overlap.AtMostOnceWithoutStaleWrites | services/reconciliation-worker/src/services/reconciliation.service.ts:85-97 | as long as no status write is stale, stops or not, payments booked exceed refunds written by at most one, and an order that never sees a refund is booked at most once |
| Overlap.ExclusiveWritesAreFresh | services/reconciliation-worker/src/services/reconciliation-runner.service.ts:40-57 | one worker at a time on the order never writes a stale status, so this guard is weaker than exclusion |
| Incidents.BookedTwice | services/reconciliation-worker/src/consumer/stream-consumer.ts:121-123 | a fault-free run of two workers that books two payments of one order, by way of a stale status write |
| Losses.NothingLostExactly | services/reconciliation-worker/src/consumer/stream-consumer.ts:125-183 | without crashes and infrastructure errors outside the run, any number of workers and pollers, duplicates included: every published event keeps a carrier until its run has returned or it is dead-lettered, at every point of the run, if and only if no step acknowledges its last message behind a rescheduling holder or abandons it in an aborted batch |
| Carriers.StepLosesExactly | services/reconciliation-worker/src/consumer/stream-consumer.ts:125-183 | the same for one step: a carried event stays carried or gets its outcome exactly if the step is not one of these |
| Losses.OneWorkerLosesByAbandoning | services/reconciliation-worker/src/consumer/stream-consumer.ts:85-110 | a single worker, with any batch size, loses nothing if and only if it never abandons a batch with the last carrier of an event in it |
| Losses.OneWorkerLosesNothing | services/reconciliation-worker/src/consumer/stream-consumer.ts:85-106 | so a single worker reading one message at a time never loses an event |
| Races.EventLostBehindReschedule | services/reconciliation-worker/src/consumer/stream-consumer.ts:125-131 | a fault-free run of two workers that loses an event behind a holder past its reschedule |
| Races.EventLostInAbandonedBatch | services/reconciliation-worker/src/consumer/stream-consumer.ts:104-110 | a fault-free run that loses an event in a batch aborted by the dead letters' unique key |
| Leases.LeaseSafety | services/reconciliation-worker/src/lib/redis-lock.ts:26-34 | in every interleaving a worker within its lease is the one the lock names, and two within their leases on one event are the same worker |
| Leases.StaleReleaseHarmless | services/reconciliation-worker/src/lib/redis-lock.ts:4-13 | no step of another worker, a stale release included, takes a live lease from its holder |
| Leases.LockRoundTrip | services/reconciliation-worker/src/lib/redis-lock.ts:26-34 | a lock set while free is held until it expires: nobody else can set it, its own token's release frees it, any other token's changes nothing, other keys are untouched |
| Delivery.EachEntryOnce | services/reconciliation-worker/src/consumer/stream-consumer.ts:81-92 | in every run no two workers have the same stream entry before them, and pending entries have been read |
| Acknowledgement.NeverRedelivered | services/reconciliation-worker/src/consumer/stream-consumer.ts:91 | an entry that was read and that no worker has before it any more, handled or its worker gone, is never delivered again; pending it stays pending, acknowledged it stays acknowledged |
| Acknowledgement.NeverAcknowledgedExactly | services/reconciliation-worker/src/consumer/stream-consumer.ts:91-142 | after any run: an entry is acknowledged in no continuation if and only if it is pending and no worker can still acknowledge it, that is, none has it in hand before its acknowledgement, or behind an entry whose handling is not bound to abort the batch |
| Acknowledgement.ForsakenExactly | services/reconciliation-worker/src/consumer/stream-consumer.ts:81-175 | after any run a step makes an entry one that is never acknowledged if and only if it is a read of it that throws after its effect, a crash of the worker that could acknowledge it, an exception of that worker that ends the batch or leads it to a second dead letter, or another worker's command that makes its event's dead letter a second one |
| Incidents.MessageAbandoned | services/reconciliation-worker/src/consumer/stream-consumer.ts:81-106 | a run in which a worker crashes with a message in hand, which is then never acknowledged, its event with neither outcome nor carrier |
| Accounting.RetriesEnd | services/reconciliation-worker/src/consumer/stream-consumer.ts:144-183 | in every run an event is run, and taken in hand, at most maxAttempts − 1 times more than it was published or promoted out of turn; it is rescheduled at most maxAttempts − 1 times and promoted at most as often, promotions out of turn aside; and these are at most the reads of its retry by a poller while another had read and not yet removed it |
| Accounting.OnePollerRetriesEnd | services/reconciliation-worker/src/lib/retry-schedule.ts:21-27 | where no two pollers have the event before them at once, however often it is published, nothing is promoted out of turn, and it is run and taken in hand at most maxAttempts − 1 times more than it was published and promoted at most maxAttempts − 1 times |
| Accounting.AccountsAlways | services/reconciliation-worker/src/consumer/stream-consumer.ts:114-183 | in every run each copy of an event, in the stream, in a worker's hands, scheduled or taken out by a poller, comes from a publication or a promotion out of turn, and attempts, runs, reschedules and promotions account for each other |
| Attempts.RetriesMatchExactly | services/reconciliation-worker/src/lib/retry-schedule.ts:21-27 | in every run of an event published once: each promotion is of its own scheduled retry and no earlier than that is due, if and only if no poller removes the event when its entry is gone or not due |
| Attempts.OnePollerNeverStale | services/reconciliation-worker/src/lib/retry-schedule.ts:21-27 | which holds whenever no two pollers have the event before them at once |
| Attempts.ExactlyMaxAttempts | services/reconciliation-worker/src/consumer/stream-consumer.ts:144-171 | then, in every run, an event with a dead letter has had exactly maxAttempts runs and failures and maxAttempts − 1 reschedules and promotions, its dead letter says maxAttempts, and no message or retry of it is left; and where nothing crashes, throws outside the run or loses an event, one that is published, not returned and not carried any more has that dead letter |
| Attempts.RunsAreSpaced | services/reconciliation-worker/src/consumer/stream-consumer.ts:168-178 | then the run after the k-th failure, returning or not, starts no earlier than the k-th base delay after it, and there are at most maxAttempts runs |
| Attempts.FailuresAreSpaced | services/reconciliation-worker/src/consumer/stream-consumer.ts:168-178 | so between any two failures lie the base delays of all failures in between; from the first to the N-th at least 1000·(2^(N−1) − 1) ms for N ≤ 7 and 63000 + 60000·(N − 7) ms beyond |
| Attempts.PublishedOnceInLifetime | services/ingestion/src/services/webhook.service.ts:39-53 | an event is published as often as its gateway id is, hence at most once within the lifetime of its idempotency key |
| Promotions.RetryPublishedTwice | services/reconciliation-worker/src/lib/retry-schedule.ts:21-27 | a fault-free run in which two pollers publish one retry twice, and an event published once fails three times where two attempts are allowed |
| Promotions.RetryPublishedEarly | services/reconciliation-worker/src/lib/retry-schedule.ts:21-27 | a fault-free run in which a slow poller removes and publishes the next retry two seconds before it is due |
| Backoff.BackoffWithinBounds | services/reconciliation-worker/src/lib/backoff.ts:2-6 | the delay is the base plus a fifth of it times the draw, rounded; so between the base and 1.2 times it |
| Backoff.TotalBaseClosedForm | services/reconciliation-worker/src/lib/backoff.ts:3 | the base delays sum to 1000·(2^n − 1) up to six failures and 63000 + 60000·(n − 6) beyond |
| SortedSet.PullTakesLowestDue | services/reconciliation-worker/src/lib/retry-schedule.ts:21-27 | one poll takes exactly the min(limit, due) lowest-scored entries, none before its score, and keeps all others |
| SortedSet.PollsDrain | services/reconciliation-worker/src/lib/retry-schedule.ts:21-27 | k due entries are gone after exactly ⌈k / limit⌉ polls when nothing new falls due |
| SortedSet.AddContents | services/reconciliation-worker/src/lib/retry-schedule.ts:17-19 | scheduling leaves one entry per event, with the last score, and keeps the order |
| Integrity.Always | packages/db/prisma/schema.prisma:67-193 | after every run the tables agree with one another: keys are unique, events, orders, ledger entries, dead letters and matched records name rows that are there, rows state their payload, the ledger consists of pairs, matched records match, dead letters have their attempts; queues name existing events, and actors' local copies are still true |
| References.RefersAlways | packages/db/prisma/schema.prisma:67-193 | after every run each mismatch names an event, and each settlement record a batch and, whatever its status, an event if any; so do uploads under way |
| References.OrderAsPlaced | services/ingestion/src/repositories/order.repository.ts:15-17 | an order that is placed is created with its amount, currency and time, which stand in every continuation |
| Integrity.FactsStand | services/reconciliation-worker/src/repositories/payment-event.repository.ts:9-36 | what the tables say at some point of a run stands until its end: facts of events, orders and records never change, an event's order not once set, an entry only by being settled once |
| Integrity.LedgerIntegrity | services/reconciliation-worker/src/services/reconciliation-runner.service.ts:56-77 | in every run each ledger entry stands in a debit/credit pair whose amount and currency equal the event's and the order's and whose order is the event's |
| Integrity.EventOrderStands | services/reconciliation-worker/src/services/reconciliation-runner.service.ts:96-115 | an event's order is unset or the existing order its payload names, and never changes once set |
| Integrity.DeadLetteredHasRow | services/reconciliation-worker/src/consumer/stream-consumer.ts:153-165 | a dead-lettered event has a dead letter with its payload and at least maxAttempts attempts |
| Integrity.CommitKeeps | services/reconciliation-worker/src/services/reconciliation-runner.service.ts:71-77 | the transaction of an accepted verdict appends exactly one balanced pair and keeps every table consistent |
| Outcomes.RunOutcome | services/reconciliation-worker/src/services/reconciliation-runner.service.ts:30-115 | everything a run without throws changes: the order is the one the event refers to, or else its payload names, exactly if it is stored; backfilled reference, recorded reasons, or moved order and booked pair, and the event's state; it returns even when the order is missing, and at once when the event is |
| Outcomes.FailureOutcome | services/reconciliation-worker/src/consumer/stream-consumer.ts:144-171 | everything the failure handler changes: attempt counted and message acknowledged always; below the limit failed and rescheduled, at the limit dead-lettered, a second dead letter aborts |
| Reconciliation.Reconcile | services/reconciliation-worker/src/services/reconciliation.service.ts:45-118 | the reconciler that pushes its reasons one by one computes the verdict the lemmas are about |
| Reconciliation.VerdictExactly | services/reconciliation-worker/src/services/reconciliation.service.ts:45-118 | mismatched exactly when there is no order or the money, the delay, a second payment or a refund of an unpaid order is objected to; else pending exactly for a pending payment and matched for any other; the order is to be paid exactly for a matched success and refunded exactly for a matched refund |
| Reconciliation.VerdictMovesExactlyAccepted | services/reconciliation-worker/src/services/reconciliation.service.ts:99-117 | the order is moved exactly when the event agrees in money, is in time, and is a payment for an unpaid order or a refund for a paid one; always to another status; mismatched exactly when a reason is named |
| Reconciliation.ReasonsExactly | services/reconciliation-worker/src/services/reconciliation.service.ts:48-97 | each reason is named exactly when its own condition holds; a missing order is the only reason when there is none |
| Reconciliation.ReasonsDistinct | services/reconciliation-worker/src/services/reconciliation.service.ts:60-97 | no reason is named twice, and they come in the order of the checks |
| Intake.FirstPayloadWins | services/ingestion/src/repositories/payment-event.repository.ts:33-48 | in every run, with any deliveries and key expiries: one row per gateway id that reached the upsert, stating the first payload that did, unchanged by intake and worker |
| Intake.DeliveredArePublished | services/ingestion/src/services/webhook.service.ts:39-53 | if no handler fails, once no request is in flight every delivered id has its row and has been published |
| Spacing.WinsAreSpaced | services/ingestion/src/services/idempotency.service.ts:20-23 | deliveries of one id that win its key are at least the key's lifetime apart |
| Spacing.WinsInSpan | services/ingestion/src/services/idempotency.service.ts:20-23 | any span T sees at most ⌊T / TTL⌋ + 1 of them |
| Spacing.PublicationsBounded | services/ingestion/src/services/webhook.service.ts:39-53 | intake publishes an event at most once per win, hence at most ⌊T / TTL⌋ + 1 times up to time T |
| Spacing.FailureStrands | services/ingestion/src/services/webhook.service.ts:39-53 | a request that fails alone between winning the key and publishing leaves the key set and nobody to publish |
| Incidents.RequestStranded | services/ingestion/src/services/webhook.service.ts:39-53 | a run that ends so: a webhook wins its key and fails |
| Spacing.RedeliveryShutOut | packages/shared/src/queue/stream-producer.ts:5-12 | from then until the key expires the event stays unpublished, whatever is redelivered |
| Spacing.RedeliveryRecoversExactly | packages/shared/src/queue/stream-producer.ts:5-12 | delivering such an event's payload again, and running the request to its end, publishes it if and only if the key has expired |
| Settlement.ProcessUpload | services/ingestion/src/services/settlement.service.ts:32-79 | the upload's loop and counters compute the specified tables and result, for repeated, invalid and new files |
| Settlement.UploadIsItsCommands | services/ingestion/src/services/settlement.service.ts:32-79 | the same upload is what its single commands in the pipeline do when left alone |
| Settlement.UploadSettlesExactly | services/ingestion/src/services/settlement.service.ts:43-78 | a completed upload settles exactly the pending entries of events some row matches on id, amount and currency, linked to the first such row's record; one record per row; nothing else changes but its batch |
| Settlement.CountsAddUp | services/ingestion/src/services/settlement.service.ts:64-77 | the three counts add up to the number of rows |
| Settlement.BatchCountsRecords | services/ingestion/src/services/settlement.service.ts:43-78 | a completed upload's total, matched, mismatched and unmatched are the numbers of its records, and of those with each verdict |
| Batches.CompletedBatchCounts | services/ingestion/src/services/settlement.service.ts:43-78 | the same in every run, over all interleavings: a completed batch has one record for each row, and its counters are the numbers of its records with each verdict |
| Settlement.UploadIgnoresRowOrder | services/ingestion/src/services/settlement.service.ts:43-78 | any permutation of the rows gives the same batch and settles the same entries |
| Settlement.OnlyFirstUploadsCount | services/ingestion/src/services/settlement.service.ts:33-41 | for any history of whole uploads among steps of everything else, the final state is that of the history with only the first upload of each file that parses |
| Settlement.SettlementIsSound | services/ingestion/src/services/settlement.service.ts:47-72 | in every run a settled entry names a matched record of its event with its amount and currency, and both halves of a pair are settled by the same record at the same time |
| Settlement.SettledForGood | services/ingestion/src/repositories/ledger.repository.ts:45-50 | once settled an entry never changes again |
| Unsettled.StaysPending | services/ingestion/src/services/settlement.service.ts:33-72 | an entry that no upload under way can settle stays as it is as long as its event is named only by uploads of files known already: a pair booked after its row was processed stays pending until another file names it |
| Incidents.BookedTooLate | services/ingestion/src/services/settlement.service.ts:47-72 | a fault-free run that ends so: a file that confirms a payment is processed while its run is about to book |
| Unsettled.NeverCompletedExactly | services/ingestion/src/services/settlement.service.ts:33-78 | after any run a batch is processing in every continuation if and only if it is now and no upload is past its creation and not over; uploading the file again does not finish it |
| Incidents.UploadAbandoned | services/ingestion/src/services/settlement.service.ts:33-46 | a run that ends so: an upload stops after it has created its batch |
| Pipeline.MatchRecord | services/ingestion/src/services/settlement-matcher.service.ts:22-35 | unmatched exactly without an event, matched exactly with equal amount and currency |
| Balance.GetBalance | services/ingestion/src/services/ledger.service.ts:23-49 | for any ledger and any order of its grouped rows: exactly the accounts that occur, once each, with the plain sums of their debits and credits, and overallNet the plain signed sum |
| Balance.BooksBalance | services/ingestion/src/repositories/ledger.repository.ts:25-36 | in every run the books net to zero, over everything and over any event, order, currency or settlement status |
| Balance.NetIsDebitsLessCredits | services/ingestion/src/services/ledger.service.ts:40-46 | the signed sum is total debits less total credits |
| Serving.BatchIsWork | services/reconciliation-worker/src/consumer/stream-consumer.ts:104-110 | serving a batch is a run of its worker's steps in the pipeline, from the first lock to the next read, whatever throws |
| Serving.ServeIsWork | services/reconciliation-worker/src/consumer/stream-consumer.ts:114-142 | serving one entry, lock, try, catch and finally included, is a run of its worker's steps |
| Serving.TurnIsWork | services/reconciliation-worker/src/consumer/stream-consumer.ts:78-113 | a turn of the loop that reads a batch and serves it is a run of its worker's steps from one read to the next |
| Serving.BareTurnIsWork | services/reconciliation-worker/src/consumer/stream-consumer.ts:81-96 | so is a turn whose read finds nothing or throws |
| Serving.AcceptedIsItsSteps | services/ingestion/src/services/webhook.service.ts:39-53 | an accepted webhook is four steps of its handler: key, order, row, message |
| Serving.PromotionIsItsSteps | services/reconciliation-worker/src/consumer/stream-consumer.ts:177-183 | a promotion is its poller's steps: the due entries up to the batch size are removed and published in order |
| Services.StreamConsumer.ReadBatch | services/reconciliation-worker/src/consumer/stream-consumer.ts:81-103 | a read takes the next unread entries, as many as batchSize or all that are left |
| Services.StreamConsumer.HandleBatch | services/reconciliation-worker/src/consumer/stream-consumer.ts:104-110 | the entries are served one after another until one throws |
| Services.StreamConsumer.HandleMessage | services/reconciliation-worker/src/consumer/stream-consumer.ts:114-142 | lock, run, acknowledge, catch, release: the resulting stores and whether the loop goes on, for every pattern of throws |
| Services.StreamConsumer.HandleFailure | services/reconciliation-worker/src/consumer/stream-consumer.ts:144-175 | count, acknowledge, then dead-letter or reschedule, for every pattern of throws |
| Services.StreamConsumer.PromoteDueRetries | services/reconciliation-worker/src/consumer/stream-consumer.ts:177-183 | due retries are all removed, then appended to the stream in order; it throws exactly when one of its calls does, the last, leaving the stores unchanged, or all removed and exactly the entries before it appended, with its own if it took effect |
| Services.ReconciliationRunner.Run | services/reconciliation-worker/src/services/reconciliation-runner.service.ts:30-86 | the run issues exactly the pipeline's commands up to its return or first exception, and throws exactly when a call does |
| Services.ReconciliationRunner.ResolveOrder | services/reconciliation-worker/src/services/reconciliation-runner.service.ts:96-115 | finds the order by the event's reference or its payload's exactly if it is stored, as stored, backfilling the former; throws exactly when a call does |
| Services.DistributedLock.Acquire | services/reconciliation-worker/src/lib/redis-lock.ts:26-30 | sets the key with a fresh token if it is free, and returns the token only then |
| Services.DistributedLock.Release | services/reconciliation-worker/src/lib/redis-lock.ts:32-34 | deletes the key only if it holds the token |
| Services.RetrySchedule.ScheduleRetry | services/reconciliation-worker/src/lib/retry-schedule.ts:17-19 | unless it throws before its effect, the event afterwards has exactly one entry, with the given time, and all other entries are kept |
| Services.RetrySchedule.PullDue | services/reconciliation-worker/src/lib/retry-schedule.ts:21-27 | reads what is due and removes it if there is anything; it throws exactly when one of these one or two calls does, and is then left with all or none removed |
| Services.IdempotencyService.MarkIfNew | services/ingestion/src/services/idempotency.service.ts:20-23 | sets the key if it is free or expired, and reports whether it did |
| Services.WebhookService.ProcessWebhook | services/ingestion/src/services/webhook.service.ts:29-56 | unauthorized, invalid, duplicate or accepted, with the stores each leaves; an error exactly when one of its calls throws, the last, leaving exactly the effects up to it; so without a throw a free key means accepted and published, any other a duplicate |

## Left out

- HTTP routes, controllers, the dashboard, the mock gateway, health checks, start and stop with their timers, logging: plumbing. The gateway is an arbitrary environment that delivers any payload at any time.
- Signature, JSON and schema checks: parameters of `Services.WebhookService.ProcessWebhook`, of which the model keeps only that an amount is positive.
- CSV parsing and coercion: an upload starts from typed rows or a parse failure; amounts are integers, although a row's amount may be any finite number there. A file stands for its content, so equal hash means equal file.
- Column and message details nobody decides on: last errors, the mismatches' detail objects, filenames, correlation ids, JSON encoding of stream messages, empty stream fields, a raw payload without an order id (intake never stores one).
- Redis and Postgres internals: each command and transaction is one atomic step; an expired key is absent. UUIDs and lock tokens are fresh naturals, and 32-bit column ranges and number precision are not modelled.
- The due time of a retry is computed just before the command that schedules it (`services/reconciliation-worker/src/consumer/stream-consumer.ts:169-170`); the model takes the clock at the command, so a real retry may be due earlier than the model's by that command's latency, though never before its delay after the failure was counted.
- Attempts.ExactlyMaxAttempts: about an event published once, whose promotions are never out of turn; any other event has the bounds of `Accounting.RetriesEnd` and, with one poller at a time, of `Accounting.OnePollerRetriesEnd`.
- Settlement.UploadSettlesExactly: about an upload with no concurrent steps; over all interleavings `Settlement.SettlementIsSound` and `Settlement.SettledForGood` hold.
- Services.StreamConsumer.HandleBatch: the clock stands still within a batch; in the pipeline it can advance between any two commands. The endless loop around it, with its pause after an exception, is there one turn at a time (`Serving.TurnIsWork`).
- Matching an order that is created after its event was reconciled: the code does not do it.
- Thin reads: lists, pagination, counts by state, batch details.
