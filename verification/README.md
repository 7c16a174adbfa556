# Payments pipeline: model and proofs

The service takes payment requests over an API, writes each payment together with an outbox row, publishes the
row to RabbitMQ, charges the payment in a consumer and delivers the result by webhook. This project models the
parts that share state and proves what they guarantee together, over every interleaving of API requests, outbox
workers, consumers and crashes.

## How it is built

State machines carry the concurrency. Every SQL statement is one step; a row written by an open transaction is
locked with its uncommitted draft; a writer whose WHERE clause matches that row waits; SKIP LOCKED omits it;
a transaction may be rolled back, and its process may crash, between any two steps.

- `Lease`, `LeaseInvariant`, `LeaseTheorems`, `LeaseSpacing`, `LeaseTiming`, `LeasePool`, `LeaseProgress`,
  `LeaseWitnesses`, `LeaseDeath`: the outbox lease protocol with any number of workers, its invariant, what holds over
  whole runs, that no worker is stuck, and where the guarantees end.
- `Processing`, `ProcessingTheorems`, `ChargeAccount`: any number of handler transactions claiming, charging and
  finalising payments.
- `Creation`: any number of create requests, insert-if-absent on the idempotency key.
- `Pipeline`, `PipelineInvariant`, `PipelineTheorems`, `PipelineAnswers`: the three machines together with the
  broker's copies.
- `Webhooks`: any number of webhook batches.

Classes carry the code that updates things in place, each method proved against its whole new state.

- `OutboxRows` holds the WHERE and SET clauses of the six outbox operations; the repository class in `OutboxWorker`
  and the `Lease` machine both use them. `Backoff` is the worker's retry delay; `PublishPool` counts the rounds of a
  batch.
- `PaymentAggregate`, `UnitOfWork`, `Handlers`: the aggregate, the session, the repositories and the two handlers;
  `HandlerRefinement` and `CreationRefinement` tie the handlers to the `Processing` and `Creation` machines.
  `PaymentRules` is shared by all of them.
- `Broker`: routing, ack and nack, and the dead-letter cycle. `WebhookRules`: the delivery entity and the batch handler.
- `Serialization`: the outbox payload. `RateLimiter`: the sliding-window limiter.

## Assumptions

- Worker ids, message ids, payment ids, attempt ids and delivery ids are distinct, as UUIDs are.
- Time is a real number read from one clock that never runs backwards (the rate limiter is also treated on any other);
  `finished_at` and `processed_at` of outbox rows come from the database's own clock and are free.
- A worker reads `now` once per batch; `skew` bounds the time until its claim statement runs.
- `OUTBOX_MAX_ATTEMPTS` is at least 1 and the same for all workers; delays and jitter are not negative.
- A publish that reports success left exactly its copy in the broker; one that failed, or was cut off, may have.
- RabbitMQ raises the `x-death` count of (queue, reason) by one per dead-letter event, leaves a count that is no number
  alone, and takes an unanswered delivery back when its consumer or channel is gone; the handler may go on after that.
- The subscriber binds the main queue under the queue's own name; `Broker.CycleClosesExactlyWhen` says when that closes
  the cycle.
- Outbox rows are written by payment creation only: the events the process handler raises are never collected.
- Dates are whole microseconds; reading an ISO date or a UUID string gives back what was written (such codecs exist:
  `Serialization.FaithfulCodecExists`), and JSON storage keeps JSON values.
- For the results about the publish pool: the event loop starts a waiting publish as soon as a permit is free, and
  `wait_for` ends a publish by its timeout.

## Where code and documentation differ

- `OUTBOX_RETRY_MAX_DELAY` is named a maximum, but the jitter multiplies after the cap
  (`src/app/payments/infrastructure/outbox/worker.py:191-198`); `Backoff.CapHoldsExactlyWhen` gives the exact condition.
- The guide says the lease protects from double processing (`docs/payments.md:136-143`). By itself it does not:
  `LeaseWitnesses.UnpooledOverlapExactlyWhen`. With the semaphore and the publish timeout it does exactly when the
  settings fit: `LeaseWitnesses.OverlapExactlyWhen`; the defaults do (`LeasePool.DefaultSettingsFit`).
- The guide promises at-least-once publication (`docs/payments.md:136-137`). Under every setting that
  claims anything a message may die without a successful publish, and be dead although one succeeded
  (`LeaseDeath.DeadWhateverWasPublished`). What holds is that it dies only after exactly `OUTBOX_MAX_ATTEMPTS` claims
  and is published otherwise (`LeaseTheorems.DiedAfterMaxClaims`, `LeaseTheorems.PublishedUnlessDied`).
- A payment may be charged any number of times (`ChargeAccount.ChargedAnyNumberOfTimes`): every charge but one belongs
  to a transaction that was rolled back (`ChargeAccount.ChargesAreUndoneOrCount`), and in the whole pipeline
  `PipelineTheorems.ChargesPerPayment` bounds how many there are.
- The rate limiter promises its limit without a word about the clock, which is `time.time()`
  (`src/runtime/security/rate_limiter.py:13-22`); `RateLimiter.LimitFailsExactlyWhen` says which clocks break it.
- `UnitOfWork.PaymentsUnitOfWork.Rollback` is idempotent in the literal sense: a second call keeps newly staged work.

## Model

| member | source | states |
|---|---|---|
| PipelineTheorems.NoStrandedPayment | src/app/payments/infrastructure/broker/consumer.py:52-96 | In every state of every run (API, workers, broker, consumers interleaved, crashes anywhere) a committed payment that is not terminal has its PaymentCreated message pending, processing or declared dead in the outbox, or a copy of it in the main queue, unacked, in the retry queue or in the DLQ |
| PipelineTheorems.NoCopyLost | src/app/payments/infrastructure/broker/consumer.py:46-62 | A broker message leaves the queues only when its payment is final or a copy of it has reached the DLQ, also when publishing to the DLQ fails and is retried |
| PipelineTheorems.RunsPerCopy | src/app/payments/infrastructure/broker/consumer.py:86-96 | A broker message reaches the process handler at most RABBITMQ_MAX_RETRIES times plus once per delivery that a crash or a lost channel cut off, and charges at most once per run |
| PipelineTheorems.AckedOutcomes | src/app/payments/infrastructure/broker/consumer.py:98-130 | For outbox-produced messages NOT_FOUND and NOT_PENDING are never answered, the version conflict is never raised, and every handler run that returned, even on a lost channel, left its payment finalised |
| PipelineTheorems.ChargesPerPayment | src/app/payments/application/handlers/process_payment.py:83-87 | Gateway charges of one payment, counted over the whole run, are at most OUTBOX_MAX_ATTEMPTS * RABBITMQ_MAX_RETRIES plus the deliveries of its messages that were cut off |
| PipelineTheorems.ChargesCounted | src/app/payments/application/handlers/process_payment.py:83-87 | The charges recorded at the copies of a message add up to the number of charge steps in the run |
| PipelineTheorems.LossesCounted | src/app/payments/infrastructure/broker/consumer.py:46-62 | The losses recorded at a copy are the crash and lost-channel steps that cut its deliveries off |
| PipelineAnswers.CopyGoesOn | src/app/payments/infrastructure/broker/consumer.py:46-96 | No copy is ever stuck: in every state of every run its next step, delivery, routing, end of a finished run, DLQ publish, answer or return from the retry queue, is possible |
| PipelineAnswers.PartsGoOn | src/app/payments/infrastructure/broker/consumer.py:46-96 | Putting the parts together blocks none of them: whatever a request, a worker or a handler run can do on its own it can do in the pipeline |
| PipelineAnswers.DispatchStartsARun | src/app/payments/infrastructure/broker/consumer.py:79-99 | A delivered copy with retries left starts a new handler run for the payment of its message, one without goes to the DLQ |
| PipelineAnswers.AckedForGood | src/app/payments/infrastructure/broker/consumer.py:46-62 | Once a handler run has returned, or the DLQ has accepted the copy, and unless a crash or lost channel cuts the delivery off, the copy is never handled again |
| PipelineAnswers.NackFollows | src/app/payments/infrastructure/broker/consumer.py:46-62 | Once a run or the DLQ publish has raised, the delivery waits for exactly one answer, the nack, which is possible |
| PipelineAnswers.ReturnsWithCount | src/app/payments/infrastructure/broker/consumer.py:58-60 | A nack sends the copy to the retry queue with one more rejection; its expiry there, and a delivery cut off, send it back to the main queue with the same count |
| PipelineAnswers.CopiesAppearWhenPublishesEnd | src/app/payments/infrastructure/outbox/worker.py:155-180 | A copy can appear in the broker exactly in the step in which the publish of that claim ends, by an answer or by the crash of its worker |
| PipelineInvariant.StepKeepsInv | src/app/payments/infrastructure/broker/consumer.py:46-96 | Every step of every part keeps the invariant that ties payments, outbox rows, broker copies and handler transactions together |
| LeaseTheorems.Fencing | src/app/payments/infrastructure/repositories/outbox.py:113-134 | A mark changes something if and only if the worker still owns the row; then the lease is the one its current batch took, nobody else has the row locked and row attempts equal the worker snapshot |
| LeaseTheorems.VerdictsAgree | src/app/payments/infrastructure/repositories/outbox.py:152-172 | The worker passes None if and only if the database CASE writes dead, and a retry time reaches the row unchanged |
| LeaseTheorems.AtMostTwiceMaxChanges | src/app/payments/infrastructure/repositories/outbox.py:31-172 | A message changes its committed row at most 2 * OUTBOX_MAX_ATTEMPTS times over any run, over all workers |
| LeaseTheorems.TerminalIsFinal | src/app/payments/infrastructure/repositories/outbox.py:194-205 | Once processed or dead a row never changes again except by deletion |
| LeaseTheorems.CommittedRows | src/app/payments/infrastructure/repositories/outbox.py:31-205 | Every committed row of every run: claimed_at and claimed_by exactly while processing, finished_at exactly when terminal, processed_at exactly when processed, attempts within the limit and equal to the claims made, processed only after a publish that returned success |
| LeaseTheorems.PublishedUnlessDied | src/app/payments/infrastructure/repositories/outbox.py:113-134 | A message that is terminal or deleted had a publish that returned success, or was declared dead |
| LeaseTheorems.DiedAfterMaxClaims | src/app/payments/infrastructure/repositories/outbox.py:152-172 | A message is declared dead only after exactly OUTBOX_MAX_ATTEMPTS claims |
| LeaseTheorems.AtMostMaxPublishes | src/app/payments/infrastructure/outbox/worker.py:149-180 | A message is published at most OUTBOX_MAX_ATTEMPTS times over all workers, crashes included |
| LeaseTheorems.ReapAndPurge | src/app/payments/infrastructure/repositories/outbox.py:174-205 | In a run reap_exhausted changes nothing and a purge never deletes an undecided message |
| LeaseTheorems.BackoffSpacing | src/app/payments/infrastructure/outbox/worker.py:182-198 | Claims k and k + 1 of a message lie at least min(base * 2^(k-1), cap, claim timeout less clock skew) apart, so claim n + 1 comes at least the sum of those gaps after the first, and there are at most OUTBOX_MAX_ATTEMPTS claims |
| LeaseSpacing.FailureSpacing | src/app/payments/infrastructure/outbox/worker.py:182-198 | If a recorded publish failure separates claims k and k + 1 of a message, they lie at least min(base * 2^(k-1), cap) apart |
| LeaseSpacing.ExpirySpacing | src/app/payments/infrastructure/repositories/outbox.py:43-48 | If an expired lease separates two claims of a message, they lie more than the claim timeout apart, less the skew between reading now and claiming |
| LeaseSpacing.SameCycleRecovery | src/app/payments/infrastructure/repositories/outbox.py:43-68 | In every run, once both release updates of a poll are through, every row the poll has touched is dead or can be selected by the claim of the same poll, locks and drafts of others included |
| LeaseTheorems.StepClimbs | src/app/payments/infrastructure/repositories/outbox.py:100-110 | Every effective step raises (max - attempts, is processing), read upwards, or deletes a terminal row |
| LeaseInvariant.StepKeepsInv | src/app/payments/infrastructure/repositories/outbox.py:31-205 | Every step of every worker keeps the invariant of rows, locks, claim history and worker phases |
| LeaseInvariant.LeaseIsFromThisBatch | src/app/payments/infrastructure/outbox/worker.py:133-147 | A row that still belongs to a worker recording its batch carries the lease that batch took |
| LeaseTiming.NoOverlappingPublishes | src/app/payments/infrastructure/outbox/worker.py:117-125 | While every batch finishes within its lease, publishes of one message under different leases are disjoint in time and ordered as the leases |
| LeasePool.PooledPublishesNeverOverlap | src/app/payments/infrastructure/outbox/worker.py:117-125 | In every run whose workers start a publish only with a permit, end it within its timeout and commit a claim within the delay, publishes of one message never overlap when ceil(batch size / concurrency) timeouts plus the delay fit the claim timeout |
| LeasePool.PooledIsTimely | src/app/payments/infrastructure/outbox/worker.py:155-165 | In such a run no worker is still publishing when the lease of its batch ends |
| LeasePool.BatchEndsInRounds | src/app/payments/infrastructure/outbox/worker.py:119-125 | In a run under the rules of semaphore and timeout, whatever the settings, at most `permits` publishes of a worker are under way and all n of a batch have ended ceil(n / permits) timeouts after its claim was due |
| LeasePool.StepKeepsPool | src/app/payments/infrastructure/outbox/worker.py:119-125 | Every step under these rules keeps the bound on how many publishes can be late in which round |
| LeaseWitnesses.OverlapExactlyWhen | src/app/payments/infrastructure/outbox/worker.py:117-125 | Under these rules publishes of one message can overlap if and only if a message may be claimed twice and ceil(batch size / concurrency) timeouts plus the delay exceed the claim timeout |
| LeaseWitnesses.UnpooledOverlapExactlyWhen | src/app/payments/infrastructure/repositories/outbox.py:43-66 | With publishes of any length they can overlap if and only if a message may be claimed twice and batches are not empty, whatever the claim timeout |
| LeaseWitnesses.LeaseCanBeOverrun | src/app/payments/infrastructure/repositories/outbox.py:43-66 | A run with a claim timeout of 10 s in which a second worker publishes a message while the first still does |
| LeaseProgress.NeverStuck | src/app/payments/infrastructure/outbox/worker.py:55-147 | In every state of every run every worker can go on with its own work, unless another transaction holds a row lock or its claim comes later than the skew allows |
| LeaseProgress.PublisherGoesOn | src/app/payments/infrastructure/outbox/worker.py:149-180 | Each publish of a batch can be started once and then ended once, with either result |
| LeaseProgress.RecordingCanBegin | src/app/payments/infrastructure/outbox/worker.py:117-133 | The recording can begin if and only if every publish of the batch has ended |
| LeaseProgress.RecorderGoesOn | src/app/payments/infrastructure/outbox/worker.py:133-147 | A recording worker can write success if and only if that publish returned success and a failure if and only if it did not, waiting only for a lock on a row that is still its own |
| LeaseProgress.PollerGoesOn | src/app/payments/infrastructure/repositories/outbox.py:43-99 | The release updates wait only for locked overdue leases; the claim, which skips what is locked, never waits and within the skew always has an answer |
| LeaseProgress.PurgerGoesOn | src/app/payments/infrastructure/repositories/outbox.py:174-205 | A clean-up never waits for its reaping, which finds nothing, and waits for its purge only while a row it is to delete is locked by somebody else |
| LeaseDeath.DeadWhateverWasPublished | src/app/payments/infrastructure/repositories/outbox.py:49-59 | For every setting: some run ends with a message dead although a publish of it returned success, and some run with one dead without such a publish, in either case if and only if the batch limit is at least one |
| LeaseTiming.BoundedWaiting | src/app/payments/infrastructure/repositories/outbox.py:85-99 | From any state on, the claims that pass an eligible message over, times the batch limit, are at most the attempts left to its older messages that are not yet processed, dead or deleted |
| LeaseTiming.DecidedSpendsNothing | src/app/payments/infrastructure/repositories/outbox.py:194-205 | A message that is processed, dead or deleted is never claimed again |
| LeaseTiming.PassIsCommit | src/app/payments/infrastructure/repositories/outbox.py:96-98 | Whenever a committed claim passes an eligible message over, it is full and everything it took was created earlier, or at the same time with a smaller id |
| LeaseTiming.PassesAreCounted | src/app/payments/infrastructure/repositories/outbox.py:85-99 | Every pass is counted: a claim notes the unlocked, pending, due messages it left, and its commit counts each of them once |
| OutboxRows.StatementOnRow | src/app/payments/infrastructure/repositories/outbox.py:49-66 | Each of the statements keeps the row invariant, raises the rank, touches terminal rows only to delete them, and reap_exhausted matches no reachable row |
| OutboxRows.StatementKeepsTable | src/app/payments/infrastructure/repositories/outbox.py:31-205 | Each statement keeps the invariant of the whole table and deletes terminal rows only |
| OutboxRows.LeaseRecovery | src/app/payments/infrastructure/repositories/outbox.py:43-68 | The two release updates partition the expired rows, leave no expired lease, change no other row, and every row put back to pending is eligible for the claim of the same cycle |
| OutboxRows.ReleasedRow | src/app/payments/infrastructure/repositories/outbox.py:43-66 | A lease older than the timeout is over: dead with its finish time if its attempts are spent, pending otherwise, nothing else of the row changed; every other row stays |
| OutboxRows.ClaimTakesOldest | src/app/payments/infrastructure/repositories/outbox.py:85-110 | What a claim takes was pending, unprocessed, within its attempts and due, and becomes a lease with one more attempt; of two such rows the later created is never taken while the other is left, ids decide between equals, and one is left only when the claim is full |
| OutboxRows.ReapIsIdentity | src/app/payments/infrastructure/repositories/outbox.py:174-192 | On reachable rows reap_exhausted is the identity |
| OutboxRows.OldestFirstUnique | src/app/payments/infrastructure/repositories/outbox.py:96-98 | ORDER BY created_at, id with LIMIT determines the claimed set |
| OutboxRows.OldestFirstExists | src/app/payments/infrastructure/repositories/outbox.py:85-99 | The claim query always has an answer |
| OutboxRows.PassedOverIsYounger | src/app/payments/infrastructure/repositories/outbox.py:96-98 | An eligible row left out of a claim is younger than every row of it, and the claim is full |
| OutboxWorker.OutboxRepository.ReleaseExpiredClaims | src/app/payments/infrastructure/repositories/outbox.py:31-68 | Both updates with their counts; on reachable rows the counts add up to the expired leases and none is left |
| OutboxWorker.OutboxRepository.ClaimBatch | src/app/payments/infrastructure/repositories/outbox.py:70-111 | The oldest eligible rows up to the limit become this worker's, with now, owner and one more attempt, and are returned as written |
| OutboxWorker.OutboxRepository.MarkProcessed | src/app/payments/infrastructure/repositories/outbox.py:113-134 | Only a row this worker owns becomes processed, lease cleared, both finish times set |
| OutboxWorker.OutboxRepository.MarkPublishFailure | src/app/payments/infrastructure/repositories/outbox.py:136-172 | Only a row this worker owns becomes dead at the limit, else pending with the given retry time |
| OutboxWorker.OutboxRepository.ReapExhausted | src/app/payments/infrastructure/repositories/outbox.py:174-192 | Exhausted pending rows become dead; on reachable rows nothing changes |
| OutboxWorker.OutboxRepository.PurgeProcessed | src/app/payments/infrastructure/repositories/outbox.py:194-205 | A row goes if and only if it is processed or dead with a finish time before the cutoff; every other row stays as it was |
| OutboxWorker.OutboxWorker.PublishBatch | src/app/payments/infrastructure/outbox/worker.py:75-147 | A batch claims the oldest eligible rows after releasing expired leases, and each ends decided by its own publish result with its own backoff, a processed or dead one with the time of that decision; when the claim transaction raises nothing changes, when the recording one raises the batch stays claimed |
| OutboxWorker.OutboxWorker.Record | src/app/payments/infrastructure/outbox/worker.py:133-147 | The recording transaction decides every message of the batch by its own result and no other row |
| OutboxWorker.OutboxWorker.RecordPublished | src/app/payments/infrastructure/outbox/worker.py:135-136 | Marks exactly the published messages of the batch |
| OutboxWorker.OutboxWorker.RecordFailed | src/app/payments/infrastructure/outbox/worker.py:137-146 | Marks exactly the failed messages, each with the worker's own retry verdict |
| OutboxWorker.OutboxWorker.Cycle | src/app/payments/infrastructure/outbox/worker.py:55-71 | One turn publishes a batch and counts, whatever raises; on every OUTBOX_PURGE_INTERVAL-th turn only it deletes rows, none that finished within retention by a new clock reading and, unless the clean-up raises, every terminal one that finished before |
| OutboxWorker.RecordedNext | src/app/payments/infrastructure/outbox/worker.py:134-147 | Recording one more result decides that message by its own result and leaves every other as it was |
| Backoff.RetryWindow | src/app/payments/infrastructure/outbox/worker.py:182-198 | None exactly at the limit; otherwise the retry lies between the un-jittered delay and (1 + jitter) times it |
| Backoff.RetryDoubles | src/app/payments/infrastructure/outbox/worker.py:190-198 | The first retry comes one base delay later, each further one after twice the delay before, capped, times the jitter drawn; None exactly at the limit |
| Backoff.ShippedRetries | src/config/settings.py:84-89 | With the default settings retries come 1, 2, 4 and 8 s after the batch read the clock, and the fifth failure has none |
| Backoff.DelayDoubles | src/app/payments/infrastructure/outbox/worker.py:191-194 | The delay doubles with each attempt until the cap and never shrinks |
| Backoff.CapHoldsExactlyWhen | src/app/payments/infrastructure/outbox/worker.py:195-198 | Every jittered delay respects OUTBOX_RETRY_MAX_DELAY if and only if delay * (1 + jitter) does |
| Backoff.JitterExceedsTheCap | src/app/payments/infrastructure/outbox/worker.py:195-198 | For every positive jitter there are settings and a draw under which a retry is put off beyond the cap |
| PublishPool.CeilIsCeiling | src/app/payments/infrastructure/outbox/worker.py:119-125 | The number of rounds is the ceiling of tasks over permits |
| LeasePool.DefaultSettingsFit | src/config/settings.py:77-86 | With the default settings the publishes of a batch need 25 s of the 300 s lease: they fit it if and only if the claim is committed within 275 s of its now |
| ProcessingTheorems.AllOrNothingFinalisation | src/app/payments/application/handlers/process_payment.py:64-127 | Every committed payment is pending with version 0 and nothing attached, or succeeded with version 2, exactly one attempt, numbered 1 and succeeded, and one delivery, of the succeeded event, or the same with failed; processing is never committed |
| ProcessingTheorems.GatewayDecides | src/app/payments/application/handlers/process_payment.py:83-127 | When a transaction is done with a verdict, its answer, the committed payment, the attempt and the webhook event all say what the gateway answered that transaction last, over every interleaving |
| ProcessingTheorems.OutcomesAreSafeToAck | src/app/payments/application/handlers/process_payment.py:54-72 | Under any interleaving NOT_PENDING is never answered, CLAIM_CONFLICT and ALREADY_TERMINAL only while the committed payment is terminal, and the finalising version conflict is unreachable |
| ProcessingTheorems.ClaimConflictExactlyWhen | src/app/payments/infrastructure/repositories/payment.py:83-95 | The claim fails if and only if somebody else has finalised the payment since it was read |
| ProcessingTheorems.AggregateEqualsRow | src/app/payments/domain/aggregates/payment.py:126-190 | After each successful compare-and-set the aggregate equals the row in status, version and processed_at; the second one always succeeds |
| ProcessingTheorems.OneTransactionPerPayment | src/app/payments/infrastructure/repositories/payment.py:83-95 | Between claim and commit a transaction is alone with the payment |
| ProcessingTheorems.FinalIsFinal | src/app/payments/application/handlers/process_payment.py:58-59 | A finalised payment, its attempts and deliveries never change again, whatever is redelivered |
| ProcessingTheorems.TransactionGoesOn | src/app/payments/application/handlers/process_payment.py:53-127 | No handler transaction is ever stuck: its next statement can always run, with either answer of the gateway; only the claim waits, while another transaction has the payment locked |
| ChargeAccount.ChargesAreUndoneOrCount | src/app/payments/application/handlers/process_payment.py:83-116 | In every run the charges of a payment are the charged transactions that were rolled back, plus one if the payment is final or a charged transaction is still open |
| ChargeAccount.ChargedAnyNumberOfTimes | src/app/payments/application/handlers/process_payment.py:83-87 | For every number there is a run that charges one payment that often |
| Processing.StepKeepsInv | src/app/payments/application/handlers/process_payment.py:53-127 | Every step of every handler transaction keeps the all-or-nothing invariant |
| PaymentRules.CasFollowsAggregate | src/app/payments/infrastructure/repositories/payment.py:83-94 | A compare-and-set guarded by the aggregate's old version and status makes row and aggregate equal |
| PaymentRules.NextNumber | src/app/payments/domain/aggregates/payment.py:217-217 | The next attempt number is one above the largest so far, 1 for the first |
| Handlers.ProcessPaymentHandler.Handle | src/app/payments/application/handlers/process_payment.py:38-150 | The answer from the row as read and as claimed, if and only if for each outcome; the tables change exactly when the payment was finalised and the commit accepted, and then by its row, one attempt and one delivery only, which all say succeeded or all say failed as the gateway did; the version conflict is never raised |
| Handlers.ProcessPaymentHandler.HandleInside | src/app/payments/application/handlers/process_payment.py:53-116 | The same inside the unit of work, with the gateway charged if and only if the claim hit |
| Handlers.ProcessPaymentHandler.StartAttempt | src/app/payments/application/handlers/process_payment.py:74-81 | The attempt added is processing and numbered one above all stored attempts of the payment |
| Handlers.ProcessPaymentHandler.Finish | src/app/payments/application/handlers/process_payment.py:89-127 | Attempt, aggregate, row and answer are succeeded with the succeeded event staged when the gateway said so, failed with the failed event otherwise |
| Handlers.ProcessPaymentHandler.ProcessClaimed | src/app/payments/application/handlers/process_payment.py:74-127 | A claimed payment is finalised, or nothing is answered but the gateway's failure |
| Handlers.NextNumberIsNextInLine | src/app/payments/domain/aggregates/payment.py:216-217 | Numbering from the hydrated attempts is numbering from all attempts stored for the payment |
| HandlerRefinement.HandlerFollowsMachine | src/app/payments/application/handlers/process_payment.py:53-127 | What one finalising call leaves in the tables is what the seven steps of the concurrent model leave in the account |
| HandlerRefinement.FinalisedShows | src/app/payments/application/handlers/process_payment.py:118-127 | The finalised tables show exactly one attempt and one delivery for the payment |
| Handlers.PaymentRepository.TryInsert | src/app/payments/infrastructure/repositories/payment.py:31-55 | Skips if and only if the idempotency key is taken, is refused if and only if only the id is, and inserts otherwise |
| Handlers.PaymentRepository.GetByIdempotencyKey | src/app/payments/infrastructure/repositories/payment.py:62-68 | Finds a payment with the key if and only if there is one |
| Handlers.PaymentRepository.BeginProcessing | src/app/payments/infrastructure/repositories/payment.py:70-95 | Hits if and only if id, status and version are as expected; then processing and version + 1, nothing else |
| Handlers.PaymentRepository.MarkSucceeded | src/app/payments/infrastructure/repositories/payment.py:97-123 | As above, with succeeded and processed_at |
| Handlers.PaymentRepository.MarkFailed | src/app/payments/infrastructure/repositories/payment.py:125-151 | As above, with failed and processed_at |
| Handlers.AttemptRepository.Add | src/app/payments/infrastructure/repositories/attempt.py:24-38 | Stages the attempt's row |
| Handlers.AttemptRepository.Update | src/app/payments/infrastructure/repositories/attempt.py:40-51 | Saves status, error, response and updated_at by id and nothing else |
| Handlers.AttemptRepository.GetByPaymentId | src/app/payments/infrastructure/repositories/attempt.py:53-62 | Every stored attempt of the payment exactly once, in (created_at, number) order |
| PaymentAggregate.Payment.Create | src/app/payments/domain/aggregates/payment.py:76-121 | Pending, version 0, one PaymentCreated event with the input data |
| PaymentAggregate.Payment.MarkProcessing | src/app/payments/domain/aggregates/payment.py:126-141 | Only from pending; version + 1 and the started event; a refused call changes nothing |
| PaymentAggregate.Payment.MarkSucceeded | src/app/payments/domain/aggregates/payment.py:143-160 | Only from processing; processed_at, version + 1 and the succeeded event; a refused call changes nothing |
| PaymentAggregate.Payment.MarkFailed | src/app/payments/domain/aggregates/payment.py:162-180 | Only from processing; processed_at, version + 1 and the failed event with its reason; a refused call changes nothing |
| PaymentAggregate.Payment.BeginAttempt | src/app/payments/domain/aggregates/payment.py:204-227 | Only while processing; a started attempt with the next number is appended |
| PaymentAggregate.Payment.SucceedAttempt | src/app/payments/domain/aggregates/payment.py:229-237 | Only while processing and only on the latest, processing attempt |
| PaymentAggregate.Payment.FailAttempt | src/app/payments/domain/aggregates/payment.py:239-247 | As above, recording the error |
| PaymentAggregate.PaymentAttempt.Start | src/app/payments/domain/entities/attempt.py:82-89 | Only from created; sets updated_at |
| PaymentAggregate.PaymentAttempt.Succeed | src/app/payments/domain/entities/attempt.py:91-101 | Only from processing; keeps the raw response and clears the error |
| PaymentAggregate.PaymentAttempt.Fail | src/app/payments/domain/entities/attempt.py:103-111 | Only from processing; keeps the error |
| PaymentAggregate.RaisedEventsRoundTrip | src/app/payments/domain/events/payment_events.py:9-49 | Every event the aggregate raises survives serialization, whatever JSON metadata the payment carries |
| PaymentAggregate.CreatedPayload | src/app/payments/domain/aggregates/payment.py:107-120 | The payload of PaymentCreated holds the payment id, its dates and everything the command said, each under its own key |
| PaymentAggregate.TransitionPayloads | src/app/payments/domain/aggregates/payment.py:126-180 | The payloads of the three other events name the transition, the payment, its time and, for a failure, the reason |
| UnitOfWork.PaymentsUnitOfWork.Enter | src/app/payments/infrastructure/uow.py:52-58 | A new session on the committed tables, all flags and collected events reset |
| UnitOfWork.PaymentsUnitOfWork.Commit | src/app/payments/infrastructure/uow.py:70-75 | All writes of the session become visible at once, or the call raises and none does |
| UnitOfWork.PaymentsUnitOfWork.Rollback | src/app/payments/infrastructure/uow.py:77-82 | The first call discards the staged work, a second one is a no-op that keeps newly staged work |
| UnitOfWork.PaymentsUnitOfWork.Exit | src/app/payments/infrastructure/uow.py:60-68 | Closes the session without ever writing to the database |
| UnitOfWork.PaymentsUnitOfWork.CollectEvents | src/app/payments/infrastructure/uow.py:84-102 | Stages one outbox row per event, in order, and remembers the events |
| UnitOfWork.StagedOnceEach | src/app/payments/infrastructure/uow.py:89-102 | With fresh ids every event has exactly one row, and no row that was there changes |
| UnitOfWork.Context.Begin | src/shared/application/transaction.py:44-45 | Opens the session and publishes the unit of work |
| UnitOfWork.Context.End | src/shared/application/transaction.py:46-52 | The database holds the handler's writes if and only if it returned, the wrapper commits and the commit is accepted; anything that raises is rolled back and the context is restored in either case |
| Creation.IdempotentCreation | src/app/payments/application/handlers/create_payment.py:56-67 | Over any interleaving there is at most one payment per key, exactly one PaymentCreated row per committed payment, and IdempotencyConflict is unreachable |
| Creation.SameKeySamePayment | src/app/payments/application/handlers/create_payment.py:56-65 | All successful calls with one key return the same committed payment |
| Creation.StepKeepsInv | src/app/payments/infrastructure/repositories/payment.py:31-55 | Every step of every request keeps the invariant of keys, ids and outbox rows |
| Handlers.CreatePaymentHandler.Handle | src/app/payments/application/handlers/create_payment.py:25-68 | Invalid data and a taken id are refused; a used key answers with its payment and changes nothing; otherwise the payment, pending at version 0, and its one outbox row appear together, and the row names this payment and repeats the command key by key; unique keys stay unique; IdempotencyConflict is never raised |
| Handlers.NewRowAnnounces | src/app/payments/infrastructure/uow.py:89-102 | The outbox row of a new payment: event type, payment id, correlation id, creation time, no attempt spent, and every field of the command under its own key |
| Handlers.AnnouncedIsProcessed | src/app/payments/infrastructure/broker/consumer.py:68-99 | From that row the consumer reads a PaymentCreated of this very payment and processes it from the first delivery on while retries are left; the dates in the payload parse back to the creation time |
| CreationRefinement.CreateFollowsMachine | src/app/payments/application/handlers/create_payment.py:36-68 | What one creating call leaves in the tables is what the four steps of the concurrent model leave in its state, and its message says what the pipeline model takes it to say |
| CreationRefinement.FindFollowsMachine | src/app/payments/application/handlers/create_payment.py:56-65 | A call whose key is taken is the machine finding that payment: it answers with it and commits nothing new |
| Handlers.CreatePaymentHandler.HandleInside | src/app/payments/application/handlers/create_payment.py:36-68 | The same inside the unit of work, with the created event collected |
| Broker.BuryCounts | src/app/payments/infrastructure/broker/consumer.py:140-150 | Whatever the x-death header looked like, a rejection raises _rejected_count by exactly one and an expiry leaves it; a header on which it raises stays one |
| Broker.EntriesAddUp | src/app/payments/infrastructure/broker/consumer.py:140-150 | _rejected_count: every entry with reason rejected adds its count, or 1 without one, wherever it stands; any other entry adds nothing; no list counts 0 |
| Broker.PaymentConsumerHandler.Handle | src/app/payments/infrastructure/broker/consumer.py:46-96 | Exactly one of ack and nack; processed if and only if it is a PaymentCreated with an id, a readable retry count and retries left; a copy reaches the DLQ if and only if it belongs there and the publish succeeds; acked if and only if it was copied, is not ours, or the handler returned |
| Broker.CycleClosesExactlyWhen | src/app/payments/infrastructure/broker/broker.py:26-56 | With two distinct queues the main -> retry -> main cycle closes if and only if the routing key is the name of the main queue |
| Serialization.ConsumerReadsTheEvent | src/app/payments/infrastructure/broker/consumer.py:79-99 | A serialized PaymentCreated is routed to the process handler with the payment that raised it while it has retries left; the other three events are ignored |
| Webhooks.BatchesAreDisjoint | src/app/payments/infrastructure/repositories/webhook_delivery.py:39-58 | Batches at work at the same time hold disjoint deliveries |
| Webhooks.CommitAppliesOwnResults | src/app/payments/application/handlers/deliver_webhooks.py:73-78 | A commit applies to each claimed delivery, still as it was read and pending, exactly the one transition of its own send result, none when it was skipped, and changes no other row |
| Webhooks.UpdateNeverBlocks | src/app/payments/infrastructure/repositories/webhook_delivery.py:60-73 | The unguarded update never waits for or overwrites another batch: its row is locked by its own batch |
| Webhooks.BatchGoesOn | src/app/payments/application/handlers/deliver_webhooks.py:63-78 | No batch is ever stuck: a new one can always claim, each claimed delivery can be sent, each result written once, and the batch can commit exactly when all are written |
| Webhooks.SendBudget | src/app/payments/domain/entities/webhook_delivery.py:146-166 | Committed sends equal attempt - 1 while pending and attempt once terminal, and never exceed max_attempts |
| Webhooks.FailureTakesTime | src/app/payments/domain/value_objects/retry_policy.py:28-33 | A delivery that ends failed does so at least base * max * (max - 1) / 2 after its first failure |
| Webhooks.ClaimableExactlyWhen | src/app/payments/infrastructure/repositories/webhook_delivery.py:46-53 | In every run an unlocked pending delivery can be claimed if and only if no failure of it is committed or the base delay times the number of failures has passed since the last |
| Webhooks.DelaysTriangular | src/app/payments/domain/value_objects/retry_policy.py:28-33 | The first n backoffs together are base * n * (n + 1) / 2 |
| Webhooks.StepKeepsInv | src/app/payments/application/handlers/deliver_webhooks.py:63-78 | Every step of every batch keeps the invariant of rows, locks and batches |
| WebhookRules.DeliverDueWebhooksHandler.Handle | src/app/payments/application/handlers/deliver_webhooks.py:49-78 | One undisturbed run: the oldest due deliveries, each with the transition of its own result, failures = number of results that were not ok |
| WebhookRules.DeliverDueWebhooksHandler.RecordBatch | src/app/payments/application/handlers/deliver_webhooks.py:73-78 | The recording loop applies each result once and counts the failures |
| WebhookRules.DeliverDueWebhooksHandler.Record | src/app/payments/application/handlers/deliver_webhooks.py:115-157 | One result saved to its own row; the transition is never refused |
| WebhookRules.WebhookRepository.ClaimDue | src/app/payments/infrastructure/repositories/webhook_delivery.py:39-58 | Pending, unlocked deliveries whose retry time is unset or reached, oldest first, up to the limit; one is left only when the limit is used up by deliveries created no later |
| WebhookRules.WebhookRepository.Update | src/app/payments/infrastructure/repositories/webhook_delivery.py:60-73 | Writes the mutable fields of the delivery with that id, whatever the row held |
| WebhookRules.WebhookDelivery.RecordFailure | src/app/payments/domain/entities/webhook_delivery.py:146-166 | Another attempt with linear backoff while the policy allows one, terminal failure otherwise |
| WebhookRules.WebhookDelivery.MarkSuccess | src/app/payments/domain/entities/webhook_delivery.py:90-106 | Only from pending; stores the response and clears the retry time |
| WebhookRules.WebhookDelivery.MarkFailed | src/app/payments/domain/entities/webhook_delivery.py:108-124 | Only from pending; stores the response and clears the retry time |
| WebhookRules.WebhookDelivery.ScheduleRetry | src/app/payments/domain/entities/webhook_delivery.py:126-144 | Only from pending; attempt + 1 and the given retry time |
| Serialization.RoundTripExactlyWhen | src/app/payments/infrastructure/outbox/serialization.py:29-57 | An event comes back equal if and only if every attribute is restorable: an id where an id is expected, a date where a date is expected, plain JSON elsewhere |
| Serialization.RoundTrip | src/app/payments/infrastructure/outbox/serialization.py:29-57 | Every well-typed event of the four types, with metadata of any depth, comes back equal, and its payload is JSON |
| Serialization.FaithfulCodecExists | src/app/payments/infrastructure/outbox/serialization.py:18-21 | There are codecs that give back every microsecond datetime and every UUID they write, so the round-trip results are about something |
| Serialization.JsonableIsIdempotent | src/app/payments/infrastructure/outbox/serialization.py:12-26 | _to_jsonable is idempotent |
| Serialization.FixedExactlyWhenPlain | src/app/payments/infrastructure/outbox/serialization.py:12-26 | _to_jsonable leaves a value as it is if and only if it has no date, UUID or tuple at any depth |
| Serialization.UnknownPassesThrough | src/app/payments/infrastructure/outbox/serialization.py:15-26 | Unknown types are passed through, not turned into strings |
| Serialization.DeserializeEvent | src/app/payments/infrastructure/outbox/serialization.py:38-57 | The two loops over the payload dictionary compute the specification, with the first error that applies |
| Serialization.RefusedExactlyWhen | src/app/payments/infrastructure/outbox/serialization.py:38-57 | Which dictionaries deserialize_event refuses, each error if and only if: type, then id, then dates, then missing or unexpected fields, of which only correlation_id may be left out |
| Serialization.DatesPointwise | src/app/payments/infrastructure/outbox/serialization.py:54-56 | The date loop treats each date field by itself |
| RateLimiter.DecidesAsFullHistory | src/runtime/security/rate_limiter.py:15-22 | While the clock never runs backwards, a call is allowed if and only if fewer than `limit` of all calls ever allowed for its key are less than one window old, after any sequence of calls for any keys |
| RateLimiter.NoWindowExceedsLimit | src/runtime/security/rate_limiter.py:13-22 | While the clock never runs backwards, no half-open window of the configured length holds more than `limit` allowed calls of one key |
| RateLimiter.LimitFailsExactlyWhen | src/runtime/security/rate_limiter.py:13-22 | For any clock readings, some calls at these readings exceed the limit if and only if the limit is at least two and the clock runs a whole window ahead of a reading and then back to within one window of it |
| RateLimiter.BackwardClockBreaksTheLimit | src/runtime/security/rate_limiter.py:15-18 | The readings 0, 20, 2 with a window of 10: calls that exceed the limit |
| RateLimiter.InMemoryRateLimiter.Allow | src/runtime/security/rate_limiter.py:13-22 | Allows if and only if fewer than `limit` stored calls of the key are less than one window old; keeps exactly those, adds an allowed one, and touches no other key |
| RateLimiter.PruneTwice | src/runtime/security/rate_limiter.py:18-18 | What an earlier prune dropped a later one would have dropped |

## Left out

- LeaseTiming.NoOverlappingPublishes: assumes that every batch finishes within its lease; `LeasePool.PooledIsTimely` derives that from the rules of semaphore and timeout.
- PipelineTheorems.ChargesPerPayment: adds one per delivery that a crash or a lost channel cut off, because such a redelivery does not count as a rejection.
- OutboxRows.LeaseRecovery: on a table nobody else touches; `LeaseSpacing.SameCycleRecovery` is the form for interleaved workers.
- OutboxWorker.OutboxWorker.Cycle: one turn without interference; interleaved turns and crashes between any two steps are steps of `Lease`.
- Handlers.ProcessPaymentHandler.Handle: from its claim on nobody else changes the payment, which `ProcessingTheorems.OneTransactionPerPayment` proves for interleaved calls; the read before the claim may be stale.
- WebhookRules.DeliverDueWebhooksHandler.Handle: one undisturbed batch with a fixed set of rows locked by others; interleaved batches are steps of `Webhooks`.
- UnitOfWork.PaymentsUnitOfWork.Commit: a commit that raises although the database performed it is not modelled.
- HTTP routes, schemas, middleware, translations, health and metrics endpoints: plumbing around the handlers.
- SQLAlchemy, PostgreSQL, RabbitMQ and FastStream beyond the statement, lock and dead-letter rules above; deadlocks appear only as rollbacks.
- `WebhookClient` and its HMAC signature, `FakeGateway` and its random delays: their results are free inputs.
- The semaphore of the webhook batch: it bounds concurrent sends only; results are recorded one after the other.
- Logging, metrics and the propagation of correlation ids.
- Settings, migrations, dependency injection and deployment files, except the defaults `LeasePool.DefaultSettingsFit` uses.
- Validation of `Money` and `IdempotencyKey`, and the bit layout of `uuid7`: single checks that would only add easy members.
