# Verified model of the import pipeline

This project models, in Dafny 4.11, the part of the observability lab that must not lose or double data: the API's
create transaction, the transactional outbox and its publishers, the RabbitMQ queue with its dead-letter queue, the
workers with their integration client and circuit breaker, the integration simulator, and the migration runner.
It proves what they keep under crashes, ambiguous commits, lost confirmations, overrun leases and redelivery.
Nothing was executed; all results are statements about the model.

## How it is built

* `Pipeline.dfy` is the whole system as one step machine. Every SQL statement, publish, confirmation, acknowledgement,
  rejection, delivery, connection loss and crash is one step; whatever may go either way (applied or not, reported or
  not, stored or not) is a parameter of the step. A `Trace` is any interleaving of any number of processes from the
  empty state. History variables (`creations`, `publications`, `work`) record what happened; no step reads them.
* `Tables.dfy`, `Flow.dfy` and `FlowKept.dfy` hold the invariant and the proof that every step keeps it.
* `Requests.dfy` follows the data of each request into its row, its event and, with `Processing.dfy`, the call to the
  simulator. `Chronicle.dfy` ties the history variables to the steps of the run.
* `Safety.dfy`, `Loss.dfy`, `Ledger.dfy`, `Leases.dfy`, `Duplicates.dfy`, `Drain.dfy`, `QueueDrain.dfy` and
  `EndToEnd.dfy` are the theorems over whole runs. `LostRun.dfy`, `MissedReplay.dfy` and `StuckRun.dfy` are concrete
  runs in which something the documentation promises fails.
* `Platform.dfy` is the running system as a mutable object that keeps its own run; between two steps of a process any
  others may take any number of theirs. `Outbox.dfy` (`publishBatch`), `Processing.dfy` (`processDelivery`, `Run`) and
  `Creation.dfy` (`CreateImport`) are the imperative code on it, with loops and early exits, and their contracts say
  exactly which steps of the machine a call takes. So the theorems about traces are theorems about that code.
* `Breaker.dfy`, `Integration.dfy`, `Simulator.dfy` and `Text.dfy` are the worker's circuit breaker (specified by its
  history of calls alone), its retry loop, the simulator it calls, and the error texts it stores.
* `Confirms.dfy`, `Topology.dfy` and `Migrations.dfy` are the publisher's channel, the declared queues, and the
  migration runner; `Handshake.dfy` connects the channel with the steps of the machine.

Where the steps come from: create transaction `internal/database/store.go:140-208`; claim, mark, release
`internal/database/store.go:257-303`; start and completion `internal/database/store.go:305-345`; the batch loop
`internal/messaging/outbox.go:49-78`; publish and confirmation `internal/messaging/broker.go:148-173`; deliveries and
settlement `internal/processor/worker.go:66-147`; one publisher goroutine per API process `cmd/api/main.go:52`; one
consumer loop per worker process `cmd/worker/main.go:55`.

## Where code and documentation differ

* The documentation gives each import the life QUEUED, PROCESSING, then SUCCEEDED or DEAD_LETTER
  (`docs/architecture.md:33-38`). Neither `StartProcessing` nor `CompleteImport` looks at the status, so a second
  delivery takes a finished import up again, and `LostRun.AFinishedImportCanRegress` is a reachable SUCCEEDED row that
  becomes DEAD_LETTER. `Ledger.RegressIff` says exactly which steps leave that life, `Ledger.DocumentedIff` that a run
  keeps to it exactly if it has no such step, and `Ledger.LifecycleWithoutDuplicates` that runs without duplicate
  deliveries never have one.
* A final failure is documented to end in DEAD_LETTER (`docs/architecture.md:31`). The worker cuts the error text at 300
  bytes, which can split a character, and PostgreSQL refuses a text that is not valid UTF-8: the update fails, the
  message is dead-lettered, and the import stays PROCESSING. `StuckRun` is the run; `Processing.FailureStorableIff` and
  `Processing.WorkerProcess.Reject` say for which error texts the update can be recorded.
* The outbox is there so that no import is left behind (`docs/architecture.md:42-44`). The code does not ensure this: a
  worker that loses its broker connection in the middle of an import finishes the import anyway. `LostRun` is a run in
  which an import is lost that way. `Loss.NoImportLostIff` is the exact condition: which steps lose an import, each
  given by a guard on the state before it. `Safety.SafeThroughoutIff` is the exact condition for the stronger property
  that every queued import is SUCCEEDED or carried by a copy, and `Safety.FailStopLosesNothing` says that workers that
  stop with their connection lose nothing.
* Repeating a key is documented to return the original import (`docs/architecture.md:27`). A request whose statement
  began before the first one committed gets an error instead: `MissedReplay` is the run, `Ledger.ReplayIff` the exact
  condition on the run. A request that begins after the key was answered always goes on with the original
  (`Ledger.AnsweredThenReplays`).

## Model

| member | source | states |
|---|---|---|
| Safety.SafeThroughoutIff | internal/processor/worker.go:66-147 | In every run of any processes with any faults, every import whose message was ever queued is SUCCEEDED or still carried by a copy that is ready, held outside the finishing phase, or dead-lettered, in every state, if and only if the run has no stale write: an applied start or DEAD_LETTER update of a row whose message was queued, when no copy carries it |
| Safety.StepSafeIff | internal/processor/worker.go:91-118 | The same for one step from any state that satisfies the invariant: it keeps all imports safe exactly if it is not a stale write |
| Loss.NoImportLostIff | internal/messaging/outbox.go:54-68 | No state of a run has a lost import (not SUCCEEDED, no event left to publish, no copy of its message ready, held outside the finishing phase, or dead-lettered) if and only if no step of the run is an applied start or an applied DEAD_LETTER update of a row with neither event nor copy left, or an applied mark of an event whose import is not SUCCEEDED and has no copy left |
| Loss.StepLossIff | internal/database/store.go:291-345 | The same for one step from any state that satisfies the invariant and has lost nothing |
| Loss.WriterIsDetached | internal/processor/worker.go:90-114 | Only a worker that has lost its connection can lose an import by a write |
| Safety.FailStopLosesNothing | internal/processor/worker.go:54-62 | If workers are fail-stop, that is, none goes on with a message after its connection is gone, no import is ever lost |
| Safety.StaleIsDetached | internal/processor/worker.go:90-114 | Only a worker that has lost its connection can make a stale write |
| Loss.SettledOutcome | internal/processor/worker.go:91-147 | In a run without a losing step, when the outbox is published and the main queue is empty with nothing unacknowledged, every import is SUCCEEDED or has a copy in the dead-letter queue |
| Loss.FailStopSettled | internal/processor/worker.go:54-62 | With fail-stop workers the same holds in every run, whatever its steps are |
| LostRun.AnImportCanBeLost | internal/database/store.go:305-345 | There is a reachable state, constructed step by step with one connection loss, in which a DEAD_LETTER import is lost |
| LostRun.AFinishedImportCanRegress | internal/database/store.go:326-345 | The last step of that run, reachable, turns the row of a SUCCEEDED import into DEAD_LETTER |
| LostRun.AMarkCanLose | internal/messaging/outbox.go:66-68 | The same run with a mark that comes late: nothing is lost before the mark, and the mark itself loses the import |
| LostRun.AStaleWriteCanBeHarmless | internal/messaging/outbox.go:66-68 | The same run with a mark that failed: the same stale write leaves an import neither SUCCEEDED nor carried, and yet none is lost, because its event is still to be published |
| StuckRun.AFailedImportCanStayProcessing | internal/processor/worker.go:97-112 | A reachable state in which no final update of a failed import can take effect because of its error text, and one after it with nothing left to do, the message dead-lettered, and the import PROCESSING, without any failure of a connection, a statement before that update, or a settlement |
| FlowKept.StepKeepsInv | internal/database/store.go:140-345 | Every step of every process keeps the whole invariant of tables, broker, publishers and workers |
| FlowKept.InvThroughout | internal/messaging/outbox.go:33-78 | The invariant holds in every state of every run |
| Tables.StepKeepsTables | migrations/001_init.sql:6-35 | Every step keeps the unique key, the one-to-one outbox, the open transactions apart, fresh identifiers, the answers, and the record range |
| Tables.InsertKept | internal/database/store.go:150-171 | Inserting a key waits for other open transactions with that key, so two uncommitted rows never share one |
| Tables.AppliedCommitKept | internal/database/store.go:185-207 | A commit adds row and event together and keeps keys unique, pairs complete and answers consistent, whoever else is open |
| FlowKept.PayloadsDecode | internal/messaging/outbox.go:55-59 | Every stored payload decodes, so the publisher's decoding error is never taken |
| FlowKept.ClaimKept | internal/database/store.go:257-289 | A claim keeps the publishers' invariant and never leases a published event |
| FlowKept.MarkKept | internal/database/store.go:291-297 | A mark, by whomever and however late, sets `published_at` only of a confirmed event and leaves it unleased |
| FlowKept.ReleaseKept | internal/database/store.go:299-303 | A release, which checks no owner, keeps the invariant and touches no `published_at` |
| FlowKept.AppliedStartKept | internal/database/store.go:305-324 | Starting a row opens one attempt of its own and keeps all row facts, whatever the status was |
| FlowKept.AppliedCallKept | internal/processor/integration.go:48-84 | A call is counted to the worker's own attempt and never makes it exceed three |
| FlowKept.AppliedCompleteKept | internal/database/store.go:326-345 | A final update sets status, error text and `processed_at` consistently, also on rows other deliveries work on |
| Flow.ChannelPlaces | internal/messaging/broker.go:85-101 | Delivery, acknowledgement, rejection and requeueing keep every copy in exactly one of ready, unacknowledged, acknowledged and dead-lettered |
| Ledger.PublishedIsConfirmed | internal/messaging/outbox.go:62-68 | A published event was queued and positively confirmed to its publisher, holds no lease, and no claim query can return it |
| Ledger.PublishedForever | internal/database/store.go:291-303 | `published_at` never returns to null, whatever late marks and releases other publishers issue |
| Ledger.PublishedNeverLeased | internal/database/store.go:261-274 | A published event is never claimed or leased again |
| Ledger.CopiesConserved | internal/messaging/broker.go:85-101 | In every reachable state the copies ever queued are exactly the ready, unacknowledged, acknowledged and dead-lettered ones, and every acknowledged copy had its own SUCCEEDED update applied |
| Ledger.SettlementStep | internal/processor/worker.go:90-147 | Acknowledged and dead-lettered copies stay so; a copy becomes acknowledged only by its own holder after its own SUCCEEDED update, and dead-lettered only by its own holder's rejection |
| Ledger.PrefetchBound | internal/messaging/broker.go:102-104 | In every run no worker ever has more than ten deliveries it has not settled |
| Ledger.RowFacts | internal/database/store.go:305-345 | In every reachable state, duplicates included: never FAILED; QUEUED iff attempts are 0; final implies `processed_at`; `last_error` is non-empty iff DEAD_LETTER, at most 300 bytes, without newlines, and valid UTF-8 without zero bytes; SUCCEEDED implies a successful call; calls are at most three per attempt; records are in range |
| Chronicle.NotedIsCounted | internal/processor/worker.go:66-147 | The history variables the other results speak of are what they are called: in every state of every run the number of takes, starts, calls and claims of each import or event is the number of such steps so far, and confirmed, called with success, finished or answered is exactly what had such a step |
| Chronicle.AttemptsAreStarts | internal/database/store.go:305-324 | In every run, `attempts` is the number of applied starts, which is at most the number of times a message of the import was taken up, and its calls are at most three times that |
| Chronicle.PublishedWasConfirmed | internal/messaging/outbox.go:62-68 | In every run, a published event had a positive confirmation step of a publisher that was at it |
| Chronicle.SucceededWasCalled | internal/processor/worker.go:96-114 | In every run, a SUCCEEDED import had a successful call step |
| Chronicle.AcknowledgedWasFinished | internal/processor/worker.go:114-118 | In every run, an acknowledged copy had its own applied SUCCEEDED update step |
| Ledger.Provenance | internal/database/store.go:186-199 | Every message the outbox produced agrees with an existing row on identifier, tenant, source and record count, so starting it cannot report not-found |
| Ledger.SameAnswer | internal/database/store.go:150-183 | All successful answers for one key carry the same identifier, and at most one of them is not a replay |
| Ledger.AnswersAgree | docs/architecture.md:27 | Two answers for one key agree however long apart they were given |
| Ledger.ReplayIff | internal/database/store.go:150-183 | In every run, a call that finds its key taken goes on to an answer if and only if the key named a row before the call's statement began, and then with that row, which the key still names; otherwise it fails without any effect |
| Ledger.AnsweredThenReplays | docs/architecture.md:27 | A call that begins after any call for its key was answered never inserts, and where it finds the key taken goes on with the identifier of that answer |
| MissedReplay.ARepeatedRequestCanFail | internal/database/store.go:150-183 | A run in which a repeated request, begun before the first one committed, ends without an answer although the row is there |
| Ledger.OneToOne | migrations/001_init.sql:19 | One import per key, one event per import with the import's data, one import per event, as many events as imports |
| Ledger.CommitIsAtomic | internal/database/store.go:185-207 | A step of a create transaction shows either nothing or, at an applied commit, one new row with its event, whatever is reported |
| Requests.CommittedForGood | internal/database/store.go:150-207 | In every run, an applied commit of an insert adds a QUEUED row, never started, without error and end, with an unpublished event; both carry tenant, key, source and record count of the request with which that very call began, the event's `created_at` is the time of that beginning, and no later step of anyone changes these |
| Requests.EveryRowHasItsRequest | internal/database/store.go:150-207 | Every row of every state was added by such a commit, and carries with its event the data of that call's request |
| Ledger.RegressIff | internal/database/store.go:310-336 | A step leaves the documented life of an import exactly if it is an applied start of a finished import, or an applied final update that finishes it otherwise |
| Ledger.DocumentedIff | docs/architecture.md:33-38 | In every run, the history of an import's status is a beginning of QUEUED, PROCESSING, and then SUCCEEDED or DEAD_LETTER if and only if no step of the run was such a start or update of that import |
| Ledger.LifecycleWithoutDuplicates | internal/database/store.go:310-336 | In a run in which at most one delivery of an import was taken up, the whole history of its status is a beginning of QUEUED, PROCESSING, and then SUCCEEDED or DEAD_LETTER; it was started at most once, and `processed_at` is set exactly when the status is final |
| Ledger.CountedThroughout | internal/processor/worker.go:90-95 | In every run an import is started at most as often as a message naming it is taken up |
| Leases.LeaseExclusive | internal/database/store.go:261-274 | If every claimed batch is settled or given up within one minute, no two publishers ever hold the same event |
| Leases.ClaimsDisjoint | internal/database/store.go:261-274 | Under the same condition a claim takes at most 25 different unpublished events that nobody holds |
| Leases.OverrunIff | internal/database/store.go:262-268 | An unpublished event somebody holds can be claimed by another publisher if and only if more than the minute has passed |
| Leases.CopiesWithinClaims | internal/messaging/outbox.go:49-78 | In every run the copies queued for an event, together with its claims not used up yet, never exceed its claims |
| Leases.SecondCopyHasCause | internal/messaging/outbox.go:49-78 | Without a claim of an event that was already queued or is still held by another publisher, it is queued at most once |
| Leases.TimelyCause | internal/messaging/outbox.go:62-68 | Within the leases, such a claim can only be of an event that was queued and whose mark is missing |
| Duplicates.QueuedOnce | internal/messaging/outbox.go:49-78 | Without a crash before the mark, an ambiguous publish, a lost or negative confirmation or a failed mark about an event, and within the leases, it is queued at most once |
| Duplicates.NeverAbandoned | internal/messaging/outbox.go:62-68 | Unless one of those four happens, a queued unpublished event always has a publisher on it |
| Drain.DrainsExactly | internal/messaging/outbox.go:49-78 | Once faults and creations stop and leases have expired, after any number of batches of a lone publisher exactly 25 events per batch are gone, or all, however the rest of the system interleaves |
| Drain.BatchPublishes | internal/database/store.go:261-274 | Each such batch publishes exactly min(25, remaining) events |
| Drain.EnoughBatches | internal/messaging/outbox.go:33-47 | The outbox is empty if and only if at least ceil(n / 25) batches were done |
| Drain.DrainTerminates | internal/messaging/outbox.go:54-77 | That takes at most ceil(n / 25) + 3 n steps of the publisher |
| Drain.NeverStuck | internal/messaging/outbox.go:49-78 | At any moment of such a run the publisher has a fault-free step to take |
| Drain.StrandedRecover | internal/messaging/outbox.go:62-65 | One minute without a claim makes every unpublished event claimable, also those stranded by batches given up |
| Drain.ClaimSize | internal/database/store.go:264-267 | With all leases expired and no row locked, a claim takes min(25, remaining) unpublished events |
| Drain.OldestGoFirst | internal/database/store.go:262-267 | In such a run, between two batches, no event published since its start has a later `created_at` than one still to be published: the batches go by age |
| Drain.NoneIsOvertaken | internal/database/store.go:262-267 | In any state, a claim takes every free event it finds unlocked that has fewer than 25 other free events of the same or an earlier `created_at`, however many younger ones there are |
| QueueDrain.QueueDrains | internal/processor/worker.go:35-134 | In every stretch of a run without connection losses, whatever publishers, clients, other publishers' faults and the database do: any number of workers together take at most nine steps for each copy that was ready or held or came in, whether their calls and statements succeed or fail, and they have no step left if and only if every copy is acknowledged or dead-lettered |
| QueueDrain.EveryImportEnds | internal/processor/worker.go:66-147 | If they have none left, everything is published and no losing step came before, every import is SUCCEEDED or has a copy in the dead-letter queue |
| QueueDrain.NeverStuck | internal/processor/worker.go:46-62 | While a copy is ready or held some worker has a step to take |
| QueueDrain.TodoBound | internal/processor/worker.go:66-134 | The measure of that bound: at most nine for each copy, and zero exactly when none is ready or held |
| EndToEnd.EveryImportEnds | docs/architecture.md:23-31 | Once faults of the publisher and creations have stopped, leases have expired and connections hold: when a lone publisher has taken ceil(n / 25) + 3 n steps for n unpublished events and the workers have none left, every import is SUCCEEDED or has a copy in the dead-letter queue, unless a losing step came before |
| EndToEnd.FailStopEnds | docs/architecture.md:23-31 | The same for every import of every run with fail-stop workers |
| EndToEnd.WorkersBound | internal/processor/worker.go:35-134 | In such a run the workers take at most nine steps for each copy that was ready or held and each event that was still to be published |
| EndToEnd.EachSentOnce | internal/messaging/outbox.go:49-78 | Between two batches of such a run exactly as many copies came in as events were published, never more than events were left |
| EndToEnd.NeverStuck | internal/messaging/outbox.go:33-47 | Until then the publisher or a worker has a step to take that is no fault |
| Platform.SelectCandidates | internal/database/store.go:262-268 | The claim query returns, of the unpublished rows that are not leased within the last minute and that nobody has locked, 25 or all, each once, and none of them younger than one it leaves |
| Platform.OthersLeaveMe | cmd/api/main.go:52 | No other process changes what a process knows about itself |
| Platform.System.Others | cmd/worker/main.go:55 | Any steps of any other processes continue the run and leave the caller's own steps and state alone |
| Outbox.OutboxPublisher.ClaimOutbox | internal/database/store.go:257-289 | Takes the oldest 25 free events of its moment, or all, and changes nothing of the outbox but their leases, from now and under the publisher's own name; on a reported error the publisher has no batch, whether or not the leases were taken; without failures there is no error |
| Outbox.OutboxPublisher.Publish | internal/messaging/broker.go:148-173 | Succeeds only with a positive confirmation of a queued message, and does so if nothing fails; otherwise nothing is known about the queue |
| Outbox.OutboxPublisher.MarkPublished | internal/database/store.go:291-297 | A reported mark leaves the event published and moves to the next one; an error ends the batch; a mark that takes effect publishes this event as of now, unleases it, and changes no other row |
| Outbox.OutboxPublisher.Release | internal/database/store.go:299-303 | Ends the batch whether or not the release took effect; if it did, this event alone is unleased and, unless it was published, can be claimed at once |
| Outbox.OutboxPublisher.PublishOne | internal/messaging/outbox.go:54-68 | One event is published by exactly send, confirmation, mark; a failed publish is followed by exactly one release, a failed mark by none |
| Outbox.OutboxPublisher.PublishBatch | internal/messaging/outbox.go:49-78 | Whatever others do in between, a batch claims at most 25 different events, takes exactly the steps of a batch up to its first failure, releases at most the failing event, leaves its first `published` events published, and rests; if nothing fails, every claimed event is published |
| Processing.OneSettlement | internal/processor/worker.go:66-147 | Every way through a delivery ends with its only acknowledgement or rejection; it acknowledges exactly when its own SUCCEEDED update was reported right before; a rejected import was started, called for, given up with its error, and got exactly one update |
| Processing.WorkerProcess.StartProcessing | internal/database/store.go:305-324 | A reported start is an applied one of an existing row, which is then PROCESSING with no error, and yields a valid request with the identifier, source and record count of exactly the row the message names; otherwise the delivery is doomed, whether or not the row was started; without failures an existing row is started |
| Processing.ConcernsOne | internal/processor/integration.go:90-94 | A request is about one import only: the identifier in it determines the row |
| Processing.ConcernsForever | internal/database/store.go:305-345 | It stays about that row, with its source and record count, whatever anyone does later |
| Processing.WorkerProcess.MakeCalls | internal/processor/integration.go:48-84 | The calls of the client are steps of this worker in their order |
| Processing.WorkerProcess.CompleteImport | internal/database/store.go:326-345 | Only a reported SUCCEEDED update leads to an acknowledgement; one that takes effect sets the status, the error text (none, or the first 300 bytes), and `processed_at` to the present |
| Processing.WorkerProcess.Settle | internal/processor/worker.go:115-118 | One attempt to acknowledge or reject, after which the worker holds nothing; without failures it arrives exactly if the channel is open |
| Processing.WorkerProcess.FailDelivery | internal/processor/worker.go:136-147 | A failed delivery is rejected once, with everything done about it recorded |
| Processing.WorkerProcess.Reject | internal/processor/worker.go:97-112 | After a failed integration: one DEAD_LETTER update, whatever becomes of it, and one rejection; a reported update has put DEAD_LETTER, this error text and the time into the row; without failures it is reported exactly if the text can be stored |
| Processing.WorkerProcess.Finish | internal/processor/worker.go:114-118 | After a successful integration: one SUCCEEDED update, and an acknowledgement if and only if it is reported, which has then put SUCCEEDED and the time into the row |
| Processing.WorkerProcess.ProcessDelivery | internal/processor/worker.go:66-134 | A delivery takes exactly the steps of its verdict; undecodable ones are exactly the malformed ones; imports not started make no call and are nothing to the breaker; the others ask for exactly the import the message names, with the row's source and record count, and make exactly the calls the client's specification gives. An open breaker rejects them without a call, an unreachable target after failed calls only, and in lab mode with nothing in the way force-error ones are rejected after three failed calls, flaky ones succeed within two, and all others with the first; the row gets SUCCEEDED, or DEAD_LETTER with that error if its text can be stored; without failures every existing row is started and every success is completed and acknowledged |
| Processing.WorkerProcess.Receive | internal/processor/worker.go:54-62 | Takes up one delivery of its own open channel, or none |
| Processing.WorkerProcess.Run | internal/processor/worker.go:35-64 | Deliveries are served strictly one at a time, each with exactly one settlement attempt, and no probe of the breaker is in flight between two of them |
| Creation.CommitAnswers | internal/database/store.go:202-207 | A reported commit answers with an identifier that the key names and the answers record, of a row with the request's tenant and key; a new row and its event have, field by field, the request's data, and the row is QUEUED with 0 attempts, no error and no end |
| Creation.Store.InsertOrFind | internal/database/store.go:150-183 | The statement inserts a new row, finds one, or fails, waiting for others that hold the key |
| Creation.Store.InsertEvent | internal/database/store.go:185-200 | The event of the same transaction, or its end without effect |
| Creation.Store.CreateImport | internal/database/store.go:140-208 | Takes exactly the steps of its result, one commit at most; a success names the key's import, recorded in the answers, with the request's tenant and key, and for a new one the request's data in row and event, and leaves no transaction open; without failures it has no answer only for an out-of-range record count, an open transaction that holds the key, or a row its snapshot does not see |
| Breaker.CircuitBreaker.constructor | internal/processor/breaker.go:34-45 | A new breaker is closed, with an empty history |
| Breaker.CircuitBreaker.Allow | internal/processor/breaker.go:47-63 | Admits exactly if the failures since the last success are below the threshold, or `openFor` has passed since the last failure and nothing was admitted since; state and counter are functions of the history, and the gauge is 0 while it is not tripped, 1 while a probe is under way, and 2 otherwise |
| Breaker.CircuitBreaker.Success | internal/processor/breaker.go:65-73 | Closes the breaker and forgets the failures |
| Breaker.CircuitBreaker.Failure | internal/processor/breaker.go:75-86 | Adds a failure; the breaker is open exactly from the threshold on, and from this moment |
| Breaker.RateBound | internal/processor/breaker.go:47-86 | From any quiescent history, failing sequential calls on a monotone clock are let through at most threshold + T / openFor times in a window of length T, and at most 1 + T / openFor times from a tripped breaker |
| Breaker.TrippedBound | internal/processor/breaker.go:51-58 | From a tripped breaker the bound counts from the last failure |
| Breaker.RateBoundTight | internal/processor/breaker.go:47-86 | The bound is met by some run of calls, for every history and window |
| Integration.AttemptsShape | internal/processor/integration.go:47-84 | At most three attempts, only the last can have succeeded, and the outcome is a success exactly if it did |
| Integration.IntegrationClient.constructor | internal/processor/integration.go:29-39 | The client's breaker trips at three failures and opens for 15 s |
| Integration.IntegrationClient.Process | internal/processor/integration.go:41-87 | For every behaviour of the surroundings the outcome is the specified one; an admitted call makes one to three calls, stops at the first success and reports exactly once to the breaker, cancellation included; a quiescent breaker stays quiescent; two calls take at least 200 ms and three at least 600 ms |
| Integration.IntegrationClient.Retry | internal/processor/integration.go:47-86 | The loop comes to the recursive specification's outcome |
| Integration.IntegrationClient.Send | internal/processor/integration.go:89-116 | One HTTP call counts as a success exactly for a status from 200 to 299 that arrives: never for a lost request or reply, for a foreign status exactly in that range, and for the simulator exactly for a valid request outside the failing lab cases; only requests that reach the simulator are counted there |
| Integration.StaysQuiescent | internal/processor/integration.go:41-87 | However an admitted or refused call ends, no probe stays behind |
| Integration.FlakySucceeds | internal/simulator/handler.go:79-84 | In lab mode an admitted flaky import succeeds with its first or its second call from any counter value and resets the breaker |
| Integration.ForcedFails | internal/simulator/handler.go:75-78 | An admitted force-error import makes exactly three calls and records one failure |
| Integration.Blackout | internal/processor/breaker.go:51-58 | While `openFor` has not passed since the last failure a tripped breaker refuses everyone, however many ask |
| Integration.ThreeForcedThenBlackout | internal/processor/integration.go:41-87 | After three admitted force-error imports in a row, from any moment, every import asked for within 15 s of the third failure is refused without a call, however many ask in between |
| Integration.ThreeFailuresThenBlackout | internal/processor/integration.go:41-87 | The same for any three imports in a row that are let through and fail, for whatever reason |
| Integration.DownFails | internal/processor/integration.go:107-115 | While no status from 200 to 299 arrives, because requests or replies are lost or something else answers with another status, an admitted import fails with three failed calls unless it is cancelled before, and is one failure to the breaker, as of its end |
| Integration.DownThenCancelled | internal/processor/integration.go:53-66 | If the context ends before the second call, there is no second call |
| Integration.HopelessThenBlackout | internal/processor/integration.go:41-87 | From any moment without a failure since the last success, three imports in a row that find the target down or force an error are let through and fail, and then the blackout follows |
| Integration.ConfiguredIff | internal/processor/integration.go:29-39 | The configured breaker, between calls, admits exactly if there were at most two failures since the last success or 15 s have passed since the last one |
| Integration.ProbeAlone | internal/processor/breaker.go:51-62 | Once a tripped breaker has let a probe through it refuses everyone until the probe reports, however many ask |
| Integration.CallsNoFurtherApart | internal/processor/integration.go:50-66 | Where nothing else takes time, the calls of an import are exactly 200 ms and then 400 ms apart |
| Integration.PlainSucceeds | internal/simulator/handler.go:87-92 | An admitted valid import outside the failing lab cases succeeds with its first call |
| Integration.RunAsVisits | internal/processor/integration.go:41-87 | A failing run of the client is a sequential run of breaker visits with at most three calls an admission |
| Integration.HttpRateBound | internal/processor/integration.go:36-87 | With the configured client and no success, any window of T milliseconds sees at most 9 + 3 (T / 15000) HTTP calls |
| Simulator.Handler.Process | internal/simulator/handler.go:48-93 | Invalid requests get 400 and are not counted; valid ones are counted modulo 2^64 and get, in lab mode, 500 for force-error, 503 for flaky with an odd count, no answer for slow if the client left, and 200 in all other cases |
| Simulator.FlakyAlternates | internal/simulator/handler.go:64-84 | Of two valid flaky requests in a row exactly one succeeds, also where the counter wraps around |
| Text.SafeMessageShape | internal/processor/worker.go:162-171 | A stored error text has the first 300 bytes at most, with every newline made a space and every other byte kept, is empty only for an empty message, and is stored unchanged a second time |
| Text.SafeMessageUtf8 | internal/processor/worker.go:167-169 | A valid UTF-8 message stays valid exactly if it has at most 300 bytes or byte 300 starts a character |
| Text.ValidUtf8Iff | internal/processor/worker.go:167-169 | What counts as valid UTF-8 are exactly the encodings of sequences of Unicode scalar values |
| Text.SafeMessageSplitsCharacter | internal/processor/worker.go:167-169 | A valid error text of the client's form, about a call that was answered with a long line instead of an HTTP response, whose stored form is not valid UTF-8 |
| Text.StorableIff | internal/processor/worker.go:162-171 | The kept text of a valid error can be stored exactly if byte 300, if there is one, starts a character and none of the bytes kept is zero |
| Processing.FailureStorableIff | internal/processor/integration.go:85-86 | The same for a failed last call, as a condition on the text of that call's error: byte 266 starts a character or is absent, and no byte before it is zero |
| Processing.ErrorSplitsCharacter | internal/processor/integration.go:85-86 | The text computed for a call that was answered with a long line instead of an HTTP response is one that PostgreSQL refuses, so no row ever stores it |
| Confirms.AlignedIff | internal/messaging/broker.go:148-173 | In every run of publishes each reads the confirmation of its own message if and only if none reads one after a cancelled wait |
| Confirms.LagIff | internal/messaging/broker.go:148-173 | As many confirmations were read as messages sent exactly if no wait was given up |
| Confirms.MisalignedAfterCancel | internal/messaging/broker.go:170-173 | A publish after a cancelled one would read the first message's confirmation |
| Confirms.FaithfulIff | internal/messaging/broker.go:162-173 | With a broker that confirms only what it has queued, every success means that its own message is queued, whatever is queued and confirmed, if and only if no publish succeeds after a cancelled wait |
| Handshake.HandshakeIff | internal/messaging/broker.go:148-173 | Every run of publishes on one channel consists of send and confirmation steps that the step machine allows, whatever an honest broker queues and confirms, if and only if no publish succeeds after a cancelled wait |
| Confirms.Broker.Await | internal/messaging/broker.go:162-173 | Reads the next confirmation in tag order, or ends with the channel or the context |
| Confirms.Broker.Publish | internal/messaging/broker.go:148-173 | If no wait was given up before, its success means that its own message was positively confirmed and is queued |
| Confirms.Publisher.ClaimOutbox | internal/messaging/outbox.go:50-53 | A claim on a context that has ended fails |
| Confirms.Publisher.PublishBatch | internal/messaging/outbox.go:49-78 | Sends nothing on a context that has ended, and leaves the confirmations in order |
| Confirms.Publisher.Run | internal/messaging/outbox.go:33-47 | In every run of the single publishing goroutine every confirmation read belongs to the message just sent, and every success means that its message is queued, although another batch may start after the context has ended |
| Topology.RoutesIff | internal/messaging/broker.go:78-101 | In every partly declared state a published message reaches the process queue and no other exactly once that queue is bound, and a rejected one the dead-letter queue and no other exactly once that is bound; otherwise it is dropped |
| Topology.Broker.Setup | internal/messaging/broker.go:78-110 | Setup succeeds only if everything is declared, whatever fails and whatever other processes declare meanwhile |
| Topology.RoutesForever | internal/messaging/broker.go:85-101 | In any interleaving of any processes' setups with any failures, from the first one that has succeeded on and for good, published messages enter the process queue and rejected ones the dead-letter queue, and no other |
| Migrations.CrashResume | internal/database/store.go:80-138 | Any number of runs, each stopped anywhere, followed by one that succeeds, give the database and registry of one uninterrupted run |
| Migrations.Resumes | internal/database/store.go:106-136 | A run from where another one stopped comes to the same result, success or failure, as one from the start |
| Migrations.RegistryIsPrefix | internal/database/store.go:110-130 | At any moment the registry is what it was at first and then a prefix, in name order and each once, of the names missing from it; from an empty registry a prefix of the sorted list |
| Migrations.ConcurrentMigrations | internal/database/store.go:87-90 | In any interleaving of any processes, with crashes and ambiguous commits, at most one is past the lock, the database is always where one uninterrupted run stands after some files, and whoever gets through leaves that run's result |
| Migrations.AppliesNext | internal/database/store.go:110-135 | Applying the first file that is not registered is what an uninterrupted run does next |
| Migrations.ListingOrderIsIrrelevant | internal/database/store.go:104 | The files and their order do not depend on the order the directory lists them in |
| Migrations.Sorts | internal/database/store.go:104 | Sorting by name gives the same entries in strictly increasing byte order |
| Migrations.Store.Sort | internal/database/store.go:104 | The loop sorts the entries |
| Migrations.Store.Migrate | internal/database/store.go:80-138 | Whatever fails, the database is where an uninterrupted run stands after some files; success means it is that run's result; without faults result and success are that run's; after a success exactly the names registered before and those of the directory's files ending in ".sql" are registered |
| Migrations.FilesIff | internal/database/store.go:106-109 | The migrations are exactly the listed entries that are no directories and whose names end in the four characters .sql |
| Migrations.RegisteredIff | internal/database/store.go:110-130 | After a successful run exactly the names registered before and those of the migrations are registered |
| Migrations.RunApplies | internal/database/store.go:117-134 | A run applies scripts of its files one to the result of the other, and registers exactly these, in their order |
| Migrations.FirstMigration | internal/database/store.go:106-135 | An empty registry and the repository's 001_init.sql: its script is applied and its name registered |
| Migrations.BeforeIff | internal/database/store.go:104 | Names are ordered by the first byte in which they differ, and a prefix comes first |

## Left out

- HTTP routing, JSON encoding, header parsing and request normalisation (`internal/httpapi`, `internal/processor/http.go`): thin handlers.
- Logging, tracing, metrics and trace-context propagation: no influence on the modelled state; the breaker's gauge is kept.
- `OpenWithRetry`, `ConnectWithRetry`, configuration and the `cmd` mains: only the facts that an API process has one publisher goroutine and a worker one consumer loop are used. One run of `ConnectWithRetry` that fails is a `Setup` that fails.
- `ListImports`, `GetImport` and the import-count gauges: they only read.
- PostgreSQL and RabbitMQ themselves are assumed: atomic statements and commits, one database clock, the unique constraint with its wait on open transactions, SKIP LOCKED (a claim passes over an arbitrary set of locked rows), durable queues, confirmations in tag order, requeueing exactly of what a lost connection held, and a database in UTF-8 that refuses any other text.
- A message reaches the queue at its publish or never: one that arrives only after its publisher gave up waiting and another publisher claimed the event is not modelled.
- A delivery that sits in a worker's memory when the connection is lost is not taken up afterwards; the one in progress goes on.
- The order in which the queue delivers is not modelled: any ready copy may come next.
- Identifiers come from one counter instead of random UUIDs, which are assumed not to collide.
- `created_at` of an event is the start of its transaction; `updated_at` and the trace fields of the payload are not modelled.
- Migration scripts are arbitrary deterministic partial functions on the data that do not touch `schema_migrations`; a failed unlock, whose error the code ignores, is not modelled.
- `failures` is an unbounded integer; Go's would wrap after 2^63 failures without a success.
- Timeouts of the HTTP client and the 800 ms of slow imports appear only as an arbitrary duration and an arbitrary loss of each call.
- Outbox.OutboxPublisher.PublishBatch: no branch for an event text that does not decode, because the invariant shows there is none (`FlowKept.PayloadsDecode`).
- QueueDrain.QueueDrains: a settlement that is attempted on an open connection but does not arrive leaves its copy held, so it is excluded like a lost connection.
- EndToEnd.EveryImportEnds: one publisher without faults; that several publishers side by side empty the outbox is not stated.
- Processing.WorkerProcess.Run: bounded by a number of rounds, and without the heartbeat and count tickers, which change nothing modelled.
- Confirms.Publisher.Run: bounded by a number of turns; nothing depends on the bound.
