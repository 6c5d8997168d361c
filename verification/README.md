# Protocols of the service template, modelled and proved in Dafny

The service is built from small concurrent protocols: a task table with leases, a transactional
outbox and its relay, a queue with dead letters, quota reservations in three stores, HTTP
idempotency records, a sliding-window rate limiter, and a failover walk over circuit breakers.
Each has a guarantee that only makes sense over whole runs. This project models the protocols
and proves those guarantees for every run.

`dafny verify dfyconfig.toml` checks everything. One file per protocol:

| file | what it models |
|---|---|
| `Prelude.dfy` | optional values, the clock type, sums over maps |
| `Tasks.dfy` | the task table and its steps; the in-memory task store |
| `RedisTasks.dfy` | the WATCH / GET / EXEC loop of the Redis task store |
| `Queue.dfy` | the in-memory queue and the worker's decision per message |
| `Outbox.dfy` | retry delays, outbox rows, the publisher's batch |
| `PublisherRuns.dfy` | several publishers on one outbox table |
| `Pipeline.dfy` | submit, relay, broker, worker, reclaim and purge together; the dispatcher's transactions |
| `PipelineTasks.dfy` | the pipeline seen from the task table: the guarantees of the task store for the whole pipeline |
| `QuotaMemory.dfy` | the in-memory quota store |
| `QuotaPostgres.dfy` | the Postgres quota store, as a refinement of the in-memory one |
| `QuotaMongo.dfy` | interleaved Mongo commands of reserve, finalize and refund |
| `QuotaMigration.dfy` | interleaved window migrations |
| `Idempotency.dfy` | idempotency records, their claims, completions and purges |
| `RateLimit.dfy` | the in-memory and the Redis limiter |
| `Breaker.dfy` | the circuit breaker |
| `Failover.dfy` | the target chain, the router and the failover walk |
| `SharedRouter.dfy` | any number of interleaved calls on one router |

Conventions:

- Time is a real number handed in with every step. A SQL statement, a Mongo command, a Redis
  command and the Lua script are one atomic step each.
- A class whose methods update its fields is a class; its methods are proved equal to functions
  on values, and the properties are proved of runs of those functions. Calls whose commands
  interleave with those of other calls (Mongo, Redis WATCH loops, the pipeline) are step
  relations over an explicit program counter per call.
- A run is a sequence of states `st` and of steps `ops` with `st[i + 1]` the result of `ops[i]`
  on `st[i]`. Fields that only observe (epochs, logs, what was charged) are named as such.
- What the database, the clock or a model decides (row order of a query, random numbers, new
  uuids, replies) is a parameter, so every statement is for all of them.

The code and its own documentation differ in one place, and the model follows the code. The
limiter's docstring says that callers cannot burst `2 * limit` requests by straddling two
windows. The two windows stay below `2 * limit` exactly until less than one of `limit` earlier
admissions is still counted; after that `2 * limit` admissions less than one window apart are
possible (`RateLimit.BelowTwiceTheLimit`, `RateLimit.TwiceTheLimitIsReached`).

Two properties hold under a condition only. Each has a run in which it fails and the exact
condition under which it holds:

- Mongo's counter and its live documents agree at rest if and only if every reservation that a
  refund claimed had been charged (`QuotaMongo.RestIsExactUnlessUnchargedWasRefunded`). A
  reservation is visible before it is charged, and a refund in that gap gives back what was
  never charged (`QuotaMongo.RefundOutrunsTheCharge`).
- Pending outbox events have an attempt left if and only if no publisher settles an error by
  attempts it read before others used up the rest (`PublisherRuns.AttemptsAreLeftExactly`).
  Timely publishers never do (`PublisherRuns.TimelyNeverOverruns`), late ones can, for every
  limit of at least two attempts (`PublisherRuns.LateSettleOutrunsTheLimit`).

The router and its breakers are shared by all calls. A failover walk is therefore modelled with
breakers that others may change in any way between its steps, and its ending is stated by the
admissions it saw (`Failover.WalkFollowsItsAdmissions`). The breakers at its start do not decide it
(`SharedRouter.OthersDecideToo`) unless it runs alone (`Failover.AloneIsDecidedAtItsStart`).
`SharedRouter.dfy` closes the gap between the two views: interleaved calls are a run of each
breaker they share, and each call that has ended is such a walk.

## Model

| member | source | states |
|---|---|---|
| `Tasks.ClaimsAreLeaseApart` | `app/modules/messaging/tasks/adapters/memory.py:43-99` | in every run with a clock that does not go back, two granted claims of one task are at least the first one's lease apart, whatever redeliveries, takeovers, reclaims and late completions come between |
| `Tasks.TakeoverAtExpiry` | `app/modules/messaging/tasks/adapters/memory.py:140-149` | right after a claim, another one is granted if and only if the lease has run out |
| `Tasks.LifecycleHolds` | `app/modules/messaging/tasks/adapters/postgres.py:37-85` | from submitted tasks: processing exactly while the lease is set, attempts equals the number of granted claims, queued means an attempt is left |
| `Tasks.TerminalIsFinal` | `app/modules/messaging/tasks/adapters/postgres.py:148-191` | a completed or failed task never becomes queued or processing again |
| `Tasks.SettlingSettles` | `app/modules/messaging/tasks/adapters/memory.py:117-137` | a completion leaves the row completed with its result, a failure leaves it failed with its error; each clears the lease and keeps what the other wrote |
| `Tasks.EndsAsLastWritten` | `app/modules/messaging/tasks/adapters/memory.py:65-99` | over every run a task is completed exactly if the latest of its completions, failures and exhausted reclaims was a completion, failed exactly if it was one of the others, with the latest result and the latest error |
| `Tasks.SubmittedOnce` | `app/modules/messaging/tasks/adapters/memory.py:24-31` | kind, request id and expiry of a task are those of the submit that created its row |
| `TaskMemory.ReclaimIsOneStep` | `app/modules/messaging/tasks/adapters/memory.py:75-99` | an in-memory reclaim is one legal reclaim step of the run model, settles at most the limit and leaves an expired lease only when it settled that many |
| `TaskMemory.ReclaimReturnsTheQueued` | `app/modules/messaging/tasks/adapters/memory.py:82-99` | the refs handed back are exactly those of the settled rows left queued: none missing, none twice, none foreign |
| `TaskMemory.InMemoryTaskStore.Create` | `app/modules/messaging/tasks/adapters/memory.py:24-31` | a known id is refused and nothing changes; otherwise the record is stored |
| `TaskMemory.InMemoryTaskStore.MarkProcessing` | `app/modules/messaging/tasks/adapters/memory.py:43-63` | the claim wins exactly when the run model grants it, and is then that step; a non-positive lease and a missing task change nothing |
| `TaskMemory.InMemoryTaskStore.MarkCompleted` | `app/modules/messaging/tasks/adapters/memory.py:65-68` | the unfenced completion step; reports a missing task |
| `TaskMemory.InMemoryTaskStore.MarkFailed` | `app/modules/messaging/tasks/adapters/memory.py:70-73` | the unfenced failure step; reports a missing task |
| `TaskMemory.InMemoryTaskStore.UpdateStatus` | `app/modules/messaging/tasks/adapters/memory.py:117-137` | sets the status, clears the lease, keeps an old result or error when none is given |
| `TaskMemory.InMemoryTaskStore.ReclaimStaleProcessing` | `app/modules/messaging/tasks/adapters/memory.py:75-99` | the counted loop equals the fold over the dictionary in insertion order; a non-positive limit is refused |
| `RedisTasks.EveryRunIsSerial` | `app/modules/messaging/tasks/adapters/redis.py:160-188` | every interleaving of the commands of concurrent transitions equals running the calls one after the other in commit order, ends in the same table, and the log has exactly one entry, with the outcome it returned, for each call that has returned |
| `RedisTasks.CommitReplacesWhatWasRead` | `app/modules/messaging/tasks/adapters/redis.py:160-188` | a transition that applies replaces exactly the record it read by what its mutator made of it |
| `RedisTasks.SecondCommitStartsOver` | `app/modules/messaging/tasks/adapters/redis.py:160-188` | of two calls that hold the same key, a commit of one sends the other back to the start |
| `RedisTasks.ClaimsAsTheTaskStore` | `app/modules/messaging/tasks/adapters/redis.py:59-71` | a claim is granted exactly for a queued task or an expired lease, and writes what the claim of the task store writes |
| `RedisTasks.ReclaimsAsTheTaskStore` | `app/modules/messaging/tasks/adapters/redis.py:91-102` | a reclaim settles exactly an expired lease, as the task store does |
| `RedisTasks.UndisturbedCallsCommit` | `app/modules/messaging/tasks/adapters/redis.py:160-188` | an attempt commits if and only if its key was not written since it was watched |
| `RedisTasks.LoneCallsAnswer` | `app/modules/messaging/tasks/adapters/redis.py:160-188` | left alone a call ends after one attempt: gone, declined, or applied with the mutated record stored |
| `RedisTasks.WinningClaimsAreLeaseApart` | `app/modules/messaging/tasks/adapters/redis.py:48-125` | two winning claims of one record are a lease apart under any interleaving of claims, reclaims, key expiry and the separately written completions and failures, so two claims of one queued record cannot both win at once |
| `Queue.EveryMessageHasOnePlace` | `app/modules/messaging/queue/adapters/memory.py:20-72` | every message sent is in exactly one of waiting, in flight, acknowledged and dead-lettered, and was received at most the allowed number of times |
| `Queue.HandledIsAcknowledged` | `app/modules/messaging/queue/worker.py:155-157` | a handled message is acknowledged for good and never waits, flies or is dead-lettered again |
| `Queue.FailedIsKept` | `app/modules/messaging/queue/worker.py:158-169` | a failed message waits again at the end, received once more, if the error is retryable and a delivery is left, and is a dead letter otherwise |
| `Queue.FirstInFirstOut` | `app/modules/messaging/queue/adapters/memory.py:20-55` | while nothing is put back, messages leave the queue in the order in which they were sent |
| `Queue.BodiesAreKept` | `app/modules/messaging/queue/adapters/memory.py:20-72` | every message waiting, in flight or dead has the body it was sent with |
| `Queue.BatchesAreFull` | `app/modules/messaging/queue/adapters/memory.py:27-55` | a receive never takes more than asked for, or one, and fewer only if there are no more |
| `Queue.ClosedForGood` | `app/modules/messaging/queue/adapters/memory.py:74-75` | once closed the queue takes nothing in and hands nothing out |
| `Queue.FailureCosts` | `app/modules/messaging/queue/worker.py:153-169` | a retryable failure uses up exactly one delivery, a non-retryable one all that are left |
| `Queue.PoisonEndsInDeadLetters` | `app/modules/messaging/queue/worker.py:153-169` | with a handler that always fails, retryably or not in any mix, there are at most as many dispatches as work on hand, the queue is drained by then, and when drained every message not acknowledged before is a dead letter, once; with retryable failures alone it takes exactly that many |
| `Queue.NotDrainedCanMove` | `app/modules/messaging/queue/adapters/memory.py:27-72` | while an open queue is not drained, a receive takes something or a delivery can end |
| `Queue.PoisonCanBeDrained` | `app/modules/messaging/queue/worker.py:153-169` | from every state of an open queue there is a finite run of failing dispatches that drains it |
| `Queue.InMemoryQueueGateway.SendMessage` | `app/modules/messaging/queue/adapters/memory.py:20-25` | appends a message with receive count one; refused when closed |
| `Queue.InMemoryQueueGateway.Receive` | `app/modules/messaging/queue/adapters/memory.py:27-55` | takes the first messages in order, at least one if there is any, and puts exactly those in flight |
| `Queue.InMemoryQueueGateway.Acknowledge` | `app/modules/messaging/queue/adapters/memory.py:57-58` | removes the message from flight |
| `Queue.InMemoryQueueGateway.Reject` | `app/modules/messaging/queue/adapters/memory.py:60-72` | requeues at the end with one more receive, or dead-letters; an unknown message changes nothing |
| `Queue.Dispatch` | `app/modules/messaging/queue/worker.py:153-169` | acknowledge, requeue or dead-letter, as the outcome and the receive count say |
| `Retry.Delay` | `app/core/resilience.py:120-127` | the delay is within zero and the cap, at least a hint below the cap, and without a hint at most the grown base delay |
| `Retry.Decide` | `app/core/resilience.py:101-118` | gives up exactly when the attempts are used up, the error is not retried or the status code is not in the list; otherwise waits within the cap and at least the capped hint, the caller's or the error's own |
| `Retry.DelayDoubles` | `app/core/resilience.py:120-123` | the uncapped ceiling starts at the base delay and doubles with each attempt |
| `Retry.DelayIsTheDrawsShare` | `app/core/resilience.py:120-124` | without a hint the delay is the draw's share of the capped ceiling |
| `Retry.DelayRangesOverTheCeiling` | `app/core/resilience.py:120-124` | a draw of zero gives no delay and a draw of one the whole ceiling |
| `Retry.DelayGrowsWithTheDraw` | `app/core/resilience.py:120-124` | a higher draw never gives a shorter delay |
| `Retry.HintRaises` | `app/core/resilience.py:125-127` | a hint only raises the delay, to itself or to the cap |
| `Outbox.PostgresOutboxStore.ClaimPending` | `app/modules/messaging/outbox/adapters.py:51-73` | selects a batch as the query does and locks exactly its rows until the end of the lock; a bad limit or lock time changes nothing |
| `Outbox.PostgresOutboxStore.SelectPending` | `app/modules/messaging/outbox/adapters.py:170-181` | at most the limit of due rows of the family that no other transaction holds, each once, earliest first; a free due row is left out only by a full batch of rows due no later |
| `Outbox.PostgresOutboxStore.MarkPublished` | `app/modules/messaging/outbox/adapters.py:75-82` | the row is published and unlocked; a missing row is reported |
| `Outbox.PostgresOutboxStore.MarkFailed` | `app/modules/messaging/outbox/adapters.py:84-106` | one more attempt, unlocked, pending with a retry time and failed without |
| `Outbox.SettleRecord` | `app/modules/messaging/outbox/publisher.py:99-120` | one record is settled as its send ended, by any retry policy, and counted as that; a row that is gone is reported and nothing changes |
| `Outbox.SettleAll` | `app/modules/messaging/outbox/publisher.py:95-127` | the loop over the claimed records: the table settled record by record, and the counts of each fate |
| `Outbox.BatchSettlesEach` | `app/modules/messaging/outbox/publisher.py:99-120` | after a batch without repetition every record is as its own send left it |
| `Outbox.BatchLeavesOthers` | `app/modules/messaging/outbox/publisher.py:99-120` | a batch changes no row that is not in it |
| `Outbox.TallyIsTotal` | `app/modules/messaging/outbox/publisher.py:122-127` | published, retried and failed add up to the batch |
| `Outbox.KindIsHowItEnded` | `app/modules/messaging/outbox/publisher.py:99-120` | the report counts a record as published, retried or failed exactly if its row is left published, pending or failed |
| `Outbox.PublishPending` | `app/modules/messaging/outbox/publisher.py:79-127` | the table is the claimed one settled record by record, and the report counts each fate, with total the sum |
| `PublisherRuns.NoEventHasTwoOwners` | `app/modules/messaging/outbox/adapters.py:51-106` | if every publisher settles before its own lock runs out, no event is held by two, the held record is the row, and pending events have attempts left |
| `PublisherRuns.AttemptsCountErrors` | `app/modules/messaging/outbox/adapters.py:84-106` | late or not, a row's attempts are the errors reported for it since it was written |
| `PublisherRuns.RowsSayTheLastWord` | `app/modules/messaging/outbox/adapters.py:75-106` | late or not, a row is published, and since when, exactly if its latest send went well, has the error of its latest send if that failed, and is as written before its first send |
| `PublisherRuns.SettlingUnlocks` | `app/modules/messaging/outbox/adapters.py:75-106` | a settled row is unlocked and off the batch, a missing row ends the batch, no other row changes |
| `PublisherRuns.PurgeDeletes` | `app/modules/messaging/outbox/adapters.py:108-123` | a purge deletes exactly the published rows it was given |
| `PublisherRuns.OverrunIsExact` | `app/modules/messaging/outbox/publisher.py:102-117` | from a state in which pending events have an attempt left, a step breaks that if and only if it settles an error by attempts read earlier that leave room while the row has none to spare |
| `PublisherRuns.AttemptsAreLeftExactly` | `app/modules/messaging/outbox/publisher.py:89-120` | in any run, timely or not, pending events have an attempt left throughout if and only if no step is of that kind |
| `PublisherRuns.TimelyNeverOverruns` | `app/modules/messaging/outbox/publisher.py:89-120` | a publisher that settles before its lock runs out never takes such a step |
| `PublisherRuns.FailsExactlyAtTheLimit` | `app/modules/messaging/outbox/publisher.py:99-120` | under any retry policy an event turns failed exactly on its last allowed error or on one the policy does not retry; otherwise it is pending, due exactly the policy's delay after the batch's time, which is within the cap |
| `PublisherRuns.FailedMeansExhausted` | `app/modules/messaging/outbox/publisher.py:14-20` | where every error is retried, as by the default policy, only events with all attempts used have failed |
| `PublisherRuns.LateSettleOutrunsTheLimit` | `app/modules/messaging/outbox/publisher.py:89-117` | for every policy that retries errors and allows at least two attempts, a run with one late settle at the end of which an event is pending with no attempt left |
| `Pipeline.NoQueuedTaskIsForgotten` | `app/modules/messaging/tasks/outbox.py:47-74` | in every reachable interleaving of submit, relay, broker, worker, reclaim and purge steps, with relays and workers stopping at any point, each queued task has a pending or failed event, or a message that the broker still holds and every delivery of which is before its claim attempt |
| `Pipeline.QueuedTaskCanBeClaimed` | `app/bootstrap/worker.py:116-137` | from any reachable state a queued task with a pending event or a message that is not dead-lettered can be brought to processing by some finite schedule |
| `Pipeline.ClaimedIsHeld` | `app/modules/messaging/outbox/adapters.py:65-73` | a relay holds the batch it selected, locked until the lock runs out, and no other row changes |
| `Pipeline.SentIsPublished` | `app/modules/messaging/outbox/publisher.py:99-120` | a send that went well puts a message in the queue and is followed by the mark that publishes the event and moves the batch on, or ends it if the row is gone |
| `Pipeline.RaisedIsMarked` | `app/modules/messaging/outbox/publisher.py:102-117` | a send that raised is followed by the mark with one more attempt, pending or failed, and the batch moves on |
| `Pipeline.HandledIsCompleted` | `app/bootstrap/worker.py:116-137` | claim, handle, acknowledge: the task ends completed with the handler's result and its message is gone |
| `Pipeline.BrokenIsFailed` | `app/bootstrap/worker.py:127-134` | claim, fail, reject for good: the task ends failed with the error and its message is a dead letter |
| `Pipeline.RefusedIsSkipped` | `app/bootstrap/worker.py:123-125` | a delivery whose task cannot be claimed is acknowledged without touching the task |
| `Pipeline.DeadLettersStay` | `app/modules/messaging/queue/worker.py:153-169` | no step of relay, worker or broker takes a message out of the dead letters |
| `Pipeline.RelayWantsEveryEvent` | `app/modules/messaging/tasks/outbox.py:25-40` | every event of the pipeline that is due is one that the relay for task events selects |
| `Pipeline.InvStep` | `app/modules/messaging/outbox/publisher.py:89-120` | each of the seventeen steps keeps the books and leaves every queued task announced |
| `Pipeline.AbandonKeeps` | `app/bootstrap/worker.py:105-137` | a worker that stops at any point of the handling leaves every queued task announced |
| `Pipeline.AckKeeps` | `app/modules/messaging/queue/worker.py:153-169` | acknowledging a handled delivery removes only a message whose task has left the queue since |
| `Pipeline.NackKeeps` | `app/modules/messaging/queue/worker.py:158-169` | rejecting a delivery keeps every queued task announced |
| `Pipeline.PurgeKeeps` | `app/modules/messaging/outbox/adapters.py:108-123` | deleting published events never deletes the announcement of a queued task |
| `PipelineTasks.EachIsATaskStep` | `app/bootstrap/worker.py:116-137` | every step of the pipeline does to the task table what one step of the task store does, or nothing |
| `PipelineTasks.PipelineIsATaskRun` | `app/modules/messaging/tasks/outbox.py:47-63` | a run of the pipeline, seen from the task table, is a run of the task store |
| `PipelineTasks.ClaimsAreLeaseApart` | `app/modules/messaging/tasks/adapters/postgres.py:37-72` | in every run of the whole pipeline with a clock that does not go back, two granted claims of one task are at least the first one's lease apart, unless it was submitted anew between them |
| `PipelineTasks.LifecycleHolds` | `app/modules/messaging/tasks/adapters/postgres.py:148-191` | in every reachable state of the pipeline with one attempt limit: processing exactly while the lease is set, attempts equals the claims granted to workers, queued means an attempt is left |
| `PipelineTasks.TerminalIsFinal` | `app/modules/messaging/tasks/adapters/postgres.py:74-85` | in the pipeline a completed or failed task stays so unless it is submitted anew |
| `PipelineTasks.TasksEndAsHandled` | `app/bootstrap/worker.py:127-136` | in the whole pipeline a task is completed exactly if the latest of its finished handlings and exhausted reclaims went well, failed exactly if it was one of the others, with the result of the latest that went well |
| `TaskOutbox.PostgresTaskOutboxDispatcher.SubmitTask` | `app/modules/messaging/tasks/outbox.py:47-52` | both rows are written together, as the pipeline's submit step does, or neither when the id is taken |
| `TaskOutbox.PostgresTaskOutboxDispatcher.ReclaimStaleIn` | `app/modules/messaging/tasks/adapters/postgres.py:148-191` | settles a batch selected as the sub-select does: its rows end queued or failed by their attempts and without a lease, the rest stay, and no free expired lease is left behind below the limit |
| `TaskOutbox.PostgresTaskOutboxDispatcher.SelectStale` | `app/modules/messaging/tasks/adapters/postgres.py:161-171` | at most the limit of expired leases that no other transaction holds, each once, oldest first; a free one is left out only by a full batch of older ones |
| `TaskOutbox.PostgresTaskOutboxDispatcher.ReclaimTasks` | `app/modules/messaging/tasks/outbox.py:54-63` | selection, bulk update and announcements are the pipeline's reclaim step for a batch within the limit, and the count is the number of rows requeued |
| `TaskOutbox.BulkIsRowByRow` | `app/modules/messaging/tasks/adapters/postgres.py:161-191` | one bulk statement does to the table what settling row after row does |
| `TaskOutbox.CountIsWhatIsAnnounced` | `app/modules/messaging/tasks/outbox.py:54-63` | the count a reclaim returns is the number of events it writes |
| `QuotaMemory.DictionariesAgree` | `app/modules/platform/quota/adapters/memory.py:34-162` | over every sequence of operations each counter's usage is the summed cost of its reserved and finalized reservations, every reservation has its counter, and index and reservations point at each other |
| `QuotaMemory.NeverOverTheLimit` | `app/modules/platform/quota/adapters/memory.py:34-68` | with one limit per counter, usage lies between zero and the limit at all times |
| `QuotaMemory.RefundNeverClamps` | `app/modules/platform/quota/adapters/memory.py:85-102` | the clamp at zero never fires: a refund subtracts exactly the cost |
| `QuotaMemory.RefundUndoesReserve` | `app/modules/platform/quota/adapters/memory.py:85-102` | a granted reservation refunded at once leaves the usage as it was |
| `QuotaMemory.RetryIsFree` | `app/modules/platform/quota/adapters/memory.py:34-68` | a retry with the same idempotency key gets the same reservation and changes nothing |
| `QuotaMemory.QueriesTell` | `app/modules/platform/quota/adapters/memory.py:104-122` | the usage a query reports is for the query's limit, and a new command is granted exactly if its cost is within the remaining amount |
| `QuotaMemory.GrantsTell` | `app/modules/platform/quota/adapters/memory.py:52-68` | so is the usage that comes with a grant, which counts the granted cost |
| `QuotaMemory.SettledOnce` | `app/modules/platform/quota/adapters/memory.py:70-102` | settling again reports the same usage and changes nothing, settling the other way raises |
| `QuotaMemory.LimitsAreTheLatest` | `app/modules/platform/quota/adapters/memory.py:34-122` | a counter has the limit and reset time of the latest grant or query that reached it, or of its creation |
| `QuotaMemory.ResetRemovesExactly` | `app/modules/platform/quota/adapters/memory.py:124-162` | a reset removes exactly the counters, reservations and index entries of the resource, or of one subject's share of it |
| `QuotaMemory.ResetStartsOver` | `app/modules/platform/quota/adapters/memory.py:124-143` | after a reset the subject starts from nothing in every window and every other subject sees what it saw before |
| `QuotaMemory.ClosedForGood` | `app/modules/platform/quota/adapters/memory.py:164-168` | closing forgets everything, and a closed store answers nothing else |
| `QuotaMemory.MemoryQuotaStore.Reserve` | `app/modules/platform/quota/adapters/memory.py:34-68` | state and answer are those of the reserve transition, which keeps the three dictionaries in agreement |
| `QuotaMemory.MemoryQuotaStore.Finalize` | `app/modules/platform/quota/adapters/memory.py:70-83` | state and answer are those of the finalize transition |
| `QuotaMemory.MemoryQuotaStore.Refund` | `app/modules/platform/quota/adapters/memory.py:85-102` | state and answer are those of the refund transition |
| `QuotaMemory.MemoryQuotaStore.GetUsage` | `app/modules/platform/quota/adapters/memory.py:104-122` | an existing counter takes the query's limit and reset time and keeps its usage |
| `QuotaMemory.MemoryQuotaStore.Reset` | `app/modules/platform/quota/adapters/memory.py:124-162` | exactly the counters, reservations and index entries of the subject and resource go |
| `QuotaPostgres.ReserveRefines` | `app/modules/platform/quota/adapters/postgres.py:26-74` | insert, conditional charge, delete on refusal grants, with the same usage, refuses and replays as the in-memory check-then-charge, whichever look-up found the earlier reservation |
| `QuotaPostgres.FinalizeRefines` | `app/modules/platform/quota/adapters/postgres.py:76-86` | the conditional update answers and ends as the in-memory finalize, with the same usage when it takes effect |
| `QuotaPostgres.RefundRefines` | `app/modules/platform/quota/adapters/postgres.py:88-130` | claim and conditional decrement answer and end as the in-memory refund, with the same usage when it takes effect |
| `QuotaPostgres.ResetRefines` | `app/modules/platform/quota/adapters/postgres.py:160-195` | the two deletes spare the same rows as the in-memory reset |
| `QuotaPostgres.ReserveWrites` | `app/modules/platform/quota/adapters/postgres.py:26-74` | a taken id changes nothing and raises, an early replay changes nothing, and otherwise the counter takes over limit and reset time, whatever the outcome |
| `QuotaPostgres.UsageIsFresh` | `app/modules/platform/quota/adapters/postgres.py:306-340` | every usage that is reported is that of the counter as the transaction leaves it |
| `QuotaPostgres.RefinesMemory` | `app/modules/platform/quota/adapters/postgres.py:26-195` | for every command sequence and every pattern of missed first look-ups, the same grants, refusals, replayed ids, statuses and usage as the in-memory store, command by command; only the usage shown by a replay may be older in one of them |
| `QuotaPostgres.PostgresQuotaStore.Reserve` | `app/modules/platform/quota/adapters/postgres.py:26-74` | the transaction, statement by statement, leaves the tables and gives the answer that the refinement speaks about |
| `QuotaPostgres.PostgresQuotaStore.FindIdempotent` | `app/modules/platform/quota/adapters/postgres.py:258-270` | finds a row of the window with the command's key if there is one, and nothing without a key |
| `QuotaPostgres.PostgresQuotaStore.ClaimReserved` | `app/modules/platform/quota/adapters/postgres.py:273-293` | moves a row out of reserved exactly if it was reserved |
| `QuotaPostgres.PostgresQuotaStore.Finalize` | `app/modules/platform/quota/adapters/postgres.py:76-86` | tables and answer of the finalize transaction, rolled back when it raises |
| `QuotaPostgres.PostgresQuotaStore.Refund` | `app/modules/platform/quota/adapters/postgres.py:88-130` | tables and answer of the refund transaction, rolled back when it raises |
| `QuotaPostgres.PostgresQuotaStore.Execute` | `app/modules/platform/quota/adapters/postgres.py:26-195` | one command keeps the agreement with the in-memory state and gives the same answer |
| `QuotaMongo.NeverOverTheLimit` | `app/modules/platform/quota/adapters/mongo.py:108-126` | in every interleaving of reserve, finalize and refund commands on one window the counter never exceeds the limit |
| `QuotaMongo.EachKeyIsChargedOnce` | `app/modules/platform/quota/adapters/mongo.py:90-126` | two charges in one run are for two reservations and never for the same idempotency key |
| `QuotaMongo.RetriesGetTheHolder` | `app/modules/platform/quota/adapters/mongo.py:71-106` | a look-up by idempotency key ends the call with the one reservation that holds the key; without one the call goes on, or raises after its insert was refused |
| `QuotaMongo.ReservesGoOn` | `app/modules/platform/quota/adapters/mongo.py:75-131` | the insert stores the reservation unless the key is held, the charge grants exactly if the cost fits, a refused reservation is deleted |
| `QuotaMongo.SettlesAnswer` | `app/modules/platform/quota/adapters/mongo.py:133-172` | a reserved document is taken by the first settle; otherwise a settle raises exactly if there is no document or it was settled the other way |
| `QuotaMongo.EachReservationIsGivenBackOnce` | `app/modules/platform/quota/adapters/mongo.py:146-172` | two decrements in one run are for two reservations |
| `QuotaMongo.NeverBothSettled` | `app/modules/platform/quota/adapters/mongo.py:224-237` | no reservation is both given back and finalized, in whichever order |
| `QuotaMongo.RestBalance` | `app/modules/platform/quota/adapters/mongo.py:71-172` | with all calls done the counter is the summed cost of reserved and finalized documents less what was given back for documents that no longer exist |
| `QuotaMongo.RestIsExactUnlessUnchargedWasRefunded` | `app/modules/platform/quota/adapters/mongo.py:71-172` | at rest the counter equals the live documents if and only if every reservation a refund claimed had been charged |
| `QuotaMongo.DisciplinedCallersBalance` | `app/modules/platform/quota/adapters/mongo.py:71-172` | if refunds only claim charged reservations, the counter is never negative and at rest equals the live documents |
| `QuotaMongo.RefundOutrunsTheCharge` | `app/modules/platform/quota/adapters/mongo.py:93-130` | a reachable state at rest with a negative counter and no document, for every limit |
| `QuotaMigration.TotalIsConstant` | `app/modules/platform/quota/adapters/mongo.py:292-312` | in every interleaving of migrations, whatever their targets, all counters plus the usage held between delete and increment add up to the initial total |
| `QuotaMigration.NoStaleCounterRemains` | `app/modules/platform/quota/adapters/mongo.py:251-312` | with one common target, once a migration is done no other counter that is unexpired for it is left |
| `QuotaMigration.ExpiredCountersStay` | `app/modules/platform/quota/adapters/mongo.py:262-268` | a counter that had expired for every migration is at every point of every interleaving exactly as it was, and so is every reservation of its window |
| `QuotaMigration.ScansLeadOn` | `app/modules/platform/quota/adapters/mongo.py:251-285` | a scan leads to the stale windows if there are any, and otherwise only to the target's own counter |
| `QuotaMigration.TargetTakesTheResetTime` | `app/modules/platform/quota/adapters/mongo.py:270-312` | whoever adds to the target's counter or touches it leaves it with its own reset time, and no other counter changes |
| `QuotaMigration.NotDoneCanGoOn` | `app/modules/platform/quota/adapters/mongo.py:287-321` | a migration that is not done can always go on, whatever the others did |
| `QuotaMigration.CommandsRunOut` | `app/modules/platform/quota/adapters/mongo.py:292-321` | after its scan a migration has a bounded number of commands left, and each is one less |
| `QuotaMigration.ReservationsFollowTheirCounter` | `app/modules/platform/quota/adapters/mongo.py:313-321` | at rest a reservation points at the target if its counter was moved and is unchanged otherwise |
| `QuotaMigration.IndexIsNeverBroken` | `app/modules/platform/quota/adapters/mongo.py:313-321` | without an idempotency key shared between windows no redirection breaks the unique index |
| `QuotaMigration.MigrationKeepsTheLedger` | `app/modules/platform/quota/adapters/mongo.py:251-321` | if every counter agreed with its live documents before, every counter agrees with them at rest |
| `Idempotency.OnlyTheLatestClaimCompletes` | `app/modules/platform/idempotency/service.py:121-154` | a token completes the record only if it is that of the latest claim |
| `Idempotency.EachTokenCompletesOnce` | `app/modules/platform/idempotency/service.py:137-154` | no token completes twice |
| `Idempotency.CompletedUntilExpiry` | `app/modules/platform/idempotency/service.py:86-118` | a completed record is unchanged by every operation before its expiry, purges included |
| `Idempotency.ReplaysAreAuthentic` | `app/modules/platform/idempotency/service.py:101-112` | a replay returns, before the expiry, what was stored with the token of the latest claim, and that claim had the very same request hash |
| `Idempotency.StoredResponsesAreReplayed` | `app/modules/platform/idempotency/service.py:108-112` | a check with the claim's request hash, after the claim was completed and before it expires, gets exactly the stored response |
| `Idempotency.OtherRequestsConflict` | `app/modules/platform/idempotency/service.py:101-106` | with another request hash a completed record that has not expired is a conflict |
| `Idempotency.UnderWayIsReported` | `app/modules/platform/idempotency/service.py:101-118` | while a claim is neither completed nor timed out nor expired its own request is in progress and any other conflicts |
| `Idempotency.AbandonedClaimsGiveWay` | `app/modules/platform/idempotency/service.py:86-99` | from the timeout on, or once expired, a claim that was not completed gives way to the next check |
| `Idempotency.FreeKeysAreClaimed` | `app/modules/platform/idempotency/service.py:64-84` | a key without a row is claimed, unless a row was in the way of the insert and is gone |
| `Idempotency.PurgeTakesTheExpired` | `app/modules/platform/idempotency/service.py:157-172` | a purge removes a record exactly if it expired before the cut-off |
| `Idempotency.ClaimsAreApart` | `app/modules/platform/idempotency/service.py:86-99` | after a claim no later one succeeds before the earlier of the in-progress timeout and the expiry |
| `Idempotency.Origin` | `app/modules/platform/idempotency/service.py:175-250` | every record is what its latest claim wrote, completed by a store with that claim's token if it is completed |
| `Idempotency.IdempotencyStore.CheckOrStore` | `app/modules/platform/idempotency/service.py:43-118` | the row takes the check step of the run model, the answer is claim, replay, conflict, in progress or vanished, and other keys are untouched |
| `Idempotency.IdempotencyStore.TryInsert` | `app/modules/platform/idempotency/service.py:175-206` | inserts a claim exactly when no row is there |
| `Idempotency.IdempotencyStore.ResetExpired` | `app/modules/platform/idempotency/service.py:236-250` | after the field-by-field reset the row is indistinguishable from a new claim |
| `Idempotency.IdempotencyStore.StoreResponse` | `app/modules/platform/idempotency/service.py:121-154` | completes exactly when the row is still this token's claim, and only that row |
| `Idempotency.IdempotencyStore.DeleteExpired` | `app/modules/platform/idempotency/service.py:157-172` | removes exactly the chosen expired rows and returns their number; a non-positive limit removes nothing |
| `RateLimit.LimitersAgree` | `app/modules/platform/rate_limit/service.py:51-132` | for every sequence of checks in time order the lazily evicting limiter, the expiring one and one that forgets nothing give the same verdicts and remaining counts |
| `RateLimit.EvictionChangesNothing` | `app/modules/platform/rate_limit/service.py:77-83` | eviction never changes a verdict, from any table that still has the recent windows |
| `RateLimit.ExpiryChangesNothing` | `app/modules/platform/rate_limit/service.py:102-132` | a key expiring two windows after its first increment is never missed |
| `RateLimit.EvictionTakesTheOld` | `app/modules/platform/rate_limit/service.py:77-83` | below the threshold nothing is evicted, from it on exactly the buckets older than the previous window |
| `RateLimit.FirstIncrementSetsTheEnd` | `app/modules/platform/rate_limit/service.py:126-129` | a key's end is set by its first increment and not moved by later ones |
| `RateLimit.RemainingIsExact` | `app/modules/platform/rate_limit/service.py:63-75` | right after a check that leaves `r`, exactly `r` further checks of the key at the same time are allowed |
| `RateLimit.BoundaryIsBounded` | `app/modules/platform/rate_limit/service.py:51-75` | admissions in a window plus those in the first `e` seconds of the next are at most the limit plus the rounded-up part of the earlier window that has slid out, and the earlier window's are at most the limit |
| `RateLimit.CarriedIsTheRest` | `app/modules/platform/rate_limit/service.py:53-61` | what the truncated weight carries over is the previous count less the rounded-up part that has slid out |
| `RateLimit.BelowTwiceTheLimit` | `app/modules/platform/rate_limit/service.py:20-24` | the two windows stay below twice the limit while `limit * e <= (limit - 1) * window` |
| `RateLimit.TwiceTheLimitIsReached` | `app/modules/platform/rate_limit/service.py:20-24` | for every larger `e` there is a run that admits twice the limit, in two bursts less than one window apart |
| `RateLimit.InMemoryRateLimiter.Check` | `app/modules/platform/rate_limit/service.py:51-75` | verdict and table are those of the evicting limiter the agreement speaks about, and a refused caller gets the rest of the window rounded down, at least one second |
| `RateLimit.InMemoryRateLimiter.EvictIfNeeded` | `app/modules/platform/rate_limit/service.py:77-83` | below the threshold nothing goes; at it exactly the buckets older than the previous window |
| `RateLimit.RedisRateLimiter.Check` | `app/modules/platform/rate_limit/service.py:102-172` | script and result are those of the expiring limiter the agreement speaks about, and a refused caller gets the rest of the window rounded up |
| `RateLimit.HintsReachTheNextWindow` | `app/modules/platform/rate_limit/service.py:63-68` | the Redis hint always reaches the next window and a second less never does; the in-memory one is at most a second less and reaches it exactly when the rest of the window is a whole number of seconds or at most one second |
| `Breaker.LeaseIsForProbes` | `app/core/resilience.py:197-242` | in every run only a half-open breaker has a leased probe slot |
| `Breaker.ClosedBelowTheThreshold` | `app/core/resilience.py:216-242` | closed exactly when the failure count, and the number of transient failures since the last success, is below the threshold |
| `Breaker.NobodyDuringCooldown` | `app/core/resilience.py:197-209` | after opening nobody is admitted for a full cooldown unless a success is reported |
| `Breaker.FailureStartsACooldown` | `app/core/resilience.py:221-242` | a transient failure that leaves the streak at the threshold, out of closed or half-open, keeps everyone away for a full cooldown unless a success is reported |
| `Breaker.FailedProbeReopens` | `app/core/resilience.py:227-229` | a failed probe does so every time |
| `Breaker.LateFailuresDoNotProlong` | `app/core/resilience.py:230-231` | failures that arrive while it is open do not move the end of the cooldown |
| `Breaker.FreedProbeIsGrantedAgain` | `app/core/resilience.py:211-226` | a probe that is given back or fails deterministically frees its slot at once |
| `Breaker.ClosedAdmitsEveryone` | `app/core/resilience.py:197-201` | below the threshold everyone is admitted |
| `Breaker.WhatMayPass` | `app/core/resilience.py:54-66` | 408, 429, any status from 500 on and network errors without a status are transient, every other error is not |
| `Breaker.ProbesAreACooldownApart` | `app/core/resilience.py:197-209` | two half-open probes with no report between them are at least one cooldown apart |
| `Breaker.NeverWedges` | `app/core/resilience.py:197-242` | from any reachable state, with nothing but attempts, one of them has been admitted by the time a cooldown has passed |
| `Breaker.CircuitBreaker.TryAcquire` | `app/core/resilience.py:197-209` | admits and moves to half-open with a leased probe as the value model says |
| `Breaker.CircuitBreaker.ReleaseProbe` | `app/core/resilience.py:211-214` | frees the probe slot and nothing else |
| `Breaker.CircuitBreaker.RecordSuccess` | `app/core/resilience.py:216-219` | closes, forgets failures and the probe |
| `Breaker.CircuitBreaker.RecordFailure` | `app/core/resilience.py:221-234` | deterministic errors only free the probe; transient ones count, open at the threshold, reopen from half-open |
| `Failover.DedupeKeepsFirsts` | `app/modules/ai/llm/router.py:95-100` | the chain has the same targets, each once, in the order of their first occurrence |
| `Failover.ChainIsWalkable` | `app/modules/ai/llm/router.py:87-100` | every chain is non-empty and duplicate-free and starts with the primary target |
| `Failover.DefaultWalksEveryFallback` | `app/modules/ai/llm/router.py:95-100` | the chat role walks its own model and exactly the configured fallbacks, each once, in the order of their first occurrence |
| `Failover.PrimaryTargets` | `app/modules/ai/llm/router.py:87-100` | the chat role starts with the chat model; the judge walks the judge model alone, or the chat model if it has none, which is refused outside local use |
| `Failover.FallbackAnswers` | `app/modules/ai/llm/runtime.py:73-92` | every fallback is a position of the walk, and if those before it were passed by and it is admitted and answers in time, the call ends with its answer |
| `Failover.EachAdmissionIsReportedOnce` | `app/modules/ai/llm/runtime.py:73-92` | whatever other calls do to the breakers meanwhile, targets are asked in chain order, each granted admission is followed by exactly one success, error or release report, and nothing else is reported |
| `Failover.ReportsAreTruthful` | `app/modules/ai/llm/runtime.py:79-92` | an answer is reported as a success, an error as that failure, a cut-off attempt is only released |
| `Failover.CutShortBlamesNobody` | `app/modules/ai/llm/runtime.py:83-85` | an attempt cut off by the deadline changes nothing about its breaker but the probe slot |
| `Failover.WalkFollowsItsAdmissions` | `app/modules/ai/llm/runtime.py:62-98` | with breakers that change in any way between its steps, the walk ends at the first position that is late, or admitted and answered, cut short or failed for good, otherwise with the latest transient error, or unavailable; it asks exactly the positions up to there |
| `Failover.UnavailableMeansNobodyAdmitted` | `app/modules/ai/llm/runtime.py:93-98` | a walk that is not late ends unavailable exactly when nothing was admitted, whatever other calls do |
| `Failover.NoProbeIsLeftBehind` | `app/modules/ai/llm/runtime.py:79-92` | the moment it reports, a walk leaves no probe leased, whatever others did to the breaker since its admission |
| `Failover.AloneIsDecidedAtItsStart` | `app/modules/ai/llm/runtime.py:73-78` | a walk that runs alone finds every breaker as it was at the start, so its admissions are decided there |
| `Failover.AloneTouchesItsOwn` | `app/modules/ai/llm/runtime.py:77-91` | alone, it leaves each breaker it reached as its own question and report make it, and no other changed |
| `Failover.ModelRouter.TryAcquire` | `app/modules/ai/llm/router.py:102-108` | a chain of one is never gated; otherwise the target's own breaker decides |
| `Failover.ModelRouter.Tell` | `app/modules/ai/llm/router.py:123-137` | a report changes the breaker of that role and target and no other |
| `Failover.ModelRouter.Attempt` | `app/modules/ai/llm/runtime.py:74-92` | one pass of the loop, with other calls at work on the breakers before the admission and before the report: ending, remembered error, reports and breakers |
| `Failover.ModelRouter.Ainvoke` | `app/modules/ai/llm/runtime.py:62-98` | the loop gives the ending, the breakers and the reports of the recursive walk, whatever other calls do to the breakers meanwhile |
| `SharedRouter.CallsAreASharedRun` | `app/modules/ai/llm/runtime.py:73-92` | in every interleaving of any number of calls, their questions and reports are, in order, what the shared breakers go through |
| `SharedRouter.EachCallIsAWalk` | `app/modules/ai/llm/runtime.py:62-98` | however calls interleave, each that has ended went through a walk with the breakers it met: same ending, same questions and reports, paired |
| `SharedRouter.CallsKeepTheirTerms` | `app/modules/ai/llm/runtime.py:69-73` | chain, role and deadline of a call are those it began with |
| `SharedRouter.TurnsAreRecorded` | `app/modules/ai/llm/runtime.py:74-92` | the clock, the breakers and the replies that a call remembers are those it met |
| `SharedRouter.EachBreakerRuns` | `app/modules/ai/llm/router.py:102-151` | whatever calls there are, what concerns one role and target is a run of one breaker |
| `SharedRouter.TargetIsClosedBelowTheThreshold` | `app/modules/ai/llm/router.py:127-137` | a target is closed exactly while fewer transient failures than the threshold were reported, by all calls together, since its last success |
| `SharedRouter.NobodyDuringCooldown` | `app/modules/ai/llm/router.py:102-108` | after any call has opened a target, no call is admitted there for a cooldown without a success |
| `SharedRouter.FailedProbeReopens` | `app/modules/ai/llm/router.py:130-137` | a failed probe of a target, whoever reports it, keeps every call away for a cooldown without a success |
| `SharedRouter.ProbesAreACooldownApart` | `app/modules/ai/llm/router.py:102-108` | two probes of a target, by whatever calls, with no report to it between them are a cooldown apart |
| `SharedRouter.NoTargetWedges` | `app/modules/ai/llm/router.py:102-108` | a cooldown after any touch of a target, with attempts only since, some call has been admitted |
| `SharedRouter.NoProbeIsLeftBehindByAnyone` | `app/modules/ai/llm/router.py:123-137` | the moment a call reports, its target has no leased probe, whatever the other calls did since it asked |
| `SharedRouter.OthersDecideToo` | `app/modules/ai/llm/runtime.py:77-81` | an interleaving of two calls in which a walk is refused at a target that its start state would have admitted it to |

## Left out

- Queue dispatch without the outbox: the code documents it as not atomic, so no announcement guarantee exists to prove.
- The result and error of a terminal task: completion and failure are not fenced, so they may be overwritten; only the set of terminal states is closed.
- Redis task updates outside the transition loop: a separate read and write; they appear only as foreign overwrites.
- An upper bound on attempts over all claims: an expired lease may be taken over by a redelivery without the reclaim's check.
- The stores' methods that delete expired tasks and the loop that repeats them: the run models have the purge step for any batch of expired rows, not its limit.
- The creation time as second sort key of the pending outbox query: rows due at the same time come in any order.
- Parsing of retry hints and status codes out of error objects, and `retry_on` other than as a yes or no.
- Loss of the in-memory queue with its process: the broker of the pipeline keeps its messages.
- Quota limits and reset times in the Mongo run model, the reset and TTL deletes there, and refunds that race a migration: the balance statements are for one window with a fixed limit.
- Mongo's cursor as a sequence of reads: a scan is one step.
- The limit on a counter and the reset time on a reservation during migration: they are overwritten by the last writer.
- Any promise that a caller who waits as long as told is admitted: the hint reaches the next window, where the carried share may still refuse.
- Rounding of floating-point time: time is real.
- Direct model access through `select_target` and `chat_model`: it asks a breaker and leaves the report to the caller.
- Splitting the comma-separated fallback setting, model construction and caching, tracing, logging.
- Cancellation of a failover walk by its caller: a cancelled attempt is not reported, which is what the breaker's re-granted probe is for.
- Aliasing of record objects handed out by the in-memory stores: records are values here.
- SQS, RabbitMQ, Redis Streams, SQLAlchemy and Motor internals, HTTP routing, hashing, signing and JSON.
