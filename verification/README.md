# The notification delivery pipeline, modelled and proved

The system accepts notifications over an API, keeps them in a PostgreSQL table and delivers them through Redis
sorted sets and worker processes. Its SQL status updates carry no guard on the old status, and the scheduler puts
copies of a message back on purpose, so everything it promises rests on one guarded claim statement and on who moves
what between three kinds of sorted sets. This project models that protocol and the algorithms it runs through, and
proves what holds over every run.

**The pipeline** (`Pipeline`) is a transition system with one step for every statement that others can interleave
with: creates, cancels (read and write apart), scheduling, promotion and reclaim of one message, pop, mark, claim,
each send, the failure write, the dead letter, the delayed retry, each ack, the batch of sent writes, the final ack,
crash of any task at any point, and the clock. Any number of workers, duplicates and crashes is allowed. `Theorems`
states what every run keeps; `WellFormed`, `Ownership`, `Delivery`, `NoLoss`, `StatusFlow` and `Recovery` are the
invariants behind it, one small lemma per step. `Races` shows what the code does not promise: a crash after the claim
orphans a notification, a double ack and a crash lose one, a late cancel overwrites a terminal status. The exact lines
are theorems: `Loss` says when a crash loses a message for good, `Theorems.HistoryExactly` when a status history
follows the published graph. `QueueRuns` carries the order of the queues over to every run, `Shutdown` runs one worker
program, dispatcher and pool, together with the transition system, and `Retries` a notification through the breaker.

**The code that changes things** is imperative: `Postgres` and `RedisQueue` are the repository, producer and consumer
as classes over a table and sorted sets; `Worker`, `Scheduler`, `Dispatcher`, `RateLimiter`, `CircuitBreaker`, `Api`
and `Pagination` hold the processor, the scheduler's poll, the dispatch loop, the two Lua scripts, the breaker, the
handler and the list query as methods proved against functions. Those functions are tied back: `BatchRun`,
`SchedulerRun` and `Api` prove that ProcessBatch, a poll and a batch create are paths of the transition system, so
what holds over every run holds of them, and `PollClock` what a poll leaves behind whose every call reads the clock
anew; `BatchRefinement` proves that the batched worker does what handling one message at a time does. `LimiterRuns`,
`DispatchRuns` and `Keyset` say what many calls amount to: the limiter's window under clocks that lag and drift, the
dispatchers that share it, and a client that follows next_cursor.

**The arithmetic** is `PriorityOrder` (scores, first as integers and then in binary64, with `Float64` for rounding to
nearest even, section 4.3.1 of IEEE 754-2019), `Backoff`, and the counting in `Arithmetic`. `Domain` and `Databases`
hold the entities and the effect of each statement; `Pool` is the worker pool and its shutdown; `Runs` is executions
in general; `Processing` is what one worker does, table by table, and `BatchEffects` what that amounts to, row by row.

Grain. Four pairs of calls are one step each in the transition system: insert, ZADD and status write of a create; ZADD
and status write of a scheduled row; ZADD and ZREM of a promotion; ZADD and ZREM of a reclaim. The code makes two or
three calls, and a worker may come between them. `Grain`, `GrainMessages` and `GrainHistory` take the pairs apart
(undisturbed, the halves are the step: `CreateHalves`, `ScheduleHalves`, `MoveHalves`) and say, exactly, which runs
still keep unique owners, keep every queued message carried, and follow the status graph; not all do: a late write of
queued can follow a create and lead to a second owner, and a message can be given up without a crash. The theorems
about runs of `Pipeline` are about undisturbed pairs. A cancel's read and write are two steps, except where a theorem
says it is one. Ids are UUIDs ordered as their text is; members of a sorted set with equal scores leave in the order
of their text, which starts with the id.

`dafny verify dfyconfig.toml` checks everything.

## Model

| member | source | states |
|---|---|---|
| Theorems.Invariants | internal/repository/postgres/queries.go:66-83 | every state of every run is well formed, has at most one owner per notification and keeps the send counts |
| Theorems.AtMostOneOwner | internal/repository/postgres/queries.go:66-83 | over any run with duplicates, reclaims, crashes and racing cancels, at most one task is between its claim of a notification and its own status write; meanwhile the status is processing or cancelled, never claimable |
| Theorems.BoundedSends | internal/worker/processor.go:122-131 | over any run a notification is sent at most max_attempts times and delivered at most once; while claimable its attempts equal its sends and are below max_attempts; sent means delivered once |
| Theorems.DeadLetterOnce | internal/worker/processor.go:160-191 | at most one dead letter per notification, written at attempts = max_attempts, and from then on no state lets it be claimed |
| Theorems.RunGrows | internal/retry/deadletter.go:20-30 | dead letters are only appended, rows never vanish and max_attempts never changes |
| Theorems.NoMessageLost | internal/worker/processor.go:149-152 | without crashes every queued notification is in its queue, in the delayed set, or held by a task that has not resolved it, despite duplicates and the double ack of failures |
| Theorems.RedisWellFormed | internal/queue/redis/scheduler.go:78-83 | members of queue:ch and processing:ch are of channel ch, every message is the one its row dictates and has no ScheduledAt, so no set holds two members for one id |
| Theorems.AckRemovesTheBatch | internal/worker/processor.go:216-224 | the final ack names only the first message's channel, yet removes exactly the batch's own members from the processing sets and no others |
| Theorems.HistoryExactly | README.md:260-270 | the statuses of a notification, from its birth along any run, are a path of the published graph with sent, failed and cancelled absorbing if and only if every write of a cancel of it finds a status that is still cancellable, or cancelled already |
| Theorems.PathIs | README.md:260-270 | the paths of that graph, edge by edge |
| Theorems.StatusHistory | README.md:260-270 | with cancel as one step every status history is such a path |
| Theorems.RecoveryBeforeClaim | internal/worker/pool.go:21-39 | if a task dies before its claim while processing:ch has its message, the row is queued and no other set or task knows the message, then short of a cancel the entry and the row stay as they are until the deadline whatever others do, and from any such state a run exists that ends in a claim of it |
| Theorems.ClaimableExactly | internal/queue/redis/consumer.go:49-79 | after any run, crashes included, some continuation claims a pending or queued notification if and only if a set or a task knows its message; if none does, no continuation claims, sends or delivers it and only a cancel changes its row |
| Theorems.QueuedCanBeClaimed | internal/queue/redis/scheduler.go:103-166 | after any run without crashes every queued notification can still be claimed |
| Theorems.ScoresRounded | internal/queue/redis/consumer.go:60-61 | deadlines and retry times in the sets are binary64 numbers over every run |
| WellFormed.WfStep | internal/queue/redis/producer.go:25-38 | every step of every actor keeps messages in agreement with their rows and channels |
| Ownership.OwnStep | internal/repository/postgres/queries.go:77-83 | every step keeps unique ownership, although the status updates are unguarded |
| Grain.OwnExactly | internal/api/handler/notification.go:362-380 | with the pairs of calls taken apart, a run keeps one owner per notification with a status no claim accepts if and only if no write of queued, by a create or by the scheduler, finds the row owned |
| Grain.OwnByStatus | internal/repository/postgres/queries.go:21-22 | without crashes and split cancels it does so if and only if no write of queued finds the row processing, a guard the UPDATE could test |
| Grain.LateWrite | internal/api/handler/notification.go:362-380 | after any run, between the ZADD of a create whose row can be claimed and its status write some continuation puts a claim, and the late write then leads to a second owner beside the first |
| Grain.CountsExactly | internal/worker/processor.go:160-197 | such a run keeps one owner per notification and exact counts of sends, deliveries and dead letters if and only if every write of queued finds its row unowned, with attempts left and all its sends counted as failed |
| Grain.FineBounds | internal/queue/redis/scheduler.go:77-93 | in particular while every write of queued finds its row pending, scheduled or queued still there is one owner at most, at most max_attempts sends and one delivery |
| GrainMessages.NothingLostExactly | internal/queue/redis/scheduler.go:138-166 | a run of the calls taken apart keeps every queued message in its queue, among the delayed or in somebody's hands if and only if no crash takes the only holder, no write of queued finds the message with nobody, and no ZREM of a promotion deletes the only entry |
| GrainMessages.GoodTimeLosesNothing | internal/queue/redis/scheduler.go:160-165 | none does if nobody dies, each write of queued finds the message in its queue or in somebody's hands, each ZREM finds the score its ZADD saw, and delays are longer than the rounding of the clock |
| GrainMessages.LateWriteUncarried | internal/queue/redis/scheduler.go:77-93 | a due notification enqueued and dequeued while its row is still scheduled is given up by the worker, and then becomes queued with its message in no queue: no crash is needed |
| GrainHistory.FineHistoryExactly | README.md:260-270 | in a run of the calls taken apart that keeps unique owners a notification's statuses follow the published graph if and only if its cancels are in time, its claims find it queued, and no write of queued comes after its end |
| Delivery.DelStep | internal/worker/processor.go:160-197 | every step keeps attempts equal to sends outside a claim, one delivery, and one dead letter at the last attempt |
| NoLoss.LossStep | internal/queue/redis/scheduler.go:138-166 | every step but a crash keeps each queued notification's message in a set or with a task |
| StatusFlow.FlowStep | internal/repository/postgres/queries.go:21-28 | every step but a cancel's write that comes too late moves the status of a notification along an edge of the graph or leaves it |
| Recovery.StrandedUntilDeadline | internal/queue/redis/consumer.go:60-76 | until the deadline no step but a cancel changes the row or the entry of such a message |
| Recovery.QueuedIsDequeued | internal/queue/redis/consumer.go:49-58 | pops of the head reach any queued message: its rank is the measure |
| Recovery.CanBeClaimed | internal/queue/redis/scheduler.go:103-136 | a queued notification whose message is in some set can be moved, popped and claimed by some run |
| Races.OrphanForever | internal/worker/processor.go:102-109 | a task that dies after its claim takes the notification with it: over every continuation it is never claimed, sent or delivered again |
| Races.CrashOrphans | internal/repository/postgres/queries.go:77-83 | the crash of an owner leaves the row held and unowned |
| Races.DoubleAckLosesMessage | internal/worker/processor.go:149-152 | a run in which the final ack of a failed message removes a later worker's entry, whose crash then loses the message for good: the row is queued and no continuation claims it |
| Races.SplitCancelOverwritesSent | internal/api/handler/notification.go:186-216 | a run in which a cancel that read queued writes over sent |
| Loss.GoneForever | internal/queue/redis/consumer.go:49-79 | once no set and no task knows the message of a row that is not scheduled, no step of anybody brings it back |
| Loss.LostExactly | internal/queue/redis/scheduler.go:103-166 | in every sound state a notification waiting to be sent can still be claimed if and only if its message is in its queue, in processing or delayed, or with a task that has not resolved it |
| Loss.CrashLosesExactly | internal/worker/pool.go:21-39 | the crash of a task loses exactly the messages that no set and no other task knows |
| Loss.PopCrashLoses | internal/queue/redis/consumer.go:52-71 | a crash between ZPOPMIN and the ZADDs loses exactly the messages of the batch that only the queue knew |
| Databases.MarkSentAt | internal/repository/postgres/notification.go:291-306 | the batch of sent writes marks exactly the rows with a receipt, each with the provider's id of the last receipt for it, and changes nothing else |
| Postgres.Repository.UpdateBatchSent | internal/repository/postgres/notification.go:291-306 | marks each row that has a write as sent with the provider's id of its last write, and changes no other row |
| Postgres.Repository.GetAndMarkProcessing | internal/repository/postgres/queries.go:66-72 | claims exactly a pending or queued row and returns its id, channel, attempts and max_attempts, or returns nothing and changes nothing |
| Postgres.Repository.GetAndMarkProcessingBatch | internal/repository/postgres/queries.go:77-83 | claims exactly the pending and queued rows among the ids and returns each once, in some order, with its own channel, attempts and max_attempts |
| Postgres.Repository.GetPendingScheduled | internal/repository/postgres/queries.go:30-35 | returns due scheduled rows, earliest first, at most the limit, and a later row only if all earlier ones are in |
| RedisQueue.Redis.PopMins | internal/queue/redis/consumer.go:52-58 | pops the given number of lowest members, or all, in order, and leaves the rest |
| RedisQueue.Redis.DequeueBatch | internal/queue/redis/consumer.go:49-79 | moves the head of the queue, in order, to the processing set under one deadline |
| RedisQueue.Redis.Enqueue | internal/queue/redis/producer.go:25-38 | puts a message into the queue of its channel at 0, 1e12 or 2e12 by its priority plus the clock, or its own time if it has one, each step rounded to binary64, and leaves all other entries |
| Databases.PopsInOrder | internal/queue/redis/consumer.go:52-58 | what a pop returns before another message, popped later or left, has a lower score, or the same and an id no higher |
| Databases.MarkedAt | internal/queue/redis/consumer.go:60-76 | the dequeued messages are in the processing set of their channel under the deadline, also those that were there before, and all other entries stay |
| BatchRun.DequeueIsAPath | internal/queue/redis/consumer.go:49-79 | a dequeue is a pop step and a mark step: they leave the sets its contract names and a waiting batch |
| Pool.StartedInOrder | internal/worker/pool.go:21-43 | over every interleaving of submits, workers, cancel and close, tasks start in the order of their submits, each once; at most twice the pool's size wait and at most its size run at once |
| Pool.FillsUp | internal/worker/pool.go:14-19 | some run reaches both bounds, and then a submit blocks |
| Pool.StopFinishesAll | internal/worker/pool.go:61-64 | when Stop returns every started task function has returned, and unless the context was cancelled every submitted one has: only under a cancelled context are tasks left waiting |
| Pool.StopDrops | internal/worker/pool.go:27-35 | and under a cancelled context Stop can return with any number of tasks waiting that the channel holds |
| Shutdown.StopDropsUnclaimed | internal/worker/pool.go:61-64 | dispatcher, pool and pipeline run together: when Stop has returned, the batches still there to be dropped are those in the channel, none unless the context was cancelled, and the one the dispatcher could not hand over; none of them has claimed. internal/app/worker.go:61-68 stops only after the cancel, so the uncancelled case does not occur there |
| Shutdown.WaitingNeverClaims | internal/worker/dispatcher.go:118-121 | a batch in the channel at the cancel never claims, whether a worker still takes it or not, since its calls run under the cancelled context |
| Shutdown.AbortOrphans | internal/app/worker.go:61-68 | a running batch is aborted by the cancel after at most the call under way; what it has claimed and not yet written is orphaned: whatever the program does until its end and everybody else after it, nobody claims or sends it again |
| Shutdown.ExitIsCrashes | internal/worker/pool.go:61-64 | whenever the program ends, dropping its batches is a path of crashes that leaves both databases alone |
| Shutdown.ExitLosesExactly | internal/worker/pool.go:21-39 | after the program's end a notification waiting to be sent, its batch waiting, in the dispatcher's hands or aborted before its claim, can still be claimed if and only if a set or a batch of another process knows its message |
| Worker.Processor.Process | internal/worker/processor.go:56-88 | a pending or queued row is sent once and ends sent with the provider's id, or queued or, at its last attempt, failed with the error and one attempt more; the counter of the row's channel grows by one; a refusal leaves a dead letter at the last attempt and delays the message before it; the message is acked in any case |
| Worker.Processor.ProcessBatch | internal/worker/processor.go:90-158 | so does a batch with every pending or queued row of its messages, all other rows staying as they are, and the counters of a channel grow by the claimed rows of that channel that were delivered, or refused; it does what Batch says for some order of the claimed rows |
| BatchEffects.LettersAre | internal/worker/processor.go:175-191 | a batch appends one dead letter, with the error and the attempts, for each claimed row refused at its last attempt, and no other |
| BatchEffects.DelayedAre | internal/worker/processor.go:193-203 | with distinct ids a batch delays the message of each claimed row refused before its last attempt by the delay of that attempt, and changes no other entry |
| BatchEffects.AcksAre | internal/worker/processor.go:216-224 | a batch of one channel in which a row was claimed takes its own messages out of that processing set, and no other |
| Worker.Processor.HandleFailure | internal/worker/processor.go:160-214 | at the last attempt failed, a dead letter and an ack; before it queued, delayed and an ack; attempts one more, failed counter one more |
| Worker.Processor.SendAll | internal/worker/processor.go:118-140 | the send loop gathers the receipts of the delivered in order and handles each failure with its own message |
| BatchRefinement.BatchRefinesSingle | internal/worker/processor.go:90-158 | for distinct ids ProcessBatch leaves the same rows, dead letters up to their order, sets and counters as Process on each message in turn, for every claim order, exactly when something is claimable or no message of the batch is in processing |
| BatchRun.BatchIsAPath | internal/worker/processor.go:90-158 | an undisturbed ProcessBatch is a path of the transition system that ends in the store Batch computes |
| Scheduler.Scheduler.Poll | internal/queue/redis/scheduler.go:55-98 | without the lock nothing changes; with it the databases become what PolledRows, PolledSets and MovedIs say |
| SchedulerRun.PolledRows | internal/repository/postgres/queries.go:30-35 | a poll queues exactly the scheduled rows whose time has come, and every other column stays |
| SchedulerRun.PolledSets | internal/queue/redis/scheduler.go:103-166 | it leaves in the delayed and the processing sets exactly what has a score above the clock, at that score |
| SchedulerRun.MovedIs | internal/queue/redis/scheduler.go:77-83 | it moves to the queues exactly the due rows' own messages, with channel and priority of their rows, and what was due in those sets |
| Scheduler.Scheduler.Drain | internal/queue/redis/scheduler.go:66-94 | terminates after as many non-empty pages as the due rows divided by 500, rounded up, with every due row queued and its message enqueued |
| Scheduler.PagesAre | internal/repository/postgres/notification.go:234-235 | that many pages of 500 hold the rows, and one less does not |
| Scheduler.Scheduler.PromoteDelayedRetries | internal/queue/redis/scheduler.go:138-166 | moves exactly the due members of the delayed set to the queues of their channels |
| Scheduler.Scheduler.ReclaimExpiredProcessing | internal/queue/redis/scheduler.go:103-136 | moves exactly the expired members of the three processing sets to the queues of their channels |
| SchedulerRun.PollIsAPath | internal/queue/redis/scheduler.go:55-98 | a whole poll is a path of single schedule, promote and reclaim steps |
| SchedulerRun.SchedulesWhatIsDue | internal/repository/postgres/queries.go:30-35 | and the transition system schedules no row that a poll would not |
| SchedulerRun.DueRowQueuedOnce | internal/queue/redis/scheduler.go:77-93 | after a poll a due row is queued with exactly one message, its own, in its own queue at a fresh score, and in no other set |
| SchedulerRun.OthersUntouched | internal/repository/postgres/queries.go:30-35 | rows that are not due keep every column, and messages that are not due keep their places and scores |
| SchedulerRun.PollKeepsMessages | internal/queue/redis/scheduler.go:103-166 | the messages known to the sets after a poll are those before it and the due rows' own; nothing due is left waiting |
| PollClock.DrainExactly | internal/queue/redis/scheduler.go:66-94 | when every query and every ZADD of the drain reads the clock anew, the rows queued are exactly those due at the reading of the last, empty query, each with its message in its queue under the score of some reading of the drain; all other rows and messages are as before |
| PollClock.PromoteExactly | internal/queue/redis/scheduler.go:138-166 | likewise the retries due at the reading of the range query leave the delayed set for their queues, and nothing else moves |
| PollClock.ReclaimExactly | internal/queue/redis/scheduler.go:103-136 | and the expired messages of a channel leave its processing set for their queues |
| RateLimiter.RateLimiter.Allow | internal/queue/redis/ratelimiter.go:14-33 | trims the window, admits one entry if there is room and renews the key's expiry, else only trims |
| RateLimiter.RateLimiter.AllowN | internal/queue/redis/ratelimiter.go:36-59 | grants the smaller of the request and the room left in the window and adds that many entries; a count of zero or less asks nothing |
| RateLimiter.AfterIs | internal/queue/redis/ratelimiter.go:43-57 | a call leaves the entries less than a second old, if the key has not expired, and one for each member granted at the reading |
| RateLimiter.AdmitSize | internal/queue/redis/ratelimiter.go:53-56 | the set grows by one entry a ZADD exactly when the members are new to it and to each other |
| LimiterRuns.SetHoldsWindow | internal/queue/redis/ratelimiter.go:43-48 | while no reading is more than a window above lo and the key lives, the set holds exactly the admissions of the window |
| LimiterRuns.SetBounded | internal/queue/redis/ratelimiter.go:48-53 | over every sequence of calls the set never holds more than limit entries, fresh members or not |
| LimiterRuns.SlidingWindow | internal/queue/redis/ratelimiter.go:36-59 | callers lagging by at most d, their clocks and the server's drifting by at most e, offsets free: every window of n with n + min(d, e) at most one second and n + e at most two sees at most limit admissions over the whole run |
| LimiterRuns.WindowExactly | internal/queue/redis/ratelimiter.go:36-59 | and for exactly these n: a window of n keeps the limit over every run if and only if n + e is at most two seconds and, unless the limit is one, n + min(d, e) is at most one; with a limit of one the lag costs nothing |
| LimiterRuns.LagBreaks | internal/queue/redis/ratelimiter.go:43-44 | for every limit of at least two the lag is paid in full: any longer window sees limit + 1 admissions in some run |
| LimiterRuns.ExpiryHarmlessExactly | internal/queue/redis/ratelimiter.go:57-57 | the two-second expiry of the key never removes an entry that still counts if and only if the drift is at most one second |
| RateLimiter.BatchIsIterated | internal/queue/redis/ratelimiter.go:89-102 | one call for n grants what n calls of Allow at that reading grant and leaves the same key |
| RateLimiter.BatchEqualsIterated | internal/queue/redis/ratelimiter.go:35-59 | with any fresh members on either side the grants, the number of entries at every score and the expiry agree |
| Dispatcher.Dispatcher.constructor | internal/worker/dispatcher.go:41-43 | a batch size of zero or less becomes ten |
| Dispatcher.Dispatcher.Dispatch | internal/worker/dispatcher.go:93-124 | dequeues the smaller of the grant and the queue, in order, and nothing without a grant |
| Dispatcher.IdleGrantsABatch | internal/worker/dispatcher.go:93-104 | it asks for a whole batch: a limiter nobody has used grants the batch size, or its limit if that is less, at the reading of the clock |
| Dispatcher.Dispatcher.EagerPoll | internal/worker/dispatcher.go:77-87 | the eager loop terminates after at most queue length over batch size full turns, hands out the queue's head in order, continues the run of whatever dispatches came before it, and at most limit over batch size of its full turns share a window |
| DispatchRuns.DequeuedWithinLimit | internal/worker/dispatcher.go:93-124 | over any run of dispatches, each taking the smaller of its grant and the queue, the messages taken by all dispatchers obey the limiter's window |
| DispatchRuns.FullTurnsInWindow | internal/worker/dispatcher.go:93-124 | at most limit over batch size dispatches of such a run take a whole batch in one window, whoever makes them |
| DispatchRuns.EagerTurnsInWindow | internal/worker/dispatcher.go:76-87 | the same bound for the full turns of one eager loop, whatever dispatches came before it |
| CircuitBreaker.CircuitBreaker.Send | internal/provider/circuitbreaker.go:38-60 | asks the provider exactly when the breaker is not open or its timeout has passed, and records the answer |
| CircuitBreaker.StateIsHistory | internal/provider/circuitbreaker.go:62-90 | over every interleaving of overlapping calls the breaker is closed exactly while the failures recorded since the last success are fewer than maxFailures, and this holds for exactly the thresholds of at least one |
| CircuitBreaker.FailuresAreStreak | internal/provider/circuitbreaker.go:72-90 | the counter is the number of failures recorded since the last success |
| CircuitBreaker.FailedProbeReopens | internal/provider/circuitbreaker.go:49-55 | one failure recorded while half-open reopens the breaker and restarts its timeout |
| CircuitBreaker.TwoProbes | internal/provider/circuitbreaker.go:38-60 | from any open breaker past its timeout a run lets two overlapping calls through at once |
| CircuitBreaker.SendIsAPath | internal/provider/circuitbreaker.go:38-70 | a call nobody overlaps is a path of the transition system with the same result |
| CircuitBreaker.CallBound | internal/provider/circuitbreaker.go:44-82 | over an always-failing provider, calls that do not overlap reach it at most maxFailures plus T over (timeout + 1 ns) times during T |
| CircuitBreaker.CallBoundAttained | internal/provider/circuitbreaker.go:44-82 | and for every T some run of calls attains that number |
| CircuitBreaker.ShutUntilTimeout | internal/provider/circuitbreaker.go:44-48 | over every interleaving an open breaker nobody looked at before it opened stays as it is until its timeout has passed, and the provider is not asked |
| Retries.FailsUnaskedExactly | internal/worker/processor.go:122-128 | a notification that meets an open breaker is failed after all its attempts, the provider never asked, if and only if its delays and the lags between them fit into what is left of the breaker's timeout |
| Retries.FailsByDefault | internal/config/config.go:59-69 | with the default settings that happens to every notification first tried within 11.25 s of the breaker's last failure, less the lags, whatever the draws |
| QueueRuns.LowestScoreLeaves | internal/queue/redis/consumer.go:49-58 | over every run of the pipeline, of two messages in a queue the one with the lower score is popped first, ties by id, scores taken from the last enqueue of each |
| PriorityOrder.IntegerOrder | internal/queue/redis/producer.go:84-91 | the order the score is designed for, were it kept in integers: first in, first out within a class, and nobody overtakes high; high goes before normal, and normal before low, unless it came 1e12 ns later, and high before low unless 2e12 ns later; normal is overtaken only by what came within 1e12 ns, low only within 2e12 ns |
| PriorityOrder.ScoreInRange | internal/queue/redis/producer.go:85-90 | for readings of the years 2006 to 2043 only the reading is rounded, by at most 128 ns, and adding 0 for high, 1e12 for normal and 2e12 for low is exact |
| PriorityOrder.ScheduledScoresAsThen | internal/queue/redis/producer.go:87-89 | a message with a time of its own is scored as one without is at that time |
| QueueRuns.PoppedInOrder | internal/queue/redis/producer.go:84-91 | over every run of the pipeline that order of high, normal and low holds of the pops, in binary64, up to 256 ns; within a class a message is popped before another only if its reading rounds lower, or the same and its id is lower |
| QueueRuns.StampIsTheReading | internal/queue/redis/producer.go:86-86 | the reading is that of the last create, due row, promotion or reclaim of the message |
| QueueRuns.StampStays | internal/queue/redis/producer.go:86-86 | and a step that puts nothing and does not pop it leaves it |
| QueueRuns.Projects | internal/queue/redis/consumer.go:49-58 | queue:ch along any run of the pipeline, with the stamps of its members, is a run of the priority queue: creates, due rows, promotions and reclaims put, a batch pop takes one by one |
| PriorityOrder.FloatOrder | internal/queue/redis/producer.go:84-91 | in binary64 the designed order holds up to 256 ns over any run of the priority queue |
| PriorityOrder.ClassOrderExactly | internal/queue/redis/producer.go:84-91 | over any run of the priority queue, of two queued messages of one class the first is the one whose reading rounds lower, and of two that round alike the one with the lower id |
| PriorityOrder.TieAt256 | internal/queue/redis/producer.go:86-86 | two readings 256 ns apart with one score, where the later message leaves first |
| PriorityOrder.ApartBeyond256 | internal/queue/redis/producer.go:86-86 | readings more than 256 ns apart have different scores |
| Float64.Monotone | internal/queue/redis/producer.go:86-86 | conversion to binary64 keeps the order of readings over the whole range |
| Float64.Idempotent | internal/queue/redis/producer.go:74-74 | a converted number converts to itself |
| Float64.RoundTo256 | internal/queue/redis/producer.go:86-86 | readings in [2^60, 2^61) become multiples of 256 within 128 |
| Backoff.WithinAQuarter | internal/retry/strategy.go:22-33 | a delay is min(base * 2^(attempt-1), max) times three quarters plus half the draw, less truncation: whatever the draw, within a quarter |
| Backoff.NeverShrinksExactly | internal/retry/strategy.go:28-30 | no draws make the later of two delays shorter, before truncation, exactly when five of the earlier base are at most three of the later |
| Backoff.GrowsUncapped | internal/retry/strategy.go:23-26 | delays never shrink from one attempt to the next while the cap is not reached |
| Backoff.TotalGeometric | internal/worker/processor.go:199-200 | the k delays of a run sum to at most 1.25 * base * (2^k - 1) |
| Backoff.TotalAtLeast | internal/worker/processor.go:199-200 | and, while the cap is not reached, to at least three quarters of that sum of doublings, less a nanosecond each |
| Backoff.TotalCapped | internal/worker/processor.go:199-200 | the k delays of a run sum to at most 1.25 * k * max |
| Pagination.List | internal/repository/postgres/notification.go:126-232 | the page is cut from the rows that match channel, status, priority and cursor, newest first, after the offset unless there is a cursor, as long as the limit says or twenty; the total counts the rows that match channel, status and priority wherever the cursor stands, and only with no condition at all may it be the estimate |
| Pagination.TotalIgnoresPage | internal/repository/postgres/notification.go:168-194 | filters that differ only in limit, offset and where their cursors stand get the same total |
| Pagination.FilterConditions | internal/repository/postgres/notification.go:127-145 | the conditions built hold of exactly the rows the filter means, and there are none exactly when no filter is set |
| Keyset.KeysetExactly | internal/api/handler/notification.go:246-268 | with only newer inserts, a complete following of next_cursor shows the filtered rows in descending order, each once, if and only if no page break falls between two rows of one creation time; then it takes the rows over the limit, rounded up, and one empty page, and never more |
| Keyset.PartitionsExactly | internal/repository/postgres/notification.go:147-149 | of a table at rest all complete followings partition the rows, or none does, by whether the breaks are clean |
| Keyset.KeysetPartitions | internal/api/handler/notification.go:246-268 | distinct creation times make every break clean |
| Keyset.TwinIsSkipped | internal/repository/postgres/notification.go:147-149 | of two rows with one creation time, the second is never shown when a page ends between them |
| Api.Handler.Create | internal/api/handler/notification.go:58-86 | the answer names the first fault of recipient, channel, priority and content, and changes nothing, nor does a failing insert or a taken idempotency key; any other request is inserted with its own channel, priority, where normal is meant if none is given, time, no attempts and five to go, and, unless scheduled, put into the queue of its channel and marked queued; a failing enqueue or status write leaves the row pending and the answer as it was |
| Api.Handler.BatchCreate | internal/api/handler/notification.go:88-136 | all or nothing: it succeeds exactly with one to a thousand valid requests, a working insert, and keys that are new and distinct; then each row is the one its request asks for, queued unless scheduled, or, if the enqueue or the status write fails, pending, and no other row changes; it leaves what creating each in turn leaves, or the messages of the first so many |
| Api.FirstErrorIs | internal/api/handler/notification.go:271-306 | the error of a refused batch is the first fault of its first invalid request |
| Api.CreatedQueuesAt | internal/api/handler/notification.go:329-361 | after a batch the message of each unscheduled row is in the queue of its channel at the score of now, and all other entries are as before |
| Api.Handler.Cancel | internal/api/handler/notification.go:186-216 | cancels exactly pending, scheduled and queued rows; tells a missing row from one past cancelling |
| Api.BatchIsEach | internal/api/handler/notification.go:329-361 | inserting all rows and then queueing the unscheduled in one update is creating them one by one |
| Api.BatchIsAPath | internal/api/handler/notification.go:118-130 | a batch create is a path of single creates |
| Api.UnqueuedReaches | internal/api/handler/notification.go:81-83 | a create whose enqueue fails is a step of the transition system too |
| Api.CancelIsAStep | internal/api/handler/notification.go:186-216 | a cancel nobody comes between is one step of the transition system, enabled exactly where the handler accepts the status |

## Left out

- Scheduler.Scheduler.Poll: one clock reading stands for the several of the code (PollClock takes one for every call, as paths of single steps), and every call succeeds; in the code an enqueue that fails persistently leaves its row scheduled and the drain loop fetches it again without end.
- Scheduler.Scheduler.Drain: the clock stands still across its pages, where each query of the code reads NOW() afresh; PollClock.DrainExactly is about the moving clock.
- Theorems.NoMessageLost: says nothing of runs with crashes or failing calls; Theorems.ClaimableExactly does, of both: a crash can lose a queued message, and a failing ZADD after the insert leaves a pending row nobody enqueues.
- Theorems.RecoveryBeforeClaim: a message already claimed is not redelivered after a crash, as Races.OrphanForever proves. The comment at internal/queue/redis/scheduler.go:100-102 calls reclaiming continuous crash recovery; the claim guard limits it to messages not yet claimed.
- LimiterRuns.SlidingWindow: readings are taken as the script sees them, in binary64, members are taken as fresh, and the server's clock does not run backwards; how Lua prints numbers and draws random members is not modelled, and AdmitSize says what a repeated member costs.
- QueueRuns.PoppedInOrder: holds for readings from 2^60 up to 2^61 less two levels, the years 2006 to 2043.
- Backoff.WithinAQuarter: arithmetic over the reals; overflow and rounding of the float64 products are not modelled.
- Pagination.List: the estimate PostgreSQL keeps of a table's size is an input.
- Dispatcher.Dispatcher.EagerPoll: handing the batch to the pool is not part of the method; Shutdown models the hand-over as a step.
- Shutdown.AbortOrphans: the panic of a dispatcher that is still handing over a batch when Stop closes the channel ends the program and is taken as its end.
- Retries.FailsUnaskedExactly: the breaker is one the notification's own calls alone change; ShutUntilTimeout says that no others do while it is open, unless one was inside when it opened.
- Pool: TrySubmit and Pending, which nothing calls on the delivery path; submitting after Stop, which panics in the code, is not a step.
- CircuitBreaker.CallBound: stated for calls that do not overlap; TwoProbes shows that overlapping calls pass together. The threshold counts as one where maxFailures is below one.
- GrainMessages.NothingLostExactly: counts a message that only processing:ch knows as not carried, although the scheduler reclaims it there; recovery after crashes between the calls is not taken further.
- Process is not called by the dispatcher; it is here as the reference for ProcessBatch.
- The recovery sweep at worker start that the documentation mentions has no caller in the code; reclaiming expired processing entries replaced it. GetPendingForRecovery is not part of this model.
- Errors of the database, of Redis and of the network, apart from the creates that fail midway and the calls a cancelled context fails.
- Failure of the scheduler's lock to exclude a second scheduler: steps of any number of schedulers interleave in the transition system, so nothing rests on the lock.
- HTTP, JSON, middleware, websocket broadcasts, health checks, tracing and the metrics other than the sent and failed counters.
- Templates and their cache; a request carries the content its template renders to.
- Recipients and contents of stored rows, batch ids, and timestamps other than those that order things.
- The webhook client: the provider answers with a message id or an error, chosen freely for each send.
