# NimbusRun: a verified model of the job pipeline

NimbusRun runs functions as containers. `Invoke` puts a job on a Redis stream; the scheduler's
dispatcher reads it, chooses a worker by its heartbeats and copies the job into that worker's
stream; the worker runs it and publishes a result; the handler of results marks the invocation
SUCCESS, arms a timer that will enqueue it again, or marks it FAILED and records a dead letter.
The two ends of that path are written but not yet connected: nothing in the repository calls
`Invoke`, `ProcessResult` or `ReadResults`, or uses the `WorkerHeartbeatStore` once it is
constructed. What is said of them here is said of their code, called as it is meant to be. This
project models that path in Dafny and proves what it keeps over all runs.

`dafny verify dfyconfig.toml` checks everything.

## How it is modelled

- `Streams` — one Redis stream: a log, and for each consumer group a cursor and a pending set.
  Operations are functions on a log; class `StreamStore` is the mutable keyspace, and every one of
  its methods is proved to do what the function says. A message that does not parse is `None`; a
  message id is its position. A call has an `Outcome`: done, failed, or applied but not reported.
- `Queue` — class `RedisStreamQueue`, and the reading of results page by page.
- `Dispatcher` — `dispatchOneJob` cut into its sub-steps, with failing calls and stops between
  any two of them. `DispatchOnce` is the same without interruption; the class `Scheduler` in
  module `Scheduler` is proved against it. `DispatchOrder` refines it to a plain queue; `Lineage`
  follows a job through the messages that put it back.
- `Heartbeats`, `Scheduler` — the pruned store, the scheduler's own map, selection by load.
- `Idempotency`, `Deduplication` — cached replies and locks with expiry, and any number of
  interleaved requests on a clock. A request must get from its check to its store within `limit`.
- `Backoff` — delays as reals, cut down to whole nanoseconds; random draws are arguments.
- `Invocation`, `Worker` — the classes whose methods are `Invoke`, `ProcessResult` and
  `processNextJob`.
- `Pipeline` — all of it as one machine of small interleaved steps; any number of invocations and
  workers, arbitrary results. `InvokeIsItsSteps`, `DispatchOnceIsItsSteps`, `PollIsItsSteps` and
  `HandlingIsItsSteps` show that the steps, taken in a row, are the calls of the services.
  `Conservation`, `Retries`, `Journey`, `Rounds`, `Durations` and `Wiring` prove properties of its
  runs, `WorkerGroups` what workers read and acknowledge; `Unwired` is the scheduler without the
  group that it fails to create. In `Pipeline` writes succeed, nobody crashes, and results are
  handled one at a time; whether a published result can be read is arbitrary.

## Where the code departs from what is said about it

The model follows the code. Where a promise holds only of an intended version, that version is a
named parameter, and what the code as it is does instead is proved beside it.

- A failed job's attempt number is read from the duration of the execution
  (`internal/invocation/service.go:182`; the comment there says that a real field is meant). The
  parameter `AttemptSource` is `Carried` or `FromDuration`. With the former, retries are counted
  exactly (`RetriesAreExact`). With the latter, an invocation can be retried for ever
  (`RetriedForEver`), and the limit holds precisely when failures take long enough
  (`LimitHoldsExactlyForSlowFailures`). The result's field `attempt` is that intended field.
- The worker publishes the status "SUCCESS" whatever the exit code
  (`internal/worker/service.go:140`), and the handler believes it: no run with such results ever
  retries or fails an invocation (`NothingEverFails`). The other theorems take arbitrary results.
- The published `timestamp` is a number, where the reader expects a time
  (`internal/worker/service.go:146`, `internal/queue/types.go:50`). Whether a result can be read is
  therefore up to each event. That an unfinished invocation always has its one token is false: it
  holds if and only if no such result was published (`ExactlyOneToken`), and one that was leaves its
  invocation unfinished for good (`UnreadableResultStrands`, `StrandedForever`). All other results,
  bounds and counts hold either way.
- The group for heartbeats is created on the job stream (`internal/scheduler/scheduler.go:64`,
  `internal/queue/redis.go:74-80`), not where it is read (`internal/scheduler/scheduler.go:79`).
  Workers become known exactly if somebody creates it there (`WorkersAreHeardThroughTheGroup`), and
  as it is, the dispatcher forwards nothing, ever (`NothingIsEverForwarded`).
- The worker binary reads the job stream itself, under its own group
  (`cmd/worker/main.go:55-62`), while the dispatcher writes to a stream for each worker. And nobody
  creates a worker's group, on either stream: groups are created in one place only
  (`internal/queue/redis.go:75`), for the scheduler (`internal/scheduler/scheduler.go:47,64`). So as
  wired every read of a worker is refused, and it is given nothing (`GroupsAreCreated`). Were the
  groups created on the job stream, every worker would be given every job
  (`CaughtUpGroupsSeeEverything`). `Pipeline` has each worker read its own stream, and the creation
  of its group is an event: without such events nothing is ever run (`WithoutGroupsNothingRuns`).
- `ReleaseLock` is called with an empty token (`internal/invocation/service.go:90`) and so never
  deletes a lock. Deduplication depends on it: with the true token it would fail, however quick
  the requests are (`TrueTokenWouldNotDeduplicate`).
- `ShouldRetry(3)` is expected to be true by `internal/retry/backoff_test.go:45-47`; the comparison
  is strict (`internal/retry/backoff.go:48`), so it is false with the default of three retries.
- Jitter is described as ±30% (`NIMBUSRUN.md:100`); the code only ever adds, up to 30%, and after
  the cap, so a delay can exceed `MaxDelay`: exactly when the longest delay that jitter can make of
  the attempt's base does (`ExceedsTheCapExactly`, with `DefaultExceedsTheCap` as an example).
- Messages not acknowledged are said to be delivered again, and the jobs of a dead worker to be
  requeued (`NIMBUSRUN.md:96`, `NIMBUSRUN.md:143`). No code does either: a group is given each
  message once (`GroupSemantics`), and malformed or requeued messages stay pending for good. So a
  job whose dispatch is cut short can be lost (`AllAliveUnlessAbandoned`).
- The depth of the queue counts everything ever enqueued (`internal/queue/redis.go:135-137`), so it
  cannot fall (`DepthNeverDecreases`).
- The job rebuilt for a retry has neither image nor payload
  (`internal/invocation/service.go:178-184`), so tokens are told apart by invocation. The row of a
  dead letter does not name its invocation (`internal/retry/retrier.go:38-45`).

## Model

| member | source | states |
|---|---|---|
| Streams.GroupSemantics | internal/queue/redis.go:83-123 | Whatever is done to a stream, a group has been given exactly a prefix of the log, in order and each message once, and each given message is either pending or was acknowledged once, never both |
| Streams.GroupsAreIndependent | internal/queue/redis.go:83-123 | All that a group is ever given or has acknowledged is the same as if the other groups did nothing |
| Streams.GroupsAreCreated | internal/worker/service.go:71-84 | A group exists if and only if somebody created it, and without that it is never given a message |
| Streams.CaughtUpGroupsSeeEverything | cmd/worker/main.go:58-60 | Broadcast: any number of existing groups that caught up on one stream, as the workers would with their own groups on the job stream, were each given the whole log |
| Streams.MalformedStaysPending | internal/queue/redis.go:101-109 | A group that acknowledges only what it could parse keeps every malformed message it was given pending, over all runs |
| Streams.StreamStore.XReadGroup | internal/worker/service.go:71-77 | Reading as a group answers the next undelivered messages, at most `count`, moves the cursor behind them and makes them pending; other streams and groups stay as they are. Without the group, or when the call fails, nothing changes; when only the reply is lost, the messages are pending all the same |
| Queue.RedisStreamQueue.EnqueueJob | internal/queue/redis.go:33-52 | The job stream grows by the job at its end unless the write failed; success is reported only if it was written |
| Queue.RedisStreamQueue.EnqueueJobToStream | internal/queue/redis.go:55-71 | The same for a stream by name |
| Queue.RedisStreamQueue.RegisterConsumerGroup | internal/queue/redis.go:74-80 | The group exists on the job stream afterwards, at its beginning, whatever group was meant, unless the call failed; an existing one keeps its cursor and pending set, and that it exists is no error; any other failure is returned |
| Queue.RedisStreamQueue.DequeueJobs | internal/queue/redis.go:83-118 | Answers exactly the parsed messages of the read, in order, with their ids; the others are given to the group all the same and stay pending. A failed read, or a missing group, is an error; messages whose reply was lost are pending |
| Queue.RedisStreamQueue.AckJob | internal/queue/redis.go:121-123 | Takes exactly this id out of the group's pending set, on the job stream only; a failure is returned |
| Queue.RedisStreamQueue.GetQueueDepth | internal/queue/redis.go:135-137 | The length of the whole log, delivered or not, or an error |
| Queue.RedisStreamQueue.EnqueueDLQ | internal/queue/redis.go:145-157 | One dead letter more, with job and error, in the dead-letter stream of the queue |
| Queue.RedisStreamQueue.ReadResults | internal/queue/redis.go:160-190 | The parsed results of the read behind `last`, in order, or an error; each is, but for its id, the result stored in the message of that id, and the ids increase and lie behind `last`; nothing is changed |
| Queue.PagingIsComplete | internal/queue/redis.go:160-190 | Reading page after page gives all results of a fixed log, in order and once each, if and only if no `count` consecutive malformed messages precede a result, and then within as many reads as there are messages |
| Queue.AnswersAreComplete | internal/queue/redis.go:160-190 | A reader that calls ReadResults again and again, each time from the last id it was answered, is given results of the log under increasing ids, and all of them, each once and in order, if and only if no `count` consecutive malformed messages precede a result |
| Dispatcher.NothingIsLost | internal/scheduler/scheduler.go:135-167 | Over all runs with failing and unreported reads and writes and stops between any two sub-steps: each accepted job has a message of its own that still holds it and is undelivered, pending, or copied to a worker's stream; every acknowledged message was copied, each to a place of its own |
| Dispatcher.AcceptanceIsCounted | internal/queue/redis.go:33-52 | Over all runs, there are as many such messages as enqueueings that were reported to succeed, equal jobs counted apart |
| Dispatcher.DispatchOnceIsItsSteps | internal/scheduler/scheduler.go:135-167 | An uninterrupted dispatch, as specified for the scheduler's method, leaves the streams exactly as its five sub-steps in a row do, for all outcomes of its read and writes |
| Lineage.AliveUnlessAbandoned | internal/scheduler/scheduler.go:135-167 | Over all runs with faults and stops, a job that came in is still to be read, in hand, or copied to a worker, if and only if no step gave it up while no worker had it: the reply to its read was lost, its return to the stream failed, or the dispatcher stopped with it in hand |
| Lineage.AllAliveUnlessAbandoned | internal/scheduler/scheduler.go:135-167 | So all accepted jobs can still be run if and only if none was given up in one of these ways |
| Lineage.AStopLosesTheJob | internal/scheduler/scheduler.go:136-151 | That happens: an accepted job, read and then in hand at a stop |
| Lineage.OriginsAreRight | internal/scheduler/scheduler.go:150-159 | Every message that is put back holds the very job that was accepted, and every accepted message is its own origin |
| Lineage.OnlyUnreportedHandOversRepeat | internal/scheduler/scheduler.go:156-161 | Over all runs with faults and stops, every hand-over of a job but the last went unreported, and there are as many copies as hand-overs |
| Lineage.CopiedOnceExactly | internal/scheduler/scheduler.go:156-161 | So a job is copied to workers at most once if and only if no unreported hand-over of it was followed by another |
| Lineage.ALostReplyDoublesTheJob | internal/scheduler/scheduler.go:156-161 | That happens: a hand-over whose reply is lost, a return, and a second hand-over leave two copies |
| DispatchOrder.StreamsRefineTheQueue | internal/scheduler/scheduler.go:136-166 | Over all histories of arrivals and dispatches, the job stream with its group behaves as a plain queue whose head is sent, rotated or dropped, and each worker's stream is exactly what was sent to it, in order |
| DispatchOrder.IdlingRotates | internal/scheduler/scheduler.go:148-153 | k dispatches without a healthy worker move the first k jobs, in order, behind the others, and drop what is malformed among them |
| DispatchOrder.RotationRestoresTheQueue | internal/scheduler/scheduler.go:148-153 | As many such dispatches as messages wait leave the jobs waiting in their old order |
| DispatchOrder.ProgressInOrder | internal/scheduler/scheduler.go:136-166 | While workers are available, d dispatches send exactly the jobs among the first d waiting messages, in order, whatever arrives behind them |
| DispatchOrder.ForwardedInTurn | internal/scheduler/scheduler.go:136-166 | The job at position p is in some worker's stream after p + 1 dispatches, as the last one sent |
| DispatchOrder.BooksBalance | internal/scheduler/scheduler.go:148-164 | Length of the job stream = arrivals + requeues; delivered = forwarded + requeued + malformed; pending are exactly the requeued and the malformed |
| DispatchOrder.DepthNeverDecreases | internal/queue/redis.go:135-137 | The queue depth after a longer history is never less |
| Heartbeats.WorkerHeartbeatStore.Update | internal/scheduler/heartbeat_store.go:26-30 | The worker's entry is this heartbeat, and no other entry changes |
| Heartbeats.WorkerHeartbeatStore.ListHealthy | internal/scheduler/heartbeat_store.go:51-62 | Lists each healthy worker once and nobody else, in some order: a worker is listed exactly until 15 s after the timestamp of its last heartbeat |
| Heartbeats.WorkerHeartbeatStore.CleanStale | internal/scheduler/heartbeat_store.go:72-84 | Exactly the entries that are not older than 15 s remain, unchanged, and the answer is how many were removed |
| Heartbeats.WorkerHeartbeatStore.CountHealthy | internal/scheduler/heartbeat_store.go:94-105 | The number of healthy entries |
| Heartbeats.FoldKeepsTheLatest | internal/scheduler/scheduler.go:92-113 | Folding a heartbeat log knows a worker if and only if the log has a valid heartbeat of it, and holds the last such one |
| Heartbeats.PruningIsInvisible | internal/scheduler/heartbeat_store.go:72-84 | For all histories of valid heartbeats and prunings in time order, the healthy workers of the pruned store are at every later instant those of the scheduler's map that never forgets |
| Scheduler.SelectLowestLoadWorker | internal/scheduler/scheduler.go:188-202 | The first element with the least load of the list, or none for an empty list; compared by their shares of CPU and slots, no other element is less busy |
| Scheduler.ChoiceDoesNotDependOnOrder | internal/scheduler/scheduler.go:170-202 | In whatever order the map lists the healthy workers, the chosen load is the same; a worker without slots is chosen only if all healthy loads are at least 1 |
| Scheduler.Scheduler.Start | internal/scheduler/scheduler.go:43-66 | Both groups exist on the job stream afterwards, if the calls succeed, and the heartbeat stream is left as it was; only a failure of the first call is an error, and then the second is not made |
| Scheduler.Scheduler.ProcessHeartbeats | internal/scheduler/scheduler.go:76-113 | One tick: the map is updated by the valid heartbeats of the batch in order; of the messages read, exactly those that do not parse, are invalid, or whose XACK was lost are pending; a failed read changes no worker |
| Scheduler.Scheduler.SelectWorker | internal/scheduler/scheduler.go:170-185 | A worker heard of within 15 seconds with the least load among all such, or none only if there is none; by cross-multiplied shares, (cpu·slots + running)·other slots is no more than that of any other |
| Scheduler.TheBusierIsNotChosen | internal/scheduler/scheduler.go:188-202 | Of two healthy workers that differ in their running tasks only, the one with more is never a right choice |
| Heartbeats.LoadIsTheMeanOfShares | internal/queue/types.go:65-73 | With slots, 2·load·slots = cpu·slots + running tasks |
| Heartbeats.LoadGrows | internal/queue/types.go:65-73 | The load grows strictly with the CPU in use and with the running tasks; it is 0 for an idle worker and 1 for one that uses all of its CPU and slots |
| Heartbeats.LoadsCompare | internal/queue/types.go:65-73 | One load is at most another if and only if the cross-multiplied shares are in that order, a worker without slots counting as fully loaded |
| Heartbeats.ZeroSlotsAreAccepted | internal/queue/types.go:88-96 | A heartbeat without slots is accepted; one with negative slots or without a name is not |
| Scheduler.Scheduler.DispatchOneJob | internal/scheduler/scheduler.go:135-167 | The streams become those of an uninterrupted dispatch to a worker chosen rightly at that time, and an error is reported exactly if the read or the hand-over failed |
| Scheduler.BatchingDoesNotMatter | internal/scheduler/scheduler.go:76-113 | From any log of which the group has read nothing, however heartbeats are cut into batches, the map is the fold of the log as far as it was read, and pending are exactly the messages that do not parse or are invalid |
| Scheduler.WithoutItsGroupNothingIsHeard | internal/scheduler/scheduler.go:63-91 | If the group was never created on the heartbeat stream, no course of events makes a worker known or creates it |
| Scheduler.WorkersAreHeardThroughTheGroup | internal/scheduler/scheduler.go:63-91 | Some course of events makes a worker known if and only if the group exists on the heartbeat stream, whatever was published before |
| Unwired.NothingIsEverForwarded | internal/scheduler/scheduler.go:63-153 | Without the heartbeat group, in every course of heartbeats, arrivals and dispatches with rightly made choices: no job is sent to any worker, the streams of the workers never change, and the queue is what dispatches without a worker leave |
| Idempotency.Service.Check | internal/idempotency/idempotency.go:37-56 | The live cached reply of the key, or none when there is none, it expired, the key is empty or the call failed |
| Idempotency.Service.Store | internal/idempotency/idempotency.go:59-77 | The reply is cached for 24 hours from now; an empty key stores nothing |
| Idempotency.Service.AcquireLock | internal/idempotency/idempotency.go:81-96 | The lock is taken exactly if it was free or expired, and an unexpired one is left to its holder |
| Idempotency.Service.ReleaseLock | internal/idempotency/idempotency.go:99-115 | The lock is deleted exactly if it is alive and holds this token |
| Idempotency.CachedForADay | internal/idempotency/idempotency.go:59-77 | A stored reply is found at 23:59 hours and up to the last nanosecond of the 24th, and not at 24:00 |
| Idempotency.LockedForHalfAMinute | internal/idempotency/idempotency.go:81-96 | A lock that was free and is taken keeps others out for 30 seconds, and no longer |
| Deduplication.RunInv | internal/invocation/service.go:70-91 | Over all interleavings: locks on one key are at least 30 s apart and last their time, as releasing with "" deletes nothing; cached replies last 24 h and come from finished requests |
| Deduplication.DeduplicatesInTime | internal/invocation/service.go:70-91 | If 2·limit < 30 s, of any two requests that enqueued under one key the later started only after the reply cached by the earlier had expired |
| Deduplication.DeduplicationLimit | internal/invocation/service.go:85-153 | That holds over all interleavings if and only if 2·limit < 30 s |
| Deduplication.LateRequests | internal/invocation/service.go:85-153 | For every larger limit a run of two requests that enqueues the same key twice |
| Deduplication.TrueTokenWouldNotDeduplicate | internal/invocation/service.go:71-90 | Were the lock released with its true token, two requests could enqueue the same key twice, whatever the limit, as the check is not repeated under the lock |
| Deduplication.DuplicatesGetTheOriginal | internal/invocation/service.go:71-82 | In a cache window every duplicate is answered with the invocation queued in it, as PENDING, whatever results are processed meanwhile |
| Deduplication.DuplicatesHaveAnOriginal | internal/invocation/service.go:71-82 | Every duplicate answer stems from a finished request under the same key in whose window it was asked |
| Backoff.DelayRange | internal/retry/backoff.go:30-44 | The delay lies between the capped geometric base and 1.3 times it, and is the base without jitter, for any multiplier that is not negative |
| Backoff.ExceedsTheCapExactly | internal/retry/backoff.go:36-42 | With jitter some draw makes the delay exceed MaxDelay if and only if the longest jittered delay of the base does; without jitter no delay exceeds it |
| Backoff.DefaultExceedsTheCap | internal/retry/backoff.go:19-44 | Attempt 6 of the default policy can wait 34.5 s, where MaxDelay is 30 s |
| Backoff.GeometricIsPower | internal/retry/backoff.go:34-36 | The base delay of attempt k is Initial·m^(k-1) |
| Backoff.CalculateMeans | internal/retry/backoff.go:30-44 | The delay is 0 for attempts up to 0, and otherwise the lesser of MaxDelay and Initial·m^(n-1), plus 0.3 times that times the draw with jitter, cut to a whole number |
| Backoff.DefaultDelays | internal/retry/backoff.go:19-44 | Before jitter the default policy waits 0, 1, 2, 4, 8, 16, 30, 30 seconds |
| Backoff.DelayIsMonotone | internal/retry/backoff.go:30-44 | Without jitter, and for m ≥ 1, a later attempt never waits less |
| Backoff.DelayReachesTheCap | internal/retry/backoff.go:37-39 | For m > 1 and a positive initial delay, from some attempt on the delay is MaxDelay |
| Backoff.JitterKeepsOrderBelowTheCap | internal/retry/backoff.go:37-43 | For m ≥ 1.3, while the next delay is below the cap, no jittered delay exceeds one of the next attempt, for all draws |
| Backoff.JitterKeepsOrderExactly | internal/retry/backoff.go:37-43 | In general that is so for all draws if and only if the longest jittered delay of the attempt is at most the next base |
| Backoff.DefaultOvertakesAtTheCap | internal/retry/backoff.go:19-27 | Attempts 6 and 7 of the default policy, of which the handler never computes the delays, can be out of order |
| Backoff.DefaultStaysInOrder | internal/invocation/service.go:186-188 | All attempts for which the handler does compute a delay under the default policy are in order, for all draws |
| Backoff.TotalWaitBound | internal/retry/backoff.go:19-49 | A history of R retries waits in sum at most 1.3·(R-1)·MaxDelay, for any multiplier that is not negative, and for m > 1 at most 1.3·Initial·(m^(R-1)-1)/(m-1) |
| Backoff.DefaultTotalWait | internal/retry/backoff.go:19-49 | Under the default policy that is at most 3.9 s |
| Backoff.DefaultTotalWaitAtLeast | internal/retry/backoff.go:19-49 | Three retries under the default policy wait at least 3 s |
| Invocation.InvokeIsItsSteps | internal/invocation/service.go:68-160 | A call of Invoke alone leaves the keys, and gives the kind of answer, that the steps of the deduplication protocol in a row do, however the clock moves in between |
| Invocation.Service.Invoke | internal/invocation/service.go:68-160 | The answer for every circumstance: without a key, and for one that is neither cached nor locked, it follows target, creation and enqueue alone; a failed check finds nothing, a failed lock is busy, and a failed store or release changes no answer. Without a key no key is touched. Only a call that got past all of these adds a job, with attempt 0, and its invocation is then PENDING, or, if the enqueue is reported to fail, FAILED as far as that update succeeds |
| Invocation.InvokeLeavesKeys | internal/invocation/service.go:85-153 | A call touches its own two keys at most; a lock it took stays for 30 s, since releasing it with "" does nothing; a queued invocation is cached as PENDING for 24 h, and nothing else is cached |
| Invocation.Service.ProcessResult | internal/invocation/service.go:163-211 | Exactly one of: SUCCESS; RETRYING with one timer armed, for a job with the ids of the result and the next attempt, after the delay of the policy; FAILED with one dead letter in stream and table. Entry by entry: a known invocation gets this status if the update takes effect, and every other keeps its own; an unknown one is not added; a failed update changes nothing, but timer or dead letter are made all the same. The cached replies never change, as the key stored under is empty |
| Invocation.DLQService.Enqueue | internal/retry/retrier.go:27-59 | Stream and table each get their record of the job, and neither write depends on the other |
| Worker.Service.ProcessNextJob | internal/worker/service.go:70-105 | A poll takes at most one message; a job leaves one result, with its ids, exit code and duration, or none if its publication fails; the message is acknowledged in either case, as is an unparsed one; a failed read leaves nothing |
| Conservation.StepFollows | internal/scheduler/scheduler.go:135-167 | Every step of the pipeline moves, creates or removes at most one token, at the places that its effect names, and leaves all others where they are |
| Conservation.NeverTwoTokens | internal/invocation/service.go:163-211 | Over all runs, whatever can be read, no invocation has two tokens and a SUCCESS or FAILED one has none |
| Conservation.ExactlyOneToken | internal/invocation/service.go:163-211 | Over all runs, each PENDING or RETRYING invocation has exactly one token (in hand, queued, with a worker, as a result, or in a timer) and each finished one has none, if and only if no worker that ran a job published a result that cannot be read |
| Conservation.TerminalIsForever | internal/invocation/service.go:168-208 | Over all runs, whatever can be read, SUCCESS and FAILED are never left |
| Conservation.AtMostOneDeadLetter | internal/invocation/service.go:203-204 | Over all runs, whatever can be read, a FAILED invocation has one dead letter, unless it is just about to be written, and any other has none |
| Conservation.UnreadableResultStrands | internal/worker/service.go:135-154 | In every state that a run can reach, publishing a result that cannot be read leaves the invocation unfinished without any token |
| Conservation.StrandedForever | internal/queue/redis.go:176-184 | And so it stays in every continuation of the run |
| Retries.RetriesAreExact | internal/invocation/service.go:177-208 | With the carried attempt number, in all states of all runs: at most MaxRetries + 1 runs and MaxRetries markings; a finished invocation FAILED if and only if all of its runs failed, and then it was run MaxRetries + 1 times and marked MaxRetries times, and its one dead letter says Attempts = MaxRetries; others have none |
| Retries.DefaultFailsAfterFourRuns | internal/retry/backoff.go:19-49 | Under the default policy a FAILED invocation was run exactly 4 times and marked 3 times |
| Retries.CountsHold | internal/invocation/service.go:177-208 | Wherever a token is, its attempt number, the runs, the judged results, the markings and the armed delays of its invocation agree; without a token, finished or stranded, they are within the limits |
| Retries.ArmedDelaysAreBounded | internal/invocation/service.go:186-196 | In all states of all runs the delays armed for an invocation sum up to at most 1.3·(R-1)·MaxDelay, at most 1.3·Initial·(m^(R-1)-1)/(m-1), and at most 3.9 s by default, where R is the number of retries allowed |
| Journey.EveryMoveCounts | internal/invocation/service.go:163-211 | Over all runs, the number of moves of an invocation's token is 7·attempt + stage + 2·requeues, 7·runs + 2·requeues once it is finished, and 7·(runs-1) + 4 + 2·requeues once its token is lost: every move but a requeue advances (attempt, stage) lexicographically by one |
| Journey.JourneysEnd | internal/retry/backoff.go:47-49 | So no invocation ever makes more than 7·(MaxRetries + 1) + 2·requeues moves, and a failed one made exactly that many |
| Rounds.EveryLimitIsReached | internal/invocation/service.go:177-208 | With the carried attempt number, for every policy a run that ends with an invocation FAILED after MaxRetries + 1 runs and MaxRetries markings, and its dead letter written |
| Durations.RetriedForEver | internal/invocation/service.go:182-196 | As the code is: for every n and every duration from 0 to below MaxRetries, a run of failures of that duration in which an invocation is run and marked RETRYING n times and is queued again |
| Durations.LimitHoldsExactlyForSlowFailures | internal/invocation/service.go:182-196 | As the code is, no invocation is run more than MaxRetries + 1 times, over all runs in which no execution takes negative time and failures take at least so many milliseconds, if and only if that is at least MaxRetries, or MaxRetries is not positive |
| Durations.SlowFailuresRunOnce | internal/invocation/service.go:182-196 | And then none is run more than once |
| Wiring.PollIsItsSteps | internal/worker/service.go:70-105 | A poll of the worker that succeeds in reading and publishing, as specified for its method, leaves the streams exactly as the pipeline's fetch, publication and acknowledgement in a row do |
| WorkerGroups.PublishedBeforeAcknowledged | internal/worker/service.go:95-101 | Over all runs, the message of a job that a worker has in hand is pending until the result is published: never acknowledged before |
| WorkerGroups.WorkersNeedTheirGroup | internal/worker/service.go:70-84 | Over all runs, the group of a worker is on its stream if and only if somebody created it, and no worker takes a message before |
| WorkerGroups.WithoutGroupsNothingRuns | internal/worker/service.go:70-84 | If nobody ever does, as in the repository, no run executes a job, has a result, or leaves PENDING |
| Wiring.HandlingIsItsSteps | internal/invocation/service.go:163-211 | The pipeline's steps of the handler in a row leave the status, timer and dead letter that are specified for ProcessResult |
| Wiring.NothingEverFails | internal/worker/service.go:136-147 | With results as the worker publishes them, no run marks anything RETRYING or FAILED, arms a timer or writes a dead letter, whatever the exit codes |

## Left out

- Execution in containers, isolation and host limits: an execution is an arbitrary exit code, duration and error.
- HTTP handlers, authentication, the command line, the frontend, metrics, logging and configuration; stream names are those of the default configuration.
- SQL: invocation statuses are a map, and the table of dead letters is a sequence; lookups of function and version are one optional result, and of a created row only whether that worked.
- JSON and UUID text: a message parses or does not, ids are strings, and fresh ones are arguments. Ids that do not parse, which the handler turns into the nil id, are not modelled.
- Redis ids: a message is identified by its position, which keeps their order.
- Waiting: blocking reads return at once, and tickers, sleeps and timers are steps that may happen at any time; how long a retry waits is in `Backoff` and in the ledgers only.
- Rounding of floats, and overflow of durations: delays and loads are computed in reals.
- Deletion and listing (`DeleteJob`, `GetPendingCount`, `GetDLQEntries`, `DLQService.List`, `RetryFromDLQ`, `Remove`, the idempotency service's `Delete`): not part of the path of a job.
- Crashes of workers and of the handler, and overlapping calls of ProcessResult: a lost worker loses the job it holds, as nothing re-reads its pending messages. Failures of writes are modelled for the dispatcher, and in the contracts of the services, but not in `Pipeline`.
- Jobs' entrypoint, limits and time stamps, the output of executions, and the error texts of failed calls: nothing here depends on them.
- Worker.Service.ProcessNextJob: a message without a `data` field, on which the code panics, is treated as one that does not parse.
- Idempotency.Service.Check: the failures of Redis are one outcome; a cached value that does not parse cannot occur, since only `Store` writes under such keys.
- Invocation.Service.Invoke: the steps before the enqueue are not interleaved with other calls in this contract; that is the business of `Deduplication`, which assumes that its calls to Redis do not fail.
- Scheduler.Scheduler.DispatchOneJob: the lock around the map of workers is not modelled; a tick and a selection exclude each other.
- Conservation.UnreadableResultStrands: a result whose XADD fails is lost in the same way, since the worker acknowledges regardless; `Worker.PollOnce` has that case, `Pipeline` does not.
