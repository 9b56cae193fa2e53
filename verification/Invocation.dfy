/** The invocation service: it queues invocations under their idempotency keys and decides what
    becomes of each result. Dead letters are recorded by the service of the retry package. */
module Invocation {
  import opened Common
  import opened Streams
  import opened Queue
  import opened Backoff
  import Keys = Idempotency
  import Deduplication

  datatype Status = PENDING | RETRYING | SUCCESS | FAILED

  // --- The decision on a result ---

  /** Where the handler takes the attempt number of a failed job from: the code reads it from
      the result's duration; `Carried` is the field its comment says it would use. */
  datatype AttemptSource = Carried | FromDuration

  function AttemptOf(source: AttemptSource, result: JobResult): int {
    match source
    case Carried => result.attempt
    case FromDuration => result.durationMs
  }

  predicate Succeeded(result: JobResult) { result.status == "SUCCESS" || result.exitCode == 0 }

  datatype Decision = Succeed | Retry(job: Job, delay: int) | GiveUp(job: Job)

  /** A failed job is rebuilt from its result: image and payload are not carried over. */
  function Decide(policy: Config, source: AttemptSource, result: JobResult, draw: real): Decision {
    if Succeeded(result) then Succeed else
    var attempt := AttemptOf(source, result);
    var job := Job(result.invocationId, result.functionId, result.versionId, "", "", attempt, policy.maxRetries);
    if policy.ShouldRetry(attempt) then Retry(job.(retryCount := attempt + 1), policy.Calculate(attempt, draw))
    else GiveUp(job)
  }

  /** UPDATE ... WHERE id: an unknown invocation is not created. */
  function Updated(statuses: map<string, Status>, id: string, status: Status): map<string, Status> {
    if id in statuses then statuses[id := status] else statuses
  }

  /** The update as the database carries it out or not; a failure is passed over. */
  function UpdatedIn(statuses: map<string, Status>, id: string, status: Status, outcome: Outcome): map<string, Status> {
    if outcome.Applied() then Updated(statuses, id, status) else statuses
  }

  // --- Dead letters ---

  datatype DLQEntry = DLQEntry(functionId: string, versionId: string, attempts: int, lastError: string)

  class DLQService {
    const queue: RedisStreamQueue
    var rows: seq<DLQEntry>

    constructor (queue: RedisStreamQueue)
      ensures this.queue == queue && rows == []
    {
      this.queue, rows := queue, [];
    }

    /** A failure of one of the two records does not keep the other from being written. */
    method Enqueue(job: Job, error: string, add: Outcome, insert: Outcome)
      requires queue.dead.Valid()
      modifies this, queue.dead
      ensures queue.dead.Valid()
      ensures queue.dead.logs ==
              AddTo(old(queue.dead.logs), queue.jobStream + ":dlq", Some(DeadLetter(job, error)), add)
      ensures rows == if insert.Applied()
                      then old(rows) + [DLQEntry(job.functionId, job.versionId, job.retryCount, error)]
                      else old(rows)
    {
      var _ := queue.EnqueueDLQ(job, error, add);
      var entry := DLQEntry(job.functionId, job.versionId, job.retryCount, error);
      if insert.Applied() {
        rows := rows + [entry];
      }
    }
  }

  // --- The service ---

  datatype Target = Target(functionId: string, versionId: string, imageURI: string)

  /** What one call of Invoke meets with: the times of its calls to Redis, the fresh ids it
      draws, what the lookups of function and version give, and how its writes end. */
  datatype Circumstances = Circumstances(
    checkAt: int, lockAt: int, storeAt: int, releaseAt: int,
    token: string, invocationId: string,
    target: Option<Target>, created: bool,
    check: Outcome, lock: Outcome, enqueue: Outcome, giveUp: Outcome, store: Outcome, release: Outcome)

  datatype Reply =
    | Duplicate(invocationId: string, status: string)
    | Busy
    | NotReady
    | NotCreated
    | NotQueued(invocationId: string)
    | Queued(invocationId: string)

  /** What Invoke answers once it may proceed. */
  function Placed(c: Circumstances): Reply {
    if c.target.None? then NotReady
    else if !c.created then NotCreated
    else if !c.enqueue.Done? then NotQueued(c.invocationId)
    else Queued(c.invocationId)
  }

  /** The keys after a call of Invoke, and its answer. */
  function InvokeKeys(cells: Keys.Keyspace, key: string, c: Circumstances): (Keys.Keyspace, Reply) {
    if key == "" then (cells, Placed(c)) else
    var found := if c.check.Done? then Keys.Checked(cells, key, c.checkAt) else None;
    if found.Some? then (cells, Duplicate(found.value.invocationId, found.value.status)) else
    var name := Keys.LockKey(key);
    var free := Keys.Get(cells, name, c.lockAt).None?;
    var locked := if c.lock.Applied()
                  then Keys.SetNX(cells, name, Keys.Token(c.token), c.lockAt, Keys.LOCK_TTL) else cells;
    if !(c.lock.Done? && free) then (locked, Busy) else
    var stored := if Placed(c).Queued? && c.store.Applied()
                  then Keys.Stored(locked, key, Deduplication.Pending(c.invocationId), c.storeAt) else locked;
    (if c.release.Applied() then Keys.CompareAndDelete(stored, name, "", c.releaseAt) else stored, Placed(c))
  }

  /** The answer in plain terms. A check that fails finds nothing; a lock that fails is busy; and
      what becomes of the store and the release does not matter. */
  lemma InvokeAnswers(cells: Keys.Keyspace, key: string, c: Circumstances)
    ensures var found := if key != "" && c.check.Done? then Keys.Checked(cells, key, c.checkAt) else None;
            var busy := key != "" && !(c.lock.Done? && Keys.Get(cells, Keys.LockKey(key), c.lockAt).None?);
            InvokeKeys(cells, key, c).1 ==
            if found.Some? then Duplicate(found.value.invocationId, found.value.status)
            else if busy then Busy
            else if c.target.None? then NotReady
            else if !c.created then NotCreated
            else if !c.enqueue.Done? then NotQueued(c.invocationId)
            else Queued(c.invocationId)
  {
  }

  /** The keys in plain terms: without a key none is touched, and nor is one by a duplicate; the lock
      stays for its 30 seconds; and a queued invocation is cached as PENDING for 24 hours. */
  lemma InvokeLeavesKeys(cells: Keys.Keyspace, key: string, c: Circumstances)
    ensures var (after, reply) := InvokeKeys(cells, key, c);
            && (key == "" || reply.Duplicate? ==> after == cells)
            && (forall name | name != Keys.LockKey(key) && name != Keys.IdemKey(key) ::
                  (name in after <==> name in cells) && (name in cells ==> after[name] == cells[name]))
            && (key != "" && !reply.Duplicate? && c.token != "" && c.lock.Applied()
                && Keys.Get(cells, Keys.LockKey(key), c.lockAt).None? ==>
                  && Keys.LockKey(key) in after
                  && after[Keys.LockKey(key)] == Keys.Cell(Keys.Token(c.token), c.lockAt + 30 * SECOND))
            && (key != "" && reply.Queued? && c.store.Applied() ==>
                  && Keys.IdemKey(key) in after
                  && after[Keys.IdemKey(key)] ==
                     Keys.Cell(Keys.Cached(Keys.ResultCache(c.invocationId, "PENDING", "", "")), c.storeAt + 24 * HOUR))
            && (key != "" && !(reply.Queued? && c.store.Applied()) ==>
                  && (Keys.IdemKey(key) in after <==> Keys.IdemKey(key) in cells)
                  && (Keys.IdemKey(key) in cells ==> after[Keys.IdemKey(key)] == cells[Keys.IdemKey(key)]))
  {
    assert Keys.LockKey(key)[0] == 'l' && Keys.IdemKey(key)[0] == 'i';
  }

  /** The steps of the protocol that a single request takes, at the times of `c`. */
  function Alone(p: Deduplication.Setting, s: Deduplication.State, id: nat, key: string, c: Circumstances)
    : Deduplication.State
  {
    var checked := Deduplication.Step(p, s.(now := c.checkAt), Deduplication.Check(id, key));
    var locked := Deduplication.Step(p, checked.(now := c.lockAt), Deduplication.Lock(id, c.token));
    FromLock(p, locked, id, c)
  }

  function FromLock(p: Deduplication.Setting, locked: Deduplication.State, id: nat, c: Circumstances)
    : Deduplication.State
  {
    if !Placed(c).Queued? then Deduplication.Step(p, locked.(now := c.releaseAt), Deduplication.Abort(id)) else
    var placed := Deduplication.Step(p, locked.(now := c.storeAt), Deduplication.Enqueue(id, c.invocationId));
    var stored := Deduplication.Step(p, placed, Deduplication.Store(id));
    Deduplication.Step(p, stored.(now := c.releaseAt), Deduplication.Release(id))
  }

  lemma NothingFromLock(p: Deduplication.Setting, s: Deduplication.State, id: nat, c: Circumstances)
    requires id in s.requests && (s.requests[id].stage.Answered? || s.requests[id].stage.Busy?)
    ensures FromLock(p, s, id, c).cells == s.cells && FromLock(p, s, id, c).requests == s.requests
  {
  }

  lemma PlacingFromLock(p: Deduplication.Setting, s: Deduplication.State, id: nat, c: Circumstances)
    requires !p.ownToken && id in s.requests && s.requests[id].stage.Locked?
    ensures var r, key := FromLock(p, s, id, c), s.requests[id].key;
            var stored := if Placed(c).Queued?
                          then Keys.Stored(s.cells, key, Deduplication.Pending(c.invocationId), c.storeAt) else s.cells;
            && r.cells == Keys.CompareAndDelete(stored, Keys.LockKey(key), "", c.releaseAt)
            && id in r.requests && r.requests[id].key == key && Matches(r.requests[id].stage, Placed(c))
  {
    hide Keys.Stored, Keys.CompareAndDelete, Keys.LockKey;
  }

  predicate Matches(stage: Deduplication.Stage, reply: Reply) {
    match reply
    case Duplicate(id, status) => stage.Answered? && stage.cache.invocationId == id && stage.cache.status == status
    case Busy => stage.Busy?
    case Queued(id) => stage.Finished? && stage.invocationId == id
    case _ => stage.Aborted?
  }

  /** Called alone, Invoke does what the steps of the protocol do in a row, however the clock
      moves between them. */
  lemma InvokeIsItsSteps(p: Deduplication.Setting, s: Deduplication.State, id: nat, key: string, c: Circumstances)
    requires !p.ownToken && id !in s.requests && key != "" && c.token != ""
    requires c.check.Done? && c.lock.Done? && c.store.Done? && c.release.Done?
    ensures var r := Alone(p, s, id, key, c);
            && r.cells == InvokeKeys(s.cells, key, c).0
            && id in r.requests && r.requests[id].key == key
            && Matches(r.requests[id].stage, InvokeKeys(s.cells, key, c).1)
  {
    var name := Keys.LockKey(key);
    assert Keys.Get(s.cells, name, c.lockAt).Some? ==>
             Keys.SetNX(s.cells, name, Keys.Token(c.token), c.lockAt, Keys.LOCK_TTL) == s.cells;
    hide Keys.Checked, Keys.SetNX, Keys.Get, Keys.Stored, Keys.CompareAndDelete, FromLock;
    var checked := Deduplication.Step(p, s.(now := c.checkAt), Deduplication.Check(id, key));
    var locked := Deduplication.Step(p, checked.(now := c.lockAt), Deduplication.Lock(id, c.token));
    if locked.requests[id].stage.Locked? {
      PlacingFromLock(p, locked, id, c);
    } else {
      NothingFromLock(p, locked, id, c);
    }
  }

  datatype Timer = Timer(job: Job, delay: int)

  /** The job that a retry enqueues: only ids and counts are carried over. */
  ghost function RetryOf(result: JobResult, policy: Config): Job {
    Job(result.invocationId, result.functionId, result.versionId, "", "", result.durationMs + 1, policy.maxRetries)
  }

  class Service {
    const queue: RedisStreamQueue
    const dlq: DLQService
    const idempotency: Keys.Service
    const policy: Config
    var statuses: map<string, Status>
    var timers: seq<Timer>

    ghost predicate Valid() reads this, queue.jobs, queue.dead, dlq, idempotency.redis {
      && queue.jobs.Valid() && queue.dead.Valid() && dlq.queue == queue
      && (queue.jobs as object) != queue.dead
    }

    constructor (queue: RedisStreamQueue, dlq: DLQService, idempotency: Keys.Service)
      requires queue.jobs.Valid() && queue.dead.Valid() && dlq.queue == queue && (queue.jobs as object) != queue.dead
      ensures this.queue == queue && this.dlq == dlq && this.idempotency == idempotency && policy == DEFAULT
      ensures Valid() && statuses == map[] && timers == []
    {
      this.queue, this.dlq, this.idempotency, policy := queue, dlq, idempotency, DEFAULT;
      statuses, timers := map[], [];
    }

    method Invoke(key: string, payload: string, c: Circumstances) returns (reply: Reply)
      requires Valid()
      modifies this`statuses, queue.jobs, idempotency.redis
      ensures Valid()
      ensures (idempotency.redis.cells, reply) == InvokeKeys(old(idempotency.redis.cells), key, c)
      ensures key == "" ==> idempotency.redis.cells == old(idempotency.redis.cells)
      ensures var cells := old(idempotency.redis.cells);
              var found := if key != "" && c.check.Done? then Keys.Checked(cells, key, c.checkAt) else None;
              var busy := key != "" && !(c.lock.Done? && Keys.Get(cells, Keys.LockKey(key), c.lockAt).None?);
              reply == if found.Some? then Duplicate(found.value.invocationId, found.value.status)
                       else if busy then Busy
                       else if c.target.None? then NotReady
                       else if !c.created then NotCreated
                       else if !c.enqueue.Done? then NotQueued(c.invocationId)
                       else Queued(c.invocationId)
      ensures reply.Queued? || reply.NotQueued? ==>
                var t := c.target.value;
                var job := Job(c.invocationId, t.functionId, t.versionId, t.imageURI, payload, 0, policy.maxRetries);
                && queue.jobs.logs == AddTo(old(queue.jobs.logs), queue.jobStream, Some(job), c.enqueue)
                && statuses == old(statuses)[c.invocationId :=
                     if reply.NotQueued? && c.giveUp.Applied() then FAILED else PENDING]
      ensures !reply.Queued? && !reply.NotQueued? ==>
                queue.jobs.logs == old(queue.jobs.logs) && statuses == old(statuses)
    {
      InvokeAnswers(idempotency.redis.cells, key, c);
      if key != "" {
        var found, _ := idempotency.Check(key, c.checkAt, c.check);
        if found.Some? {
          return Duplicate(found.value.invocationId, found.value.status);
        }
        var acquired, _ := idempotency.AcquireLock(key, Keys.LOCK_TTL, c.token, c.lockAt, c.lock);
        if !acquired {
          return Busy;
        }
      }
      if c.target.None? {
        reply := NotReady;
      } else if !c.created {
        reply := NotCreated;
      } else {
        statuses := statuses[c.invocationId := PENDING];
        var t := c.target.value;
        var job := Job(c.invocationId, t.functionId, t.versionId, t.imageURI, payload, 0, policy.maxRetries);
        var ok := queue.EnqueueJob(job, c.enqueue);
        if !ok {
          if c.giveUp.Applied() {
            statuses := Updated(statuses, c.invocationId, FAILED);
          }
          reply := NotQueued(c.invocationId);
        } else {
          if key != "" {
            idempotency.Store(key, c.invocationId, "PENDING", "", "", c.storeAt, c.store);
          }
          reply := Queued(c.invocationId);
        }
      }
      if key != "" {
        idempotency.ReleaseLock(key, "", c.releaseAt, c.release);
      }
    }

    method ProcessResult(result: JobResult, draw: real, now: int, update: Outcome, add: Outcome, insert: Outcome)
      requires Valid()
      modifies this`statuses, this`timers, dlq, queue.dead, idempotency.redis
      ensures Valid()
      ensures idempotency.redis.cells == old(idempotency.redis.cells)
      ensures match Decide(policy, FromDuration, result, draw)
              case Succeed =>
                && statuses == UpdatedIn(old(statuses), result.invocationId, SUCCESS, update)
                && timers == old(timers) && dlq.rows == old(dlq.rows) && queue.dead.logs == old(queue.dead.logs)
              case Retry(job, delay) =>
                && statuses == UpdatedIn(old(statuses), result.invocationId, RETRYING, update)
                && timers == old(timers) + [Timer(job, delay)]
                && dlq.rows == old(dlq.rows) && queue.dead.logs == old(queue.dead.logs)
              case GiveUp(job) =>
                && statuses == UpdatedIn(old(statuses), result.invocationId, FAILED, update)
                && timers == old(timers)
                && queue.dead.logs == AddTo(old(queue.dead.logs), queue.jobStream + ":dlq",
                                            Some(DeadLetter(job, result.error)), add)
                && dlq.rows == if insert.Applied()
                               then old(dlq.rows) + [DLQEntry(result.functionId, result.versionId,
                                                              job.retryCount, result.error)]
                               else old(dlq.rows)
      ensures statuses.Keys == old(statuses).Keys
      ensures forall id | id in old(statuses) && id != result.invocationId :: statuses[id] == old(statuses)[id]
      ensures update.Failed? ==> statuses == old(statuses)
      ensures result.invocationId in old(statuses) && update.Applied() ==>
                statuses[result.invocationId] == if result.status == "SUCCESS" || result.exitCode == 0 then SUCCESS
                                                 else if result.durationMs < policy.maxRetries then RETRYING
                                                 else FAILED
      ensures var failed := result.status != "SUCCESS" && result.exitCode != 0;
              timers == old(timers) + if failed && result.durationMs < policy.maxRetries
                                      then [Timer(RetryOf(result, policy), policy.Calculate(result.durationMs, draw))]
                                      else []
    {
      if result.status == "SUCCESS" || result.exitCode == 0 {
        statuses := UpdatedIn(statuses, result.invocationId, SUCCESS, update);
        if result.invocationId != "" {
          idempotency.Store("", result.invocationId, "SUCCESS", "", "", now, Done);
        }
        return;
      }
      var job := Job(result.invocationId, result.functionId, result.versionId, "", "",
                     result.durationMs, policy.maxRetries);
      if policy.ShouldRetry(job.retryCount) {
        var delay := policy.Calculate(job.retryCount, draw);
        job := job.(retryCount := job.retryCount + 1);
        timers := timers + [Timer(job, delay)];
        statuses := UpdatedIn(statuses, result.invocationId, RETRYING, update);
      } else {
        statuses := UpdatedIn(statuses, result.invocationId, FAILED, update);
        dlq.Enqueue(job, result.error, add, insert);
        idempotency.Store("", result.invocationId, "FAILED", "", result.error, now, Done);
      }
    }
  }
}
