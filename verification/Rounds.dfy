/** Runs of the pipeline built step by step: one invocation fails, and is tried again, as often as
    one likes. They show that what the other modules bound does happen. */
module Rounds {
  import opened Common
  import opened Queue
  import opened Backoff
  import opened Invocation
  import opened Pipeline
  import opened Retries
  import D = Dispatcher
  import S = Streams

  predicate Fails(e: Event) { e.Publish? && e.status != "SUCCESS" && e.exitCode != 0 }

  /** Draws are in range, no execution takes negative time, and a failing one at least `least`. */
  ghost predicate Admissible(events: seq<Event>, least: int) {
    forall i | 0 <= i < |events| :: Fits(events[i], least)
  }

  predicate Fits(e: Event, least: int) {
    Sound(e) && (e.Publish? ==> 0 <= e.durationMs) && (Fails(e) ==> least <= e.durationMs)
  }

  /** Where invocation `id`, executed by `worker`, is: after n rounds, with this attempt number. */
  datatype Course = Course(id: string, worker: string, n: nat, attempt: int)

  // --- The states of a round ---

  ghost predicate Booked(s: State, c: Course, runs: nat) {
    && WellFormed(s) && c.id in s.statuses && LedgerOf(s, c.id).runs == runs && LedgerOf(s, c.id).marks == c.n
  }

  ghost predicate QueueEmpty(d: D.State)
    requires D.WellFormed(d.streams)
  {
    D.JobLog(d.streams).groups[D.GROUP].cursor == |D.JobLog(d.streams).entries|
  }

  predicate WorkerEmpty(d: D.State, w: string) {
    var log := D.WorkerLog(d.streams, w);
    w in log.groups && log.groups[w].cursor == |log.entries|
  }

  ghost predicate StreamsEmpty(s: State, w: string)
    requires WellFormed(s)
  {
    QueueEmpty(s.dispatcher) && WorkerEmpty(s.dispatcher, w)
  }

  predicate Is(job: Job, c: Course) { job.invocationId == c.id && job.retryCount == c.attempt }

  /** The handler has nothing in hand, no result is waiting, and n timers were armed. */
  ghost predicate HandlerAtRest(s: State, c: Course) {
    s.handler.Ready? && s.seen == |s.results| && |s.timers| == c.n
  }

  /** Nothing is on its way but the job, as the last in the queue. */
  ghost predicate Waiting(s: State, c: Course) {
    && Booked(s, c, c.n) && HandlerAtRest(s, c) && c.worker !in s.workers
    && s.dispatcher.phase.Idle? && WorkerEmpty(s.dispatcher, c.worker)
    && var log := D.JobLog(s.dispatcher.streams);
       var cursor := log.groups[D.GROUP].cursor;
       cursor + 1 == |log.entries| && log.entries[cursor].Some? && Is(log.entries[cursor].value, c)
  }

  /** The dispatcher has the job in hand, */
  ghost predicate Read(s: State, c: Course) {
    && Booked(s, c, c.n) && HandlerAtRest(s, c) && c.worker !in s.workers && StreamsEmpty(s, c.worker)
    && s.dispatcher.phase.Holding? && Is(s.dispatcher.phase.job, c)
  }

  /** gave it to the worker, */
  ghost predicate Chosen(s: State, c: Course) {
    && Booked(s, c, c.n) && HandlerAtRest(s, c) && c.worker !in s.workers && StreamsEmpty(s, c.worker)
    && s.dispatcher.phase.Assigned? && s.dispatcher.phase.worker == c.worker && Is(s.dispatcher.phase.job, c)
  }

  /** and put it into the worker's stream, as the last there. */
  ghost predicate Delivered(s: State, c: Course) {
    && Booked(s, c, c.n) && HandlerAtRest(s, c) && c.worker !in s.workers && QueueEmpty(s.dispatcher)
    && var log := D.WorkerLog(s.dispatcher.streams, c.worker);
       c.worker in log.groups &&
       var cursor := log.groups[c.worker].cursor;
       cursor + 1 == |log.entries| && log.entries[cursor].Some? && Is(log.entries[cursor].value, c)
  }

  /** The worker runs the job. */
  ghost predicate Executed(s: State, c: Course) {
    && Booked(s, c, c.n + 1) && HandlerAtRest(s, c) && s.dispatcher.phase.Idle? && StreamsEmpty(s, c.worker)
    && c.worker in s.workers && s.workers[c.worker].Running? && Is(s.workers[c.worker].job, c)
  }

  /** Its failure is the only result not yet handled. */
  ghost predicate Reported(s: State, c: Course, duration: int) {
    && Booked(s, c, c.n + 1) && s.handler.Ready? && |s.timers| == c.n
    && s.dispatcher.phase.Idle? && StreamsEmpty(s, c.worker)
    && s.seen + 1 == |s.results| && s.results[s.seen].Some? && Failed(s.results[s.seen].value, c, duration)
  }

  predicate Failed(result: JobResult, c: Course, duration: int) {
    result.invocationId == c.id && result.attempt == c.attempt && !Succeeded(result) && result.durationMs == duration
  }

  /** The failure is about to be decided on. */
  ghost predicate Judging(s: State, c: Course, duration: int) {
    && Booked(s, c, c.n + 1) && |s.timers| == c.n && s.seen == |s.results|
    && c.worker !in s.workers && s.dispatcher.phase.Idle? && StreamsEmpty(s, c.worker)
    && s.handler.Deciding? && Failed(s.handler.result, c, duration)
  }

  /** The retry timer of the job was armed, with the next attempt number. */
  ghost predicate Armed(s: State, c: Course) {
    && Booked(s, c, c.n + 1) && s.seen == |s.results| && c.worker !in s.workers
    && s.dispatcher.phase.Idle? && StreamsEmpty(s, c.worker) && s.handler == Marking(c.id)
    && |s.timers| == c.n + 1 && s.timers[c.n].Some? && Is(s.timers[c.n].value, c.(attempt := c.attempt + 1))
  }

  // --- The steps of a round ---

  lemma DoRead(p: Setting, s: State, c: Course)
    requires Waiting(s, c)
    ensures Read(Step(p, s, Dispatch(D.Dequeue(Done))), c)
  {
  }

  lemma DoSelect(p: Setting, s: State, c: Course)
    requires Read(s, c)
    ensures Chosen(Step(p, s, Dispatch(D.Select(Some(c.worker)))), c)
  {
    hide D.WorkerLog, D.JobLog;
  }

  lemma DoForward(p: Setting, s: State, c: Course)
    requires Chosen(s, c)
    ensures Delivered(Step(p, s, Dispatch(D.Forward(Done))), c)
    ensures Step(p, s, Dispatch(D.Forward(Done))).dispatcher.phase.Forwarded?
  {
  }

  lemma DoConfirm(p: Setting, s: State, c: Course)
    requires Delivered(s, c) && s.dispatcher.phase.Forwarded?
    ensures Delivered(Step(p, s, Dispatch(D.Confirm(Done))), c)
    ensures Step(p, s, Dispatch(D.Confirm(Done))).dispatcher.phase.Idle?
  {
  }

  lemma DoFetch(p: Setting, s: State, c: Course)
    requires Delivered(s, c) && s.dispatcher.phase.Idle?
    ensures Executed(Step(p, s, Fetch(c.worker)), c)
  {
    assert CanFetch(s, c.worker);
  }

  function Failure(w: string, duration: int): Event { Publish(w, "ERROR", 1, duration, "", true) }

  lemma DoPublish(p: Setting, s: State, c: Course, duration: int)
    requires Executed(s, c)
    ensures var r := Step(p, s, Failure(c.worker, duration));
            Reported(r, c, duration) && c.worker in r.workers && r.workers[c.worker].Reporting?
  {
    hide D.WorkerLog, D.JobLog;
  }

  lemma DoAcknowledge(p: Setting, s: State, c: Course, duration: int)
    requires Reported(s, c, duration) && c.worker in s.workers && s.workers[c.worker].Reporting?
    ensures var r := Step(p, s, AckWork(c.worker, Done)); Reported(r, c, duration) && c.worker !in r.workers
  {
  }

  lemma DoTake(p: Setting, s: State, c: Course, duration: int)
    requires Reported(s, c, duration) && c.worker !in s.workers
    ensures Judging(Step(p, s, Take), c, duration)
  {
    hide D.WorkerLog, D.JobLog;
  }

  /** The attempt number that the handler goes by. */
  function Number(p: Setting, c: Course, duration: int): int { if p.source.Carried? then c.attempt else duration }

  lemma DoRetry(p: Setting, s: State, c: Course, duration: int)
    requires Judging(s, c, duration) && Number(p, c, duration) < p.policy.maxRetries
    ensures Armed(Step(p, s, Settle(0.0)), c.(attempt := Number(p, c, duration)))
  {
    hide D.WorkerLog, D.JobLog, Config.Calculate;
  }

  lemma DoMark(p: Setting, s: State, c: Course)
    requires Armed(s, c)
    ensures Marked(Step(p, s, Mark), c)
  {
    hide D.WorkerLog, D.JobLog;
  }

  /** The invocation was marked, and the timer is still to fire. */
  ghost predicate Marked(s: State, c: Course) {
    var next := c.(n := c.n + 1, attempt := c.attempt + 1);
    && Booked(s, next, next.n) && HandlerAtRest(s, next) && c.worker !in s.workers
    && s.dispatcher.phase.Idle? && StreamsEmpty(s, c.worker)
    && s.timers[c.n].Some? && Is(s.timers[c.n].value, next)
  }

  lemma DoFire(p: Setting, s: State, c: Course)
    requires Marked(s, c)
    ensures Waiting(Step(p, s, Fire(c.n)), c.(n := c.n + 1, attempt := c.attempt + 1))
  {
  }

  // --- Runs ---

  lemma RunOne(p: Setting, events: seq<Event>, e: Event, least: int)
    requires Admissible(events, least) && Fits(e, least)
    ensures Run(p, events + [e]) == Step(p, Run(p, events), e)
    ensures Admissible(events + [e], least)
  {
    hide Step;
    assert (events + [e])[..|events|] == events;
  }

  lemma UntilChosen(p: Setting, events: seq<Event>, c: Course, least: int) returns (more: seq<Event>)
    requires Waiting(Run(p, events), c) && Admissible(events, least)
    ensures Chosen(Run(p, more), c) && Admissible(more, least)
  {
    hide Run, Step, Waiting, Read, Chosen, Admissible;
    DoRead(p, Run(p, events), c);
    RunOne(p, events, Dispatch(D.Dequeue(Done)), least);
    more := events + [Dispatch(D.Dequeue(Done))];
    DoSelect(p, Run(p, more), c);
    RunOne(p, more, Dispatch(D.Select(Some(c.worker))), least);
    more := more + [Dispatch(D.Select(Some(c.worker)))];
  }

  lemma UntilExecuted(p: Setting, events: seq<Event>, c: Course, least: int) returns (more: seq<Event>)
    requires Waiting(Run(p, events), c) && Admissible(events, least)
    ensures Executed(Run(p, more), c) && Admissible(more, least)
  {
    hide Run, Step, Waiting, Chosen, Delivered, Executed, Admissible;
    more := UntilChosen(p, events, c, least);
    DoForward(p, Run(p, more), c);
    RunOne(p, more, Dispatch(D.Forward(Done)), least);
    more := more + [Dispatch(D.Forward(Done))];
    DoConfirm(p, Run(p, more), c);
    RunOne(p, more, Dispatch(D.Confirm(Done)), least);
    more := more + [Dispatch(D.Confirm(Done))];
    DoFetch(p, Run(p, more), c);
    RunOne(p, more, Fetch(c.worker), least);
    more := more + [Fetch(c.worker)];
  }

  /** The job is run once more and fails again. */
  lemma UntilJudged(p: Setting, events: seq<Event>, c: Course, duration: int) returns (more: seq<Event>)
    requires Waiting(Run(p, events), c) && Admissible(events, duration) && 0 <= duration
    ensures Judging(Run(p, more), c, duration) && Admissible(more, duration)
  {
    hide Run, Step, Waiting, Executed, Reported, Judging, Admissible;
    more := UntilExecuted(p, events, c, duration);
    DoPublish(p, Run(p, more), c, duration);
    RunOne(p, more, Failure(c.worker, duration), duration);
    more := more + [Failure(c.worker, duration)];
    DoAcknowledge(p, Run(p, more), c, duration);
    RunOne(p, more, AckWork(c.worker, Done), duration);
    more := more + [AckWork(c.worker, Done)];
    DoTake(p, Run(p, more), c, duration);
    RunOne(p, more, Take, duration);
    more := more + [Take];
  }

  /** One round: the job is run, fails, and is queued again. */
  lemma Round(p: Setting, events: seq<Event>, c: Course, duration: int) returns (more: seq<Event>)
    requires Waiting(Run(p, events), c) && Admissible(events, duration) && 0 <= duration
    requires Number(p, c, duration) < p.policy.maxRetries
    ensures Waiting(Run(p, more), c.(n := c.n + 1, attempt := Number(p, c, duration) + 1)) && Admissible(more, duration)
  {
    var next := c.(attempt := Number(p, c, duration));
    hide Run, Step, Waiting, Judging, Armed, Marked, Admissible;
    more := UntilJudged(p, events, c, duration);
    DoRetry(p, Run(p, more), c, duration);
    RunOne(p, more, Settle(0.0), duration);
    more := more + [Settle(0.0)];
    DoMark(p, Run(p, more), next);
    RunOne(p, more, Mark, duration);
    more := more + [Mark];
    DoFire(p, Run(p, more), next);
    RunOne(p, more, Fire(c.n), duration);
    more := more + [Fire(c.n)];
  }

  lemma Joined(p: Setting, w: string)
    ensures var joined := Step(p, START, Dispatch(D.Other(D.WorkerStream(w), S.Create(w))));
            && WorkerEmpty(joined.dispatcher, w) && QueueEmpty(joined.dispatcher) && joined.dispatcher.phase.Idle?
            && joined == START.(dispatcher := joined.dispatcher)
  {
  }

  lemma Submitted(p: Setting, s: State, job: Job, w: string)
    requires WellFormed(s) && StreamsEmpty(s, w) && s == START.(dispatcher := s.dispatcher)
    requires s.dispatcher.phase.Idle?
    ensures Waiting(Step(p, Step(p, s, Create(job)), Enqueue(job.invocationId)), Course(job.invocationId, w, 0, 0))
  {
  }

  lemma Begin(p: Setting, job: Job, w: string, least: int) returns (events: seq<Event>)
    ensures Waiting(Run(p, events), Course(job.invocationId, w, 0, 0)) && Admissible(events, least)
  {
    var join := Dispatch(D.Other(D.WorkerStream(w), S.Create(w)));
    Joined(p, w);
    Submitted(p, Step(p, START, join), job, w);
    hide Step, Waiting, WorkerEmpty, QueueEmpty;
    RunOne(p, [], join, least);
    assert [] + [join] == [join];
    RunOne(p, [join], Create(job), least);
    RunOne(p, [join] + [Create(job)], Enqueue(job.invocationId), least);
    events := [join] + [Create(job)] + [Enqueue(job.invocationId)];
  }

  // --- Every limit is reached ---

  lemma {:induction false} RetriedWhileAllowed(p: Setting, job: Job, w: string, n: nat) returns (events: seq<Event>)
    requires p.source.Carried? && n <= Limit(p)
    ensures Admissible(events, 0) && Waiting(Run(p, events), Course(job.invocationId, w, n, n))
  {
    hide Run, Waiting;
    if n == 0 {
      events := Begin(p, job, w, 0);
    } else {
      var fewer := RetriedWhileAllowed(p, job, w, n - 1);
      events := Round(p, fewer, Course(job.invocationId, w, n - 1, n - 1), 0);
    }
  }

  lemma DoGiveUp(p: Setting, s: State, c: Course, duration: int)
    requires Judging(s, c, duration) && p.policy.maxRetries <= Number(p, c, duration)
    ensures var r := Step(p, s, Settle(0.0));
            r.handler.Burying? && c.id in r.statuses && r.statuses[c.id] == FAILED
  {
    hide D.WorkerLog, D.JobLog, Config.Calculate;
  }

  lemma DoBury(p: Setting, s: State)
    requires WellFormed(s) && s.handler.Burying?
    ensures Step(p, s, Bury).statuses == s.statuses && Step(p, s, Bury).handler.Ready?
  {
    hide D.WellFormed;
  }

  /** With the attempt number carried along, for every policy there is a run in which an
      invocation does fail: after as many runs and markings as `RetriesAreExact` says, and with
      its dead letter written. */
  lemma EveryLimitIsReached(p: Setting, job: Job, w: string) returns (events: seq<Event>)
    requires p.source.Carried?
    ensures var s, id := Run(p, events), job.invocationId;
            && AllSound(events) && id in s.statuses && s.statuses[id] == FAILED
            && LedgerOf(s, id).runs == Limit(p) + 1 && LedgerOf(s, id).marks == Limit(p)
            && LedgerOf(s, id).letters == [Limit(p)]
  {
    var c := Course(job.invocationId, w, Limit(p), Limit(p));
    hide Run, Step, Waiting, Judging, LedgerOf;
    events := RetriedWhileAllowed(p, job, w, Limit(p));
    events := UntilJudged(p, events, c, 0);
    DoGiveUp(p, Run(p, events), c, 0);
    RunOne(p, events, Settle(0.0), 0);
    events := events + [Settle(0.0)];
    DoBury(p, Run(p, events));
    RunOne(p, events, Bury, 0);
    events := events + [Bury];
    RetriesAreExact(p, events, job.invocationId);
  }
}
