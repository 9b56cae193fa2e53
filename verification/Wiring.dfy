/** How the machine of small steps relates to the services whose calls it takes apart, and what
    it does with results as the worker really publishes them. */
module Wiring {
  import opened Common
  import opened Streams
  import opened Queue
  import opened Invocation
  import P = Pipeline
  import D = Dispatcher
  import W = Worker

  // --- One poll of the worker ---

  function Polled(p: P.Setting, s: P.State, worker: string, fate: W.Fate): (r: P.State)
    requires P.WellFormed(s)
    ensures P.WellFormed(r)
  {
    var x := fate.execution;
    var fetched := P.Step(p, s, P.Fetch(worker));
    var published := P.Step(p, fetched, P.Publish(worker, "SUCCESS", x.exitCode, x.durationMs, "", fate.readable));
    P.Step(p, published, P.AckWork(worker, fate.ack))
  }

  lemma EmptyPoll(log: Log<Job>, worker: string)
    requires worker in log.groups && log.groups[worker].cursor == |log.entries|
    ensures Deliver(log, worker, 1) == log
  {
    var id, pending := log.groups[worker].cursor, log.groups[worker].pending;
    assert Range(id, id) == {} && pending + {} == pending;
    assert log.groups[worker := Group(id, pending)] == log.groups;
  }

  lemma ReadDelivers(d: D.State, worker: string)
    requires D.WellFormed(d.streams) && worker in D.WorkerLog(d.streams, worker).groups
    ensures var log, name := D.WorkerLog(d.streams, worker), D.WorkerStream(worker);
            var r := D.Step(d, D.Other(name, Read(worker, 1)));
            && log.groups[worker].cursor <= |log.entries|
            && r.streams == d.streams[name := Deliver(log, worker, 1)]
            && worker in D.WorkerLog(r.streams, worker).groups
  {
  }

  lemma FetchPolls(p: P.Setting, s: P.State, worker: string)
    requires P.WellFormed(s) && worker !in s.workers && worker in D.WorkerLog(s.dispatcher.streams, worker).groups
    ensures var log := D.WorkerLog(s.dispatcher.streams, worker);
            var id, r := log.groups[worker].cursor, P.Step(p, s, P.Fetch(worker));
            && id <= |log.entries| && r.results == s.results
            && worker in D.WorkerLog(r.dispatcher.streams, worker).groups
            && (id == |log.entries| ==> r == s)
            && (id < |log.entries| ==>
                  && r.dispatcher.streams == s.dispatcher.streams[D.WorkerStream(worker) := Deliver(log, worker, 1)]
                  && worker in r.workers
                  && r.workers[worker] == if log.entries[id].None? then P.Reporting(id)
                                          else P.Running(id, log.entries[id].value))
  {
    var log := D.WorkerLog(s.dispatcher.streams, worker);
    ReadDelivers(s.dispatcher, worker);
    hide Deliver, D.WellFormed, D.Step, D.WorkerLog;
    assert P.CanFetch(s, worker) <==> log.groups[worker].cursor < |log.entries|;
    assert P.Step(p, s, P.Fetch(worker)) == P.Fetched(s, worker);
    hide P.Step, P.CanFetch, P.LedgerOf;
  }

  lemma PublishAndAcknowledge(p: P.Setting, s: P.State, worker: string, fate: W.Fate)
    requires P.WellFormed(s) && worker in s.workers && worker in D.WorkerLog(s.dispatcher.streams, worker).groups
    ensures var x, phase := fate.execution, s.workers[worker];
            var e := P.Publish(worker, "SUCCESS", x.exitCode, x.durationMs, "", fate.readable);
            var r := P.Step(p, P.Step(p, s, e), P.AckWork(worker, fate.ack));
            && r.dispatcher.streams == AckIn(s.dispatcher.streams, D.WorkerStream(worker), worker, phase.id, fate.ack)
            && r.results == s.results + (if phase.Reporting? then [] else
                              [if fate.readable then Some(W.ResultOf(phase.job, x)) else None])
  {
  }

  /** Taken together, the worker's three steps are one poll of the stream that the dispatcher
      writes for it, provided its result is published. */
  lemma PollIsItsSteps(p: P.Setting, s: P.State, worker: string, fate: W.Fate, results: Logs<JobResult>)
    requires P.WellFormed(s) && worker !in s.workers && worker in D.WorkerLog(s.dispatcher.streams, worker).groups
    requires fate.read.Done? && fate.publish.Done? && LogOf(results, RESULT_STREAM).entries == s.results
    ensures var r := Polled(p, s, worker, fate);
            var (jobs, after) := W.PollOnce(s.dispatcher.streams, results, D.WorkerStream(worker), worker, fate);
            && LogOf(jobs, D.WorkerStream(worker)) == D.WorkerLog(r.dispatcher.streams, worker)
            && (forall name | name != D.WorkerStream(worker) :: LogOf(jobs, name) == LogOf(r.dispatcher.streams, name))
            && LogOf(after, RESULT_STREAM).entries == r.results
  {
    hide P.Step, P.WellFormed, D.WellFormed, D.WorkerStream, Deliver, W.ResultOf;
    var log := D.WorkerLog(s.dispatcher.streams, worker);
    FetchPolls(p, s, worker);
    if log.groups[worker].cursor == |log.entries| {
      EmptyPoll(log, worker);
      NothingToReport(p, s, worker, fate);
    } else {
      PublishAndAcknowledge(p, P.Step(p, s, P.Fetch(worker)), worker, fate);
    }
  }

  lemma NothingToReport(p: P.Setting, s: P.State, worker: string, fate: W.Fate)
    requires P.WellFormed(s) && worker !in s.workers
    ensures var x := fate.execution;
            P.Step(p, s, P.Publish(worker, "SUCCESS", x.exitCode, x.durationMs, "", fate.readable)) == s
    ensures P.Step(p, s, P.AckWork(worker, fate.ack)) == s
  {
  }

  // --- One call of ProcessResult ---

  /** Taken together, the steps of the handler leave what `Service.ProcessResult` leaves: the
      status, the armed timer and the dead letter. */
  lemma HandlingIsItsSteps(p: P.Setting, s: P.State, draw: real)
    requires P.WellFormed(s) && s.handler.Deciding?
    ensures var result := s.handler.result;
            var r := P.Step(p, P.Step(p, P.Step(p, s, P.Settle(draw)), P.Mark), P.Bury);
            var letters := P.LedgerOf(s, result.invocationId).letters;
            && r.handler.Ready? && r.dispatcher == s.dispatcher && r.results == s.results
            && match Decide(p.policy, p.source, result, draw)
               case Succeed =>
                 && r.statuses == UpdatedIn(s.statuses, result.invocationId, SUCCESS, Done)
                 && r.timers == s.timers && P.LedgerOf(r, result.invocationId).letters == letters
               case Retry(job, _) =>
                 && r.statuses == UpdatedIn(s.statuses, result.invocationId, RETRYING, Done)
                 && r.timers == s.timers + [Some(job)] && P.LedgerOf(r, result.invocationId).letters == letters
               case GiveUp(job) =>
                 && r.statuses == UpdatedIn(s.statuses, result.invocationId, FAILED, Done)
                 && r.timers == s.timers && P.LedgerOf(r, result.invocationId).letters == letters + [job.retryCount]
  {
    var id := s.handler.result.invocationId;
    assert Decide(p.policy, p.source, s.handler.result, draw).GiveUp? ==>
             Decide(p.policy, p.source, s.handler.result, draw).job.invocationId == id;
    HandlerSteps(p, s, draw);
    hide P.Step, P.WellFormed, Decide, Updated;
  }

  lemma HandlerSteps(p: P.Setting, s: P.State, draw: real)
    requires P.WellFormed(s)
    ensures P.Step(p, s, P.Settle(draw)) == P.Settled(p, s, draw)
    ensures P.WellFormed(P.Marked(P.Settled(p, s, draw)))
    ensures P.Step(p, P.Settled(p, s, draw), P.Mark) == P.Marked(P.Settled(p, s, draw))
    ensures P.Step(p, P.Marked(P.Settled(p, s, draw)), P.Bury) == P.Buried(P.Marked(P.Settled(p, s, draw)))
  {
    hide P.Settled, P.Marked, P.Buried, P.WellFormed;
    var settled := P.Step(p, s, P.Settle(draw));
    var marked := P.Step(p, settled, P.Mark);
    assert P.WellFormed(settled) && P.WellFormed(marked);
  }

  // --- What the worker really publishes ---

  predicate AsTheWorkerPublishes(e: P.Event) { e.Publish? ==> e.status == "SUCCESS" }

  ghost predicate NothingFails(s: P.State) {
    && (forall k | 0 <= k < |s.results| && s.results[k].Some? :: Succeeded(s.results[k].value))
    && (s.handler.Deciding? ==> Succeeded(s.handler.result))
    && !s.handler.Marking? && !s.handler.Burying?
    && (forall id | id in s.statuses :: s.statuses[id].PENDING? || s.statuses[id].SUCCESS?)
    && (forall id | id in s.ledgers :: s.ledgers[id].letters == [])
    && s.timers == []
  }

  lemma StepKeepsNothingFails(p: P.Setting, s: P.State, e: P.Event)
    requires P.WellFormed(s) && NothingFails(s) && AsTheWorkerPublishes(e)
    ensures NothingFails(P.Step(p, s, e))
  {
    hide D.WellFormed, D.Step, D.WorkerLog, D.JobLog;
    if e.Create? || e.Enqueue? || e.Dispatch? || e.Fetch? || e.AckWork? || e.Fire? {
      hide Decide, Succeeded, Updated;
    }
  }

  /** With results as the worker publishes them, no run of the pipeline ever marks an invocation
      RETRYING or FAILED, arms a timer or writes a dead letter, be the exit codes what they may. */
  lemma {:induction false} NothingEverFails(p: P.Setting, events: seq<P.Event>)
    requires forall i | 0 <= i < |events| :: AsTheWorkerPublishes(events[i])
    ensures NothingFails(P.Run(p, events))
  {
    if events == [] {
    } else {
      NothingEverFails(p, events[..|events| - 1]);
      StepKeepsNothingFails(p, P.Run(p, events[..|events| - 1]), events[|events| - 1]);
    }
  }
}
