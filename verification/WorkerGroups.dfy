/** Workers and the groups on their streams: no job is acknowledged before its result is out, and
    no job is taken at all unless somebody creates the group. */
module WorkerGroups {
  import opened Common
  import opened Streams
  import opened Queue
  import opened Invocation
  import P = Pipeline
  import D = Dispatcher

  // --- Until a result is published ---

  /** What a worker has in hand is pending for it; while it runs a job, that message holds it. */
  ghost predicate Held(s: P.State, worker: string) {
    worker in s.workers ==>
      var log, id := D.WorkerLog(s.dispatcher.streams, worker), s.workers[worker].id;
      && worker in log.groups && id in log.groups[worker].pending
      && (s.workers[worker].Running? ==> id < |log.entries| && log.entries[id] == Some(s.workers[worker].job))
  }

  /** The group and the messages of a worker's stream stay as they are. */
  ghost predicate Unread(d: D.State, r: D.State, worker: string) {
    var before, after := D.WorkerLog(d.streams, worker), D.WorkerLog(r.streams, worker);
    before.entries <= after.entries &&
    (worker in before.groups ==> worker in after.groups && after.groups[worker] == before.groups[worker])
  }

  lemma DispatcherLeavesUnread(d: D.State, e: D.Event, worker: string)
    requires D.WellFormed(d.streams) && (P.Allowed(e) || e.Accept?)
    ensures Unread(d, D.Step(d, e), worker)
  {
  }

  lemma OthersLeaveUnread(d: D.State, op: Op<Job>, other: string, worker: string)
    requires D.WellFormed(d.streams) && other != worker
    ensures Unread(d, D.Step(d, D.Other(D.WorkerStream(other), op)), worker)
  {
    assert D.WorkerStream(other)[17..] == other && D.WorkerStream(worker)[17..] == worker;
  }

  lemma OwnReadHolds(d: D.State, worker: string)
    requires D.WellFormed(d.streams)
    ensures var log, r := D.WorkerLog(d.streams, worker), D.Step(d, D.Other(D.WorkerStream(worker), Read(worker, 1)));
            worker in log.groups && log.groups[worker].cursor < |log.entries| ==>
              && worker in D.WorkerLog(r.streams, worker).groups
              && log.groups[worker].cursor in D.WorkerLog(r.streams, worker).groups[worker].pending
              && D.WorkerLog(r.streams, worker).entries == log.entries
  {
  }

  lemma OthersLeaveStream(p: P.Setting, s: P.State, e: P.Event, worker: string)
    requires P.WellFormed(s) && ((e.Fetch? || e.AckWork?) ==> e.worker != worker)
    ensures Unread(s.dispatcher, P.Step(p, s, e).dispatcher, worker)
  {
    var d := s.dispatcher;
    assert Unread(d, d, worker);
    hide D.Step, Unread, D.WorkerLog, D.WorkerStream, D.WellFormed, P.LedgerOf, P.Noted, Decide;
    match e {
      case Enqueue(id) => if id in s.invoking { DispatcherLeavesUnread(d, D.Accept(s.invoking[id], Done), worker); }
      case Fire(k) => if k < |s.timers| && s.timers[k].Some? {
        DispatcherLeavesUnread(d, D.Accept(s.timers[k].value, Done), worker);
      }
      case Dispatch(event) => if P.Allowed(event) { DispatcherLeavesUnread(d, event, worker); }
      case Fetch(w) => OthersLeaveUnread(d, Read(w, 1), w, worker);
      case AckWork(w, _) => if w in s.workers {
        OthersLeaveUnread(d, Op.Acknowledge(w, s.workers[w].id), w, worker);
      }
      case _ =>
    }
  }

  /** Only a worker's own reading gives it a message, and it never gets its job back. */
  lemma OthersLeaveWork(p: P.Setting, s: P.State, e: P.Event, worker: string)
    requires P.WellFormed(s) && ((e.Fetch? || e.AckWork?) ==> e.worker != worker)
    ensures var r := P.Step(p, s, e);
            worker in r.workers ==>
              && worker in s.workers && r.workers[worker].id == s.workers[worker].id
              && (r.workers[worker].Running? ==> r.workers[worker] == s.workers[worker])
  {
    hide D.Step, D.WorkerLog, D.WellFormed, Decide, P.LedgerOf;
  }

  lemma OwnFetchHolds(p: P.Setting, s: P.State, worker: string)
    requires P.WellFormed(s) && Held(s, worker)
    ensures Held(P.Step(p, s, P.Fetch(worker)), worker)
  {
    OwnReadHolds(s.dispatcher, worker);
    hide D.Step, D.WorkerLog, D.WellFormed, P.LedgerOf;
  }

  lemma OwnAckDrops(p: P.Setting, s: P.State, worker: string, outcome: Outcome)
    requires P.WellFormed(s) && Held(s, worker)
    ensures Held(P.Step(p, s, P.AckWork(worker, outcome)), worker)
  {
    hide D.Step, D.WorkerLog, D.WellFormed;
  }

  lemma StepKeepsHeld(p: P.Setting, s: P.State, e: P.Event, worker: string)
    requires P.WellFormed(s) && Held(s, worker)
    ensures Held(P.Step(p, s, e), worker)
  {
    hide P.Step, D.WorkerLog;
    if e.Fetch? && e.worker == worker {
      OwnFetchHolds(p, s, worker);
    } else if e.AckWork? && e.worker == worker {
      OwnAckDrops(p, s, worker, e.outcome);
    } else {
      OthersLeaveStream(p, s, e, worker);
      OthersLeaveWork(p, s, e, worker);
    }
  }

  /** Over all runs: until a worker has published the result of a job, the job's message is not
      acknowledged. */
  lemma {:induction false} PublishedBeforeAcknowledged(p: P.Setting, events: seq<P.Event>, worker: string)
    ensures Held(P.Run(p, events), worker)
  {
    if events == [] {
    } else {
      PublishedBeforeAcknowledged(p, events[..|events| - 1], worker);
      StepKeepsHeld(p, P.Run(p, events[..|events| - 1]), events[|events| - 1], worker);
    }
  }

  // --- Groups of workers ---

  /** Somebody creates the worker's group on its stream; the repository has no code that does. */
  function Joins(worker: string): P.Event { P.Dispatch(D.Other(D.WorkerStream(worker), Create(worker))) }

  ghost predicate Joined(events: seq<P.Event>, worker: string) {
    exists i | 0 <= i < |events| :: events[i] == Joins(worker)
  }

  predicate HasGroup(d: D.State, worker: string) { worker in D.WorkerLog(d.streams, worker).groups }

  lemma DispatcherCreatesNoGroup(d: D.State, e: D.Event, worker: string)
    requires D.WellFormed(d.streams) && (P.Allowed(e) || e.Accept?)
    ensures HasGroup(D.Step(d, e), worker) <==>
            HasGroup(d, worker) || e == D.Other(D.WorkerStream(worker), Create(worker))
  {
  }

  lemma ReadersCreateNoGroup(d: D.State, op: Op<Job>, other: string, worker: string)
    requires D.WellFormed(d.streams) && (op.Read? || op.Acknowledge?)
    ensures HasGroup(D.Step(d, D.Other(D.WorkerStream(other), op)), worker) <==> HasGroup(d, worker)
  {
    assert D.WorkerStream(other)[17..] == other && D.WorkerStream(worker)[17..] == worker;
  }

  lemma AcceptCreatesNoGroup(s: P.State, job: Job, worker: string)
    requires P.WellFormed(s)
    ensures HasGroup(P.Accept(s, job).dispatcher, worker) <==> HasGroup(s.dispatcher, worker)
  {
    DispatcherCreatesNoGroup(s.dispatcher, D.Accept(job, Done), worker);
    hide D.Step, HasGroup;
  }

  lemma StepCreatesGroup(p: P.Setting, s: P.State, e: P.Event, worker: string)
    requires P.WellFormed(s)
    ensures HasGroup(P.Step(p, s, e).dispatcher, worker) <==> HasGroup(s.dispatcher, worker) || e == Joins(worker)
  {
    var d := s.dispatcher;
    assert e == Joins(worker) ==> P.Allowed(e.event);
    hide D.Step, HasGroup, D.WorkerLog, D.WorkerStream, D.WellFormed, P.Accept, P.Noted, P.LedgerOf, Decide;
    match e {
      case Enqueue(id) => if id in s.invoking { AcceptCreatesNoGroup(s, s.invoking[id], worker); }
      case Fire(k) => if k < |s.timers| && s.timers[k].Some? { AcceptCreatesNoGroup(s, s.timers[k].value, worker); }
      case Dispatch(event) => if P.Allowed(event) { DispatcherCreatesNoGroup(d, event, worker); }
      case Fetch(w) => FetchCreatesNoGroup(s, w, worker);
      case AckWork(w, _) => if w in s.workers {
        ReadersCreateNoGroup(d, Op.Acknowledge(w, s.workers[w].id), w, worker);
      }
      case _ => OthersLeaveDispatcher(p, s, e);
    }
  }

  lemma FetchCreatesNoGroup(s: P.State, w: string, worker: string)
    requires P.WellFormed(s)
    ensures HasGroup(P.Fetched(s, w).dispatcher, worker) <==> HasGroup(s.dispatcher, worker)
  {
    ReadersCreateNoGroup(s.dispatcher, Read(w, 1), w, worker);
    hide D.Step, HasGroup, D.WellFormed;
  }

  lemma OthersLeaveDispatcher(p: P.Setting, s: P.State, e: P.Event)
    requires P.WellFormed(s) && !e.Enqueue? && !e.Fire? && !e.Dispatch? && !e.Fetch? && !e.AckWork?
    ensures P.Step(p, s, e).dispatcher == s.dispatcher
  {
    hide D.WellFormed, Decide, Updated;
  }

  lemma JoinedStep(events: seq<P.Event>, worker: string)
    requires events != []
    ensures Joined(events, worker) <==>
            Joined(events[..|events| - 1], worker) || events[|events| - 1] == Joins(worker)
  {
    hide Joins;
    var init := events[..|events| - 1];
    if i :| 0 <= i < |init| && init[i] == Joins(worker) {
      assert events[i] == Joins(worker);
    }
    if i :| 0 <= i < |events| && events[i] == Joins(worker) {
      assert i < |init| ==> init[i] == Joins(worker);
    }
  }

  /** Over all runs: a worker's stream has the worker's group exactly if somebody created it, and
      no worker takes a job before that. */
  lemma {:induction false} WorkersNeedTheirGroup(p: P.Setting, events: seq<P.Event>, worker: string)
    ensures HasGroup(P.Run(p, events).dispatcher, worker) <==> Joined(events, worker)
    ensures worker in P.Run(p, events).workers ==> Joined(events, worker)
  {
    hide P.Step, D.WorkerLog, Joined, Joins;
    if events == [] {
      NoGroupAtTheStart(worker);
    } else {
      var init := events[..|events| - 1];
      WorkersNeedTheirGroup(p, init, worker);
      JoinedStep(events, worker);
      hide HasGroup;
      StepCreatesGroup(p, P.Run(p, init), events[|events| - 1], worker);
    }
    PublishedBeforeAcknowledged(p, events, worker);
    if worker in P.Run(p, events).workers {
      HeldHasGroup(P.Run(p, events), worker);
    }
  }

  lemma NoGroupAtTheStart(worker: string)
    ensures !HasGroup(P.START.dispatcher, worker) && !Joined([], worker)
  {
  }

  lemma HeldHasGroup(s: P.State, worker: string)
    requires Held(s, worker) && worker in s.workers
    ensures HasGroup(s.dispatcher, worker)
  {
  }

  /** Nothing was ever run, and no result is there. */
  ghost predicate NothingRan(s: P.State) {
    && s.workers == map[] && s.results == [] && s.handler.Ready?
    && (forall id :: P.LedgerOf(s, id).runs == 0)
    && (forall id | id in s.statuses :: s.statuses[id].PENDING?)
  }

  lemma StepKeepsNothingRan(p: P.Setting, s: P.State, e: P.Event)
    requires P.WellFormed(s) && NothingRan(s)
    requires forall worker :: !HasGroup(s.dispatcher, worker)
    ensures NothingRan(P.Step(p, s, e))
  {
    if e.Fetch? {
      assert !HasGroup(s.dispatcher, e.worker);
      assert P.Step(p, s, e) == s;
    } else {
      assert e.Publish? || e.AckWork? || e.Take? || e.Settle? || e.Mark? || e.Bury? ==> P.Step(p, s, e) == s;
      hide D.Step, D.WellFormed, Decide;
      forall id ensures P.LedgerOf(P.Step(p, s, e), id).runs == 0 {
        assert P.LedgerOf(s, id).runs == 0;
      }
    }
  }

  /** As wired, with nobody to create the groups of workers: no run of the pipeline ever executes
      a job or finishes an invocation. */
  lemma {:induction false} WithoutGroupsNothingRuns(p: P.Setting, events: seq<P.Event>)
    requires forall worker :: !Joined(events, worker)
    ensures NothingRan(P.Run(p, events))
  {
    if events == [] {
    } else {
      var init := events[..|events| - 1];
      hide P.Step, Joined, Joins, HasGroup, NothingRan;
      forall worker ensures !Joined(init, worker) && !HasGroup(P.Run(p, init).dispatcher, worker) {
        JoinedStep(events, worker);
        WorkersNeedTheirGroup(p, init, worker);
      }
      WithoutGroupsNothingRuns(p, init);
      StepKeepsNothingRan(p, P.Run(p, init), events[|events| - 1]);
    }
  }
}
