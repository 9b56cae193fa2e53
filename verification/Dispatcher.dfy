/** The dispatcher as a protocol over job streams. When its calls fail or it stops halfway, no
    message disappears (`NothingIsLost`); but nobody reads a pending message again, so which jobs
    can still be run, and which are run twice, is another matter (module `Lineage`). */
module Dispatcher {
  import opened Common
  import opened Streams
  import opened Queue

  const GROUP: string := "scheduler"

  function WorkerStream(worker: string): (name: string)
    ensures |name| == 17 + |worker| && name[17..] == worker
    ensures name != JOB_STREAM && JOB_STREAM != name
  {
    var name := "nimbusrun:worker:" + worker;
    assert name[10] == 'w' && JOB_STREAM[10] == 'j';
    name
  }

  function JobLog(streams: Logs<Job>): Log<Job> { LogOf(streams, JOB_STREAM) }

  function WorkerLog(streams: Logs<Job>, worker: string): Log<Job> { LogOf(streams, WorkerStream(worker)) }

  // --- Sub-steps of a dispatch, with faults and stops between them ---

  /** Where the dispatcher is in `dispatchOneJob`: it read a job, chose a worker for it, must
      put it back, or handed it to the worker and still has to acknowledge it. */
  datatype Phase =
    | Idle
    | Holding(id: nat, job: Job)
    | Assigned(id: nat, job: Job, worker: string)
    | Bounced(id: nat, job: Job)
    | Forwarded(id: nat)

  datatype Place = Place(worker: string, position: nat)

  /** `accepted` and `copies` are history: the messages whose enqueueing was reported to succeed,
      with their jobs, and where the dispatcher stored the copy of a message, told so or not. */
  datatype State = State(streams: Logs<Job>, phase: Phase, accepted: map<nat, Job>, copies: map<nat, Place>)

  datatype Event =
    | Accept(job: Job, outcome: Outcome)
    | Dequeue(outcome: Outcome)
    | Select(choice: Option<string>)
    | Forward(outcome: Outcome)
    | Requeue(outcome: Outcome)
    | Confirm(outcome: Outcome)
    | Stop
    | Other(stream: string, op: Op<Job>)

  /** What anyone else may do to the streams: read, acknowledge and create groups, except as
      the dispatcher's group. */
  predicate Foreign(stream: string, op: Op<Job>) { !op.Add? && (stream == JOB_STREAM ==> op.group != GROUP) }

  ghost predicate WellFormed(streams: Logs<Job>) { ValidLogs(streams) && GROUP in JobLog(streams).groups }

  /** An event that the phase does not allow changes nothing. */
  function Step(s: State, e: Event): (r: State)
    requires WellFormed(s.streams)
    ensures WellFormed(r.streams)
  {
    match e
    case Accept(job, outcome) =>
      s.(streams := AddTo(s.streams, JOB_STREAM, Some(job), outcome),
         accepted := if outcome.Done? then s.accepted[|JobLog(s.streams).entries| := job] else s.accepted)
    case Dequeue(outcome) =>
      if !s.phase.Idle? then s else
      var log := JobLog(s.streams);
      var id := log.groups[GROUP].cursor;
      s.(streams := ReadIn(s.streams, JOB_STREAM, GROUP, 1, outcome),
         phase := if outcome.Done? && id < |log.entries| && log.entries[id].Some?
                  then Holding(id, log.entries[id].value) else Idle)
    case Select(choice) =>
      if !s.phase.Holding? then s else
      s.(phase := if choice.None? then Bounced(s.phase.id, s.phase.job)
                  else Assigned(s.phase.id, s.phase.job, choice.value))
    case Forward(outcome) =>
      if !s.phase.Assigned? then s else
      var place := Place(s.phase.worker, |WorkerLog(s.streams, s.phase.worker).entries|);
      s.(streams := AddTo(s.streams, WorkerStream(s.phase.worker), Some(s.phase.job), outcome),
         phase := if outcome.Done? then Forwarded(s.phase.id) else Bounced(s.phase.id, s.phase.job),
         copies := if outcome.Applied() then s.copies[s.phase.id := place] else s.copies)
    case Requeue(outcome) =>
      if !s.phase.Bounced? then s else
      s.(streams := AddTo(s.streams, JOB_STREAM, Some(s.phase.job), outcome), phase := Idle)
    case Confirm(outcome) =>
      if !s.phase.Forwarded? then s else
      s.(streams := AckIn(s.streams, JOB_STREAM, GROUP, s.phase.id, outcome), phase := Idle)
    case Stop => s.(phase := Idle)
    case Other(stream, op) =>
      if !Foreign(stream, op) then s else s.(streams := s.streams[stream := Apply(LogOf(s.streams, stream), op)])
  }

  const START: State := State(map[JOB_STREAM := CreateGroup(EmptyLog(), GROUP)], Idle, map[], map[])

  function Run(events: seq<Event>): (r: State)
    ensures WellFormed(r.streams)
  {
    if events == [] then START else Step(Run(events[..|events| - 1]), events[|events| - 1])
  }

  /** The message at `id` was handed over: its copy is where the dispatcher noted it. */
  ghost predicate Copied(s: State, id: nat) {
    && id in s.copies
    && id < |JobLog(s.streams).entries|
    && var place, entries := s.copies[id], WorkerLog(s.streams, s.copies[id].worker).entries;
       && place.position < |entries|
       && entries[place.position] == JobLog(s.streams).entries[id]
  }

  ghost predicate CopiesHold(s: State)
    requires WellFormed(s.streams)
  {
    && (forall id | id in s.copies :: Copied(s, id))
    && (forall a, b | a in s.copies && b in s.copies && a != b :: s.copies[a] != s.copies[b])
  }

  /** Every message handed out is pending or was copied, and what the dispatcher has in hand is
      pending and, before it is forwarded, not yet copied. */
  ghost predicate Tracked(s: State)
    requires WellFormed(s.streams)
  {
    var log := JobLog(s.streams);
    var cursor, pending := log.groups[GROUP].cursor, log.groups[GROUP].pending;
    && (forall id: nat | id < cursor :: id in pending || id in s.copies)
    && (forall id | id in s.copies :: id < cursor)
    && (s.phase.Holding? || s.phase.Assigned? || s.phase.Bounced? ==>
          && s.phase.id < cursor && s.phase.id in pending && (s.phase.Bounced? || s.phase.id !in s.copies)
          && log.entries[s.phase.id] == Some(s.phase.job))
    && (s.phase.Forwarded? ==> s.phase.id in s.copies)
  }

  /** Each accepted job is stored in its message. */
  ghost predicate AcceptedStored(s: State) {
    var entries := JobLog(s.streams).entries;
    forall id | id in s.accepted :: id < |entries| && entries[id] == Some(s.accepted[id])
  }

  ghost predicate NotLost(s: State) {
    WellFormed(s.streams) && CopiesHold(s) && Tracked(s) && AcceptedStored(s)
  }

  /** Streams only grow, at their end. */
  lemma StepExtends(s: State, e: Event, name: string)
    requires WellFormed(s.streams)
    ensures LogOf(s.streams, name).entries <= LogOf(Step(s, e).streams, name).entries
  {
  }

  lemma StepKeepsAccepted(s: State, e: Event)
    requires WellFormed(s.streams) && AcceptedStored(s)
    ensures AcceptedStored(Step(s, e))
  {
    StepExtends(s, e, JOB_STREAM);
  }

  lemma StepKeepsTracked(s: State, e: Event)
    requires WellFormed(s.streams) && Tracked(s)
    ensures Tracked(Step(s, e))
  {
  }

  lemma StepKeepsCopied(s: State, e: Event, id: nat)
    requires WellFormed(s.streams) && Tracked(s) && Copied(s, id)
    ensures Copied(Step(s, e), id)
  {
    StepExtends(s, e, JOB_STREAM);
    StepExtends(s, e, WorkerStream(s.copies[id].worker));
    var r := Step(s, e);
    assert id in r.copies && r.copies[id] == s.copies[id];
  }

  /** The only step that copies is a forward that takes effect; it takes a new place. */
  lemma ForwardCopies(s: State, outcome: Outcome)
    requires WellFormed(s.streams) && Tracked(s) && CopiesHold(s) && s.phase.Assigned? && outcome.Applied()
    ensures CopiesHold(Step(s, Forward(outcome)))
  {
    var r, id := Step(s, Forward(outcome)), s.phase.id;
    forall other | other in r.copies
      ensures Copied(r, other)
      ensures other != id ==> r.copies[other] != r.copies[id]
    {
      if other != id {
        assert Copied(s, other);
        StepKeepsCopied(s, Forward(outcome), other);
      }
    }
  }

  lemma StepKeepsCopies(s: State, e: Event)
    requires WellFormed(s.streams) && Tracked(s) && CopiesHold(s)
    ensures CopiesHold(Step(s, e))
  {
    if s.phase.Assigned? && e.Forward? && e.outcome.Applied() {
      ForwardCopies(s, e.outcome);
    } else {
      var r := Step(s, e);
      assert r.copies == s.copies;
      forall id | id in r.copies ensures Copied(r, id) {
        StepKeepsCopied(s, e, id);
      }
    }
  }

  lemma StepKeepsAll(s: State, e: Event)
    requires NotLost(s)
    ensures NotLost(Step(s, e))
  {
    hide Tracked, CopiesHold, AcceptedStored;
    StepKeepsTracked(s, e);
    StepKeepsCopies(s, e);
    StepKeepsAccepted(s, e);
  }

  lemma {:induction false} RunKeepsAll(events: seq<Event>)
    ensures NotLost(Run(events))
  {
    if events == [] {
    } else {
      RunKeepsAll(events[..|events| - 1]);
      StepKeepsAll(Run(events[..|events| - 1]), events[|events| - 1]);
    }
  }

  /** The message is not handed out yet, or pending, or it was handed over to a worker. */
  ghost predicate Kept(s: State, id: nat) {
    var log := JobLog(s.streams);
    GROUP in log.groups &&
    (log.groups[GROUP].cursor <= id < |log.entries| || id in log.groups[GROUP].pending || Copied(s, id))
  }

  /** Whatever calls fail or go unreported, and wherever the dispatcher stops: each accepted job
      has a message of its own, which is undelivered, pending, or copied into the stream of some
      worker; and every acknowledged message was copied, each to a place of its own. */
  lemma {:induction false} NothingIsLost(events: seq<Event>)
    ensures var s := Run(events);
            && AcceptedStored(s) && (forall id | id in s.accepted :: Kept(s, id))
            && (forall id: nat | id < JobLog(s.streams).groups[GROUP].cursor
                                 && id !in JobLog(s.streams).groups[GROUP].pending :: Copied(s, id))
            && (forall a, b | a in s.copies && b in s.copies && a != b :: s.copies[a] != s.copies[b])
  {
    RunKeepsAll(events);
  }

  lemma AcceptedGrows(s: State, e: Event)
    requires WellFormed(s.streams) && AcceptedStored(s)
    ensures |Step(s, e).accepted| == |s.accepted| + (if e.Accept? && e.outcome.Done? then 1 else 0)
  {
    if e.Accept? && e.outcome.Done? {
      var end := |JobLog(s.streams).entries|;
      assert end !in s.accepted;
      assert Step(s, e).accepted == s.accepted[end := e.job];
      hide *;
    } else {
      assert Step(s, e).accepted == s.accepted;
    }
  }

  /** Every enqueueing that is reported to succeed is accepted under a number of its own. */
  lemma {:induction false} AcceptanceIsCounted(events: seq<Event>)
    ensures |Run(events).accepted| == Acceptances(events)
  {
    if events == [] {
    } else {
      var init := events[..|events| - 1];
      AcceptanceIsCounted(init);
      RunKeepsAll(init);
      AcceptedGrows(Run(init), events[|events| - 1]);
      hide Step;
    }
  }

  function Acceptances(events: seq<Event>): nat {
    if events == [] then 0 else
    var last := events[|events| - 1];
    Acceptances(events[..|events| - 1]) + (if last.Accept? && last.outcome.Done? then 1 else 0)
  }

  // --- Whole dispatches ---

  datatype Verdict =
    | QueueFailure
    | NoWork
    | Skipped(id: nat)
    | Requeued(id: nat, job: Job)
    | Refused(id: nat, job: Job)
    | Dispatched(id: nat, job: Job, worker: string)

  /** How the calls of one dispatch to Redis end. */
  datatype Fates = Fates(read: Outcome, forward: Outcome, requeue: Outcome, ack: Outcome)

  const ALL_DONE: Fates := Fates(Done, Done, Done, Done)

  /** What remains to be done for a job that was read. */
  function Finish(streams: Logs<Job>, id: nat, job: Job, choice: Option<string>, f: Fates): (r: Logs<Job>)
    ensures WellFormed(streams) ==> WellFormed(r)
  {
    if choice.None? then AddTo(streams, JOB_STREAM, Some(job), f.requeue) else
    var sent := AddTo(streams, WorkerStream(choice.value), Some(job), f.forward);
    if f.forward.Done? then AckIn(sent, JOB_STREAM, GROUP, id, f.ack) else AddTo(sent, JOB_STREAM, Some(job), f.requeue)
  }

  /** One uninterrupted dispatch, given the worker that the selection comes up with. */
  function DispatchOnce(streams: Logs<Job>, choice: Option<string>, f: Fates): (r: (Logs<Job>, Verdict))
    requires ValidLogs(streams)
    ensures WellFormed(streams) ==> WellFormed(r.0)
  {
    var log, read := JobLog(streams), ReadIn(streams, JOB_STREAM, GROUP, 1, f.read);
    if !f.read.Done? || GROUP !in log.groups then (read, QueueFailure) else
    var id := log.groups[GROUP].cursor;
    if id == |log.entries| then (read, NoWork) else
    if log.entries[id].None? then (read, Skipped(id)) else
    var job := log.entries[id].value;
    (Finish(read, id, job, choice, f),
     if choice.None? then Requeued(id, job)
     else if f.forward.Done? then Dispatched(id, job, choice.value)
     else Refused(id, job))
  }

  function Perform(s: State, events: seq<Event>): (r: State)
    requires WellFormed(s.streams)
    ensures WellFormed(r.streams)
  {
    if events == [] then s else Step(Perform(s, events[..|events| - 1]), events[|events| - 1])
  }

  function Rest(s: State, choice: Option<string>, f: Fates): State
    requires WellFormed(s.streams)
  {
    Step(Step(Step(Step(s, Select(choice)), Forward(f.forward)), Requeue(f.requeue)), Confirm(f.ack))
  }

  lemma RestWithoutJob(s: State, choice: Option<string>, f: Fates)
    requires WellFormed(s.streams) && s.phase.Idle?
    ensures Rest(s, choice, f) == s
  {
    assert Step(s, Select(choice)) == s;
    assert Step(s, Forward(f.forward)) == s;
    assert Step(s, Requeue(f.requeue)) == s;
    assert Step(s, Confirm(f.ack)) == s;
    hide Step;
  }

  lemma RestWithJob(s: State, choice: Option<string>, f: Fates)
    requires WellFormed(s.streams) && s.phase.Holding?
    ensures var r := Rest(s, choice, f);
            r.phase.Idle? && r.streams == Finish(s.streams, s.phase.id, s.phase.job, choice, f)
  {
    hide AddTo, AckIn, LogOf;
    var chosen := Step(s, Select(choice));
    var sent := Step(chosen, Forward(f.forward));
    var back := Step(sent, Requeue(f.requeue));
    if choice.None? {
      assert sent == chosen;
      assert back.phase.Idle?;
    } else if f.forward.Done? {
      assert back == sent;
    } else {
      assert back.phase.Idle?;
    }
  }

  function SubSteps(choice: Option<string>, f: Fates): seq<Event> {
    [Dequeue(f.read), Select(choice), Forward(f.forward), Requeue(f.requeue), Confirm(f.ack)]
  }

  /** An uninterrupted dispatch is its sub-steps in a row. */
  lemma {:induction false} DispatchOnceIsItsSteps(s: State, choice: Option<string>, f: Fates)
    requires WellFormed(s.streams) && s.phase.Idle?
    ensures var r := Perform(s, SubSteps(choice, f));
            r.phase.Idle? && r.streams == DispatchOnce(s.streams, choice, f).0
  {
    hide Perform, Rest, AddTo, AckIn, ReadIn;
    PerformFive(s, choice, f);
    var read := Step(s, Dequeue(f.read));
    if read.phase.Idle? {
      RestWithoutJob(read, choice, f);
    } else {
      RestWithJob(read, choice, f);
    }
  }

  lemma PerformFive(s: State, choice: Option<string>, f: Fates)
    requires WellFormed(s.streams)
    ensures Perform(s, SubSteps(choice, f)) == Rest(Step(s, Dequeue(f.read)), choice, f)
  {
    hide Step;
    var a, b, c, d, e := Dequeue(f.read), Select(choice), Forward(f.forward), Requeue(f.requeue), Confirm(f.ack);
    assert [a, b, c, d, e][..4] == [a, b, c, d];
    assert [a, b, c, d][..3] == [a, b, c];
    assert [a, b, c][..2] == [a, b];
    assert [a, b][..1] == [a];
    assert Perform(s, [a]) == Step(s, a);
    assert Perform(s, [a, b]) == Step(Step(s, a), b);
    assert Perform(s, [a, b, c]) == Step(Step(Step(s, a), b), c);
  }
}
