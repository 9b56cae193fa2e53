/** The scheduler as it is wired: nobody creates the group of its heartbeats. */
module Unwired {
  import opened Common
  import opened Streams
  import opened Queue
  import opened Heartbeats
  import opened Scheduler
  import D = Dispatcher
  import O = DispatchOrder

  /** A heartbeat is published or a batch of them read; a message arrives at the job stream; or the
      dispatcher runs at a time, and the selection comes up with `choice`. */
  datatype Event =
    | Heartbeats(event: HeartbeatEvent)
    | Arrive(body: Option<Job>)
    | Dispatch(now: int, choice: Option<Heartbeat>)

  datatype State = State(listener: Listener, course: O.Course)

  function HappeningOf(e: Event): O.Happening
    requires !e.Heartbeats?
  {
    if e.Arrive? then O.Arrive(e.body) else O.Dispatch(IdOf(e.choice))
  }

  function Step(s: State, e: Event): (r: State)
    requires s.listener.log.Valid() && D.WellFormed(s.course.streams)
    ensures r.listener.log.Valid() && D.WellFormed(r.course.streams)
  {
    if e.Heartbeats? then s.(listener := Hear(s.listener, e.event))
    else s.(course := O.Happen(s.course, HappeningOf(e)))
  }

  function Run(beats: Log<Heartbeat>, jobs: Logs<Job>, events: seq<Event>): (r: State)
    requires beats.Valid() && D.WellFormed(jobs)
    ensures r.listener.log.Valid() && D.WellFormed(r.course.streams)
  {
    if events == [] then State(Listener(beats, map[]), O.Course(jobs, []))
    else Step(Run(beats, jobs, events[..|events| - 1]), events[|events| - 1])
  }

  /** Every choice is one that `SelectWorker` can make of the workers known at that time. */
  ghost predicate RightlyChosen(beats: Log<Heartbeat>, jobs: Logs<Job>, events: seq<Event>)
    requires beats.Valid() && D.WellFormed(jobs)
  {
    forall i | 0 <= i < |events| && events[i].Dispatch? ::
      IsChoice(events[i].choice, Healthy(Run(beats, jobs, events[..i]).listener.workers, events[i].now))
  }

  function HeartbeatEvents(events: seq<Event>): seq<HeartbeatEvent> {
    if events == [] then [] else
    var last := events[|events| - 1];
    HeartbeatEvents(events[..|events| - 1]) + (if last.Heartbeats? then [last.event] else [])
  }

  function Happenings(events: seq<Event>): seq<O.Happening> {
    if events == [] then [] else
    var last := events[|events| - 1];
    Happenings(events[..|events| - 1]) + (if last.Heartbeats? then [] else [HappeningOf(last)])
  }

  /** Listening and dispatching run side by side. */
  lemma {:induction false} SideBySide(beats: Log<Heartbeat>, jobs: Logs<Job>, events: seq<Event>)
    requires beats.Valid() && D.WellFormed(jobs)
    ensures Run(beats, jobs, events) ==
            State(HearAll(beats, HeartbeatEvents(events)), O.Unfold(jobs, Happenings(events)))
  {
    hide Hear, O.Happen;
    if events == [] {
    } else {
      var init, last := events[..|events| - 1], events[|events| - 1];
      SideBySide(beats, jobs, init);
      if last.Heartbeats? {
        var before := HeartbeatEvents(init);
        assert HeartbeatEvents(events) == before + [last.event] && Happenings(events) == Happenings(init);
        assert (before + [last.event])[..|before|] == before;
      } else {
        var before := Happenings(init);
        assert Happenings(events) == before + [HappeningOf(last)] && HeartbeatEvents(events) == HeartbeatEvents(init);
        assert (before + [HappeningOf(last)])[..|before|] == before;
      }
    }
  }

  /** No worker is ever known, so none is ever chosen. */
  lemma {:induction false} NobodyIsChosen(beats: Log<Heartbeat>, jobs: Logs<Job>, events: seq<Event>)
    requires beats.Valid() && D.WellFormed(jobs) && HEARTBEAT_GROUP !in beats.groups
    requires RightlyChosen(beats, jobs, events)
    ensures forall i | 0 <= i < |Happenings(events)| && Happenings(events)[i].Dispatch? ::
              Happenings(events)[i].choice.None?
  {
    if events == [] {
    } else {
      var init, last := events[..|events| - 1], events[|events| - 1];
      forall i | 0 <= i < |init| && init[i].Dispatch?
        ensures IsChoice(init[i].choice, Healthy(Run(beats, jobs, init[..i]).listener.workers, init[i].now))
      {
        assert init[..i] == events[..i] && init[i] == events[i];
      }
      NobodyIsChosen(beats, jobs, init);
      if last.Dispatch? {
        SideBySide(beats, jobs, init);
        WithoutItsGroupNothingIsHeard(beats, HeartbeatEvents(init));
        assert Healthy(map[], last.now) == map[];
        hide Run, IsChoice;
        assert IsChoice(last.choice, map[]);
        NoneOfNobody(last.choice);
      }
    }
  }

  lemma NoneOfNobody(choice: Option<Heartbeat>)
    requires IsChoice(choice, map[])
    ensures choice.None?
  {
  }

  lemma {:induction false} IdleQueueSendsNothing(q: O.Fifo, hs: seq<O.Happening>)
    requires forall i | 0 <= i < |hs| && hs[i].Dispatch? :: hs[i].choice.None?
    ensures O.FifoRun(q, hs).sent == q.sent
  {
    if hs == [] {
    } else {
      IdleQueueSendsNothing(q, hs[..|hs| - 1]);
    }
  }

  /** End to end: unless somebody creates the group of the heartbeats, no course of heartbeats,
      arrivals and dispatches ever forwards a job: what is waiting is what dispatches without a
      worker leave (see `IdlingRotates`), and the streams of the workers stay as they were. */
  lemma {:induction false} NothingIsEverForwarded(beats: Log<Heartbeat>, jobs: Logs<Job>, events: seq<Event>)
    requires beats.Valid() && D.WellFormed(jobs) && HEARTBEAT_GROUP !in beats.groups
    requires RightlyChosen(beats, jobs, events)
    ensures var c := Run(beats, jobs, events).course;
            && O.SentBy(c.verdicts) == []
            && O.Live(c.streams) == O.FifoRun(O.Fifo(O.Live(jobs), []), Happenings(events)).waiting
            && (forall i | 0 <= i < |Happenings(events)| && Happenings(events)[i].Dispatch? ::
                  Happenings(events)[i].choice.None?)
            && (forall w :: D.WorkerLog(c.streams, w).entries == D.WorkerLog(jobs, w).entries)
  {
    var hs := Happenings(events);
    SideBySide(beats, jobs, events);
    NobodyIsChosen(beats, jobs, events);
    O.StreamsRefineTheQueue(jobs, hs);
    IdleQueueSendsNothing(O.Fifo(O.Live(jobs), []), hs);
    hide Run, Happenings, O.Unfold, D.WorkerLog;
  }
}
