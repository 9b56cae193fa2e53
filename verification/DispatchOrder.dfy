/** What undisturbed dispatching amounts to: the streams behave as one queue of waiting
    messages, from which order, progress and the books of the job stream follow. */
module DispatchOrder {
  import opened Common
  import opened Streams
  import opened Queue
  import opened Dispatcher

  /** A message arrives at the job stream, or the dispatcher runs once and the selection comes
      up with `choice`. All writes succeed. */
  datatype Happening = Arrive(body: Option<Job>) | Dispatch(choice: Option<string>)

  datatype Course = Course(streams: Logs<Job>, verdicts: seq<Verdict>)

  function Happen(c: Course, h: Happening): (r: Course)
    requires WellFormed(c.streams)
    ensures WellFormed(r.streams)
  {
    match h
    case Arrive(body) => c.(streams := AddTo(c.streams, JOB_STREAM, body, Done))
    case Dispatch(choice) =>
      var dispatched := DispatchOnce(c.streams, choice, ALL_DONE);
      Course(dispatched.0, c.verdicts + [dispatched.1])
  }

  function Unfold(start: Logs<Job>, hs: seq<Happening>): (r: Course)
    requires WellFormed(start)
    ensures WellFormed(r.streams)
  {
    if hs == [] then Course(start, []) else Happen(Unfold(start, hs[..|hs| - 1]), hs[|hs| - 1])
  }

  // --- The simple queue ---

  datatype Sent = Sent(job: Job, worker: string)

  datatype Fifo = Fifo(waiting: seq<Option<Job>>, sent: seq<Sent>)

  /** A dispatch takes the first message: malformed ones disappear, jobs go to the chosen
      worker, and without a worker back to the end. */
  function FifoStep(q: Fifo, h: Happening): Fifo {
    if h.Arrive? then q.(waiting := q.waiting + [h.body]) else
    if q.waiting == [] then q else
    var first, others := q.waiting[0], q.waiting[1..];
    if first.None? then q.(waiting := others) else
    if h.choice.None? then q.(waiting := others + [first]) else
    Fifo(others, q.sent + [Sent(first.value, h.choice.value)])
  }

  function FifoRun(q: Fifo, hs: seq<Happening>): Fifo {
    if hs == [] then q else FifoStep(FifoRun(q, hs[..|hs| - 1]), hs[|hs| - 1])
  }

  function Live(streams: Logs<Job>): seq<Option<Job>>
    requires WellFormed(streams)
  {
    JobLog(streams).Undelivered(GROUP)
  }

  function SentBy(verdicts: seq<Verdict>): seq<Sent> {
    if verdicts == [] then [] else
    var last := verdicts[|verdicts| - 1];
    SentBy(verdicts[..|verdicts| - 1]) + (if last.Dispatched? then [Sent(last.job, last.worker)] else [])
  }

  function JobsFor(sent: seq<Sent>, worker: string): seq<Option<Job>> {
    if sent == [] then [] else
    var last := sent[|sent| - 1];
    JobsFor(sent[..|sent| - 1], worker) + (if last.worker == worker then [Some(last.job)] else [])
  }

  ghost predicate Refines(c: Course, start: Logs<Job>, q: Fifo) {
    && WellFormed(c.streams)
    && Live(c.streams) == q.waiting
    && SentBy(c.verdicts) == q.sent
    && forall w :: WorkerLog(c.streams, w).entries == WorkerLog(start, w).entries + JobsFor(q.sent, w)
  }

  lemma SendingAdds(sent: seq<Sent>, one: Sent, worker: string)
    ensures JobsFor(sent + [one], worker) ==
            JobsFor(sent, worker) + (if one.worker == worker then [Some(one.job)] else [])
  {
    assert (sent + [one])[..|sent|] == sent;
  }

  lemma JudgingAdds(verdicts: seq<Verdict>, one: Verdict)
    ensures SentBy(verdicts + [one]) == SentBy(verdicts) + (if one.Dispatched? then [Sent(one.job, one.worker)] else [])
  {
    assert (verdicts + [one])[..|verdicts|] == verdicts;
  }

  /** What one dispatch does to the job stream, by its verdict. */
  lemma DispatchEffect(streams: Logs<Job>, choice: Option<string>)
    requires WellFormed(streams)
    ensures var (after, verdict) := DispatchOnce(streams, choice, ALL_DONE);
            var log := JobLog(streams);
            var cursor, pending := log.groups[GROUP].cursor, log.groups[GROUP].pending;
            && WellFormed(after)
            && JobLog(after).entries == log.entries + (if verdict.Requeued? then [Some(verdict.job)] else [])
            && JobLog(after).groups[GROUP] ==
               (match verdict
                case Skipped(id) => Group(cursor + 1, pending + {cursor})
                case Requeued(id, _) => Group(cursor + 1, pending + {cursor})
                case Dispatched(id, _, _) => Group(cursor + 1, pending)
                case _ => Group(cursor, pending))
            && (verdict.Skipped? || verdict.Requeued? || verdict.Dispatched? ==> verdict.id == cursor)
            && !verdict.Refused?
  {
    var (after, verdict) := DispatchOnce(streams, choice, ALL_DONE);
    var log := JobLog(streams);
    var cursor, pending := log.groups[GROUP].cursor, log.groups[GROUP].pending;
    assert Range(cursor, cursor + 1) == {cursor};
    assert Range(cursor, cursor) == {};
    if verdict.Dispatched? {
      assert pending + {cursor} - {cursor} == pending;
    } else if verdict.NoWork? {
      assert pending + {} == pending;
    }
  }

  /** What one dispatch does to the stream of a worker. */
  lemma WorkerEffect(streams: Logs<Job>, choice: Option<string>, worker: string)
    requires WellFormed(streams)
    ensures var (after, verdict) := DispatchOnce(streams, choice, ALL_DONE);
            && WorkerLog(after, worker).entries ==
               WorkerLog(streams, worker).entries +
               (if verdict.Dispatched? && verdict.worker == worker then [Some(verdict.job)] else [])
  {
    hide Deliver, Ack;
  }

  lemma ArrivalRefines(c: Course, start: Logs<Job>, q: Fifo, body: Option<Job>)
    requires Refines(c, start, q)
    ensures Refines(Happen(c, Arrive(body)), start, FifoStep(q, Arrive(body)))
  {
  }

  lemma DispatchRefines(c: Course, start: Logs<Job>, q: Fifo, choice: Option<string>)
    requires Refines(c, start, q)
    ensures Refines(Happen(c, Dispatch(choice)), start, FifoStep(q, Dispatch(choice)))
  {
    hide JobsFor, SentBy, DispatchOnce;
    DispatchEffect(c.streams, choice);
    var verdict := DispatchOnce(c.streams, choice, ALL_DONE).1;
    JudgingAdds(c.verdicts, verdict);
    VerdictOfNext(c.streams, choice);
    var after := FifoStep(q, Dispatch(choice));
    forall w
      ensures WorkerLog(Happen(c, Dispatch(choice)).streams, w).entries
              == WorkerLog(start, w).entries + JobsFor(after.sent, w)
    {
      WorkerEffect(c.streams, choice, w);
      if verdict.Dispatched? {
        SendingAdds(q.sent, Sent(verdict.job, verdict.worker), w);
      }
    }
  }

  /** The verdict is decided by the first waiting message and the choice. */
  lemma VerdictOfNext(streams: Logs<Job>, choice: Option<string>)
    requires WellFormed(streams)
    ensures var verdict, live := DispatchOnce(streams, choice, ALL_DONE).1, Live(streams);
            if live == [] then verdict.NoWork? else
            if live[0].None? then verdict.Skipped? else
            if choice.None? then verdict.Requeued? && live[0] == Some(verdict.job) else
            verdict.Dispatched? && live[0] == Some(verdict.job) && choice == Some(verdict.worker)
  {
  }

  /** The streams, with their cursors and pending sets, refine the simple queue: what waits,
      what was sent and in which order, and what each worker's stream received. */
  lemma {:induction false} StreamsRefineTheQueue(start: Logs<Job>, hs: seq<Happening>)
    requires WellFormed(start)
    ensures Refines(Unfold(start, hs), start, FifoRun(Fifo(Live(start), []), hs))
  {
    if hs == [] {
    } else {
      var init, h := hs[..|hs| - 1], hs[|hs| - 1];
      StreamsRefineTheQueue(start, init);
      var c, q := Unfold(start, init), FifoRun(Fifo(Live(start), []), init);
      hide Refines, Happen, FifoStep;
      match h {
        case Arrive(body) => ArrivalRefines(c, start, q, body);
        case Dispatch(choice) => DispatchRefines(c, start, q, choice);
      }
    }
  }

  // --- Order and progress ---

  function Idling(k: nat): seq<Happening> { seq(k, _ => Dispatch(None)) }

  function WellParsed(waiting: seq<Option<Job>>): seq<Option<Job>> {
    if waiting == [] then [] else
    var last := waiting[|waiting| - 1];
    WellParsed(waiting[..|waiting| - 1]) + (if last.Some? then [last] else [])
  }

  lemma {:induction false} IdlingRotates(q: Fifo, k: nat)
    requires k <= |q.waiting|
    ensures FifoRun(q, Idling(k)) == q.(waiting := q.waiting[k..] + WellParsed(q.waiting[..k]))
  {
    if k == 0 {
      assert q.waiting[0..] + [] == q.waiting;
    } else {
      IdlingRotates(q, k - 1);
      assert Idling(k)[..k - 1] == Idling(k - 1);
      assert q.waiting[..k][..k - 1] == q.waiting[..k - 1];
      var before := q.waiting[k - 1..] + WellParsed(q.waiting[..k - 1]);
      assert before[0] == q.waiting[k - 1] && before[1..] == q.waiting[k..] + WellParsed(q.waiting[..k - 1]);
    }
  }

  lemma {:induction false} AllParse(waiting: seq<Option<Job>>)
    requires forall i | 0 <= i < |waiting| :: waiting[i].Some?
    ensures WellParsed(waiting) == waiting
  {
    if waiting == [] {
    } else {
      AllParse(waiting[..|waiting| - 1]);
    }
  }

  /** While no worker is healthy each dispatch moves the first job to the end, so as many
      dispatches as messages wait leave the jobs in their order (and drop what is malformed). */
  lemma {:induction false} RotationRestoresTheQueue(start: Logs<Job>)
    requires WellFormed(start)
    ensures var live := Live(start);
            && Live(Unfold(start, Idling(|live|)).streams) == WellParsed(live)
            && ((forall i | 0 <= i < |live| :: live[i].Some?) ==> Live(Unfold(start, Idling(|live|)).streams) == live)
  {
    var live := Live(start);
    StreamsRefineTheQueue(start, Idling(|live|));
    IdlingRotates(Fifo(live, []), |live|);
    assert live[..|live|] == live;
    if forall i | 0 <= i < |live| :: live[i].Some? {
      AllParse(live);
    }
  }

  function Dispatches(hs: seq<Happening>): nat {
    if hs == [] then 0 else Dispatches(hs[..|hs| - 1]) + (if hs[|hs| - 1].Dispatch? then 1 else 0)
  }

  function Arrived(hs: seq<Happening>): seq<Option<Job>> {
    if hs == [] then [] else
    Arrived(hs[..|hs| - 1]) + (if hs[|hs| - 1].Arrive? then [hs[|hs| - 1].body] else [])
  }

  function JobsOf(sent: seq<Sent>): seq<Option<Job>> {
    seq(|sent|, i requires 0 <= i < |sent| => Some(sent[i].job))
  }

  ghost predicate WorkersAvailable(hs: seq<Happening>) {
    forall i | 0 <= i < |hs| && hs[i].Dispatch? :: hs[i].choice.Some?
  }

  lemma FairDispatch(waiting: seq<Option<Job>>, arrived: seq<Option<Job>>, q: Fifo, worker: string, d: nat)
    requires d < |waiting| && q.waiting == waiting[d..] + arrived && JobsOf(q.sent) == WellParsed(waiting[..d])
    ensures var r := FifoStep(q, Dispatch(Some(worker)));
            r.waiting == waiting[d + 1..] + arrived && JobsOf(r.sent) == WellParsed(waiting[..d + 1])
  {
    assert waiting[..d + 1][..d] == waiting[..d];
    assert q.waiting[0] == waiting[d] && q.waiting[1..] == waiting[d + 1..] + arrived;
  }

  lemma {:induction false} QueueIsFair(waiting: seq<Option<Job>>, hs: seq<Happening>)
    requires WorkersAvailable(hs) && Dispatches(hs) <= |waiting|
    ensures var q, d := FifoRun(Fifo(waiting, []), hs), Dispatches(hs);
            q.waiting == waiting[d..] + Arrived(hs) && JobsOf(q.sent) == WellParsed(waiting[..d])
  {
    if hs == [] {
      assert waiting[0..] + [] == waiting;
    } else {
      var init, h := hs[..|hs| - 1], hs[|hs| - 1];
      QueueIsFair(waiting, init);
      if h.Dispatch? {
        FairDispatch(waiting, Arrived(init), FifoRun(Fifo(waiting, []), init), h.choice.value, Dispatches(init));
        hide FifoStep, JobsOf, WellParsed;
      }
    }
  }

  /** Once a worker stays available, messages are handled strictly in the order in which they
      wait, whatever arrives meanwhile: d dispatches hand out exactly the jobs among the first d
      messages, in order. */
  lemma ProgressInOrder(start: Logs<Job>, hs: seq<Happening>)
    requires WellFormed(start) && WorkersAvailable(hs) && Dispatches(hs) <= |Live(start)|
    ensures var c, live, d := Unfold(start, hs), Live(start), Dispatches(hs);
            && Live(c.streams) == live[d..] + Arrived(hs)
            && JobsOf(SentBy(c.verdicts)) == WellParsed(live[..d])
  {
    StreamsRefineTheQueue(start, hs);
    QueueIsFair(Live(start), hs);
  }

  /** So the job at position p is in some worker's stream after p + 1 dispatches, as the last
      one that was sent. */
  lemma ForwardedInTurn(start: Logs<Job>, hs: seq<Happening>, p: nat)
    requires WellFormed(start) && WorkersAvailable(hs)
    requires Dispatches(hs) == p + 1 <= |Live(start)| && Live(start)[p].Some?
    ensures var c := Unfold(start, hs);
            var sent := SentBy(c.verdicts);
            && sent != [] && Some(sent[|sent| - 1].job) == Live(start)[p]
            && Live(start)[p] in WorkerLog(c.streams, sent[|sent| - 1].worker).entries
  {
    ProgressInOrder(start, hs);
    StreamsRefineTheQueue(start, hs);
    var c, live := Unfold(start, hs), Live(start);
    var sent := SentBy(c.verdicts);
    assert live[..p + 1][..p] == live[..p];
    assert JobsOf(sent)[|sent| - 1] == live[p];
    var worker := sent[|sent| - 1].worker;
    var jobs := JobsFor(sent, worker);
    assert jobs[|jobs| - 1] == live[p];
    assert WorkerLog(c.streams, worker).entries == WorkerLog(start, worker).entries + jobs;
  }

  // --- The books of the job stream ---

  datatype Tally = Tally(skipped: nat, requeued: nat, dispatched: nat)

  function Tallied(verdicts: seq<Verdict>): Tally {
    if verdicts == [] then Tally(0, 0, 0) else
    var before := Tallied(verdicts[..|verdicts| - 1]);
    match verdicts[|verdicts| - 1]
    case Skipped(_) => before.(skipped := before.skipped + 1)
    case Requeued(_, _) => before.(requeued := before.requeued + 1)
    case Dispatched(_, _, _) => before.(dispatched := before.dispatched + 1)
    case _ => before
  }

  /** The messages that dispatches left pending: the malformed and the requeued ones. */
  function LeftPending(verdicts: seq<Verdict>): set<nat> {
    if verdicts == [] then {} else
    var last := verdicts[|verdicts| - 1];
    LeftPending(verdicts[..|verdicts| - 1]) + (if last.Skipped? || last.Requeued? then {last.id} else {})
  }

  /** `arrivals` messages came in; what became of them is in the verdicts. */
  ghost predicate Balanced(c: Course, arrivals: nat) {
    && WellFormed(c.streams)
    && var log, group, tally := JobLog(c.streams), JobLog(c.streams).groups[GROUP], Tallied(c.verdicts);
       && |log.entries| == arrivals + tally.requeued
       && group.cursor == tally.dispatched + tally.requeued + tally.skipped
       && group.pending == LeftPending(c.verdicts)
       && |group.pending| == tally.requeued + tally.skipped
  }

  lemma DispatchKeepsBalance(c: Course, arrivals: nat, choice: Option<string>)
    requires Balanced(c, arrivals)
    ensures Balanced(Happen(c, Dispatch(choice)), arrivals)
  {
    hide DispatchOnce, Tallied, LeftPending;
    DispatchEffect(c.streams, choice);
    TallyOne(c.verdicts, DispatchOnce(c.streams, choice, ALL_DONE).1);
    var group := JobLog(c.streams).groups[GROUP];
    assert group.cursor !in group.pending;
    assert |group.pending + {group.cursor}| == |group.pending| + 1;
  }

  lemma TallyOne(verdicts: seq<Verdict>, one: Verdict)
    ensures var before, after := Tallied(verdicts), Tallied(verdicts + [one]);
            && after.skipped == before.skipped + (if one.Skipped? then 1 else 0)
            && after.requeued == before.requeued + (if one.Requeued? then 1 else 0)
            && after.dispatched == before.dispatched + (if one.Dispatched? then 1 else 0)
    ensures LeftPending(verdicts + [one]) ==
            LeftPending(verdicts) + (if one.Skipped? || one.Requeued? then {one.id} else {})
  {
    assert (verdicts + [one])[..|verdicts|] == verdicts;
  }

  /** At rest points with all writes succeeding, the job stream is as long as arrivals plus
      requeues, the messages handed out are those forwarded, requeued or malformed, and exactly
      the requeued and the malformed are pending. */
  lemma {:induction false} BooksBalance(hs: seq<Happening>)
    ensures Dispatches(hs) <= |hs|
    ensures Balanced(Unfold(START.streams, hs), |hs| - Dispatches(hs))
  {
    if hs == [] {
    } else {
      var init, h := hs[..|hs| - 1], hs[|hs| - 1];
      BooksBalance(init);
      if h.Dispatch? {
        DispatchKeepsBalance(Unfold(START.streams, init), |init| - Dispatches(init), h.choice);
      }
    }
  }

  lemma HappenExtends(c: Course, h: Happening)
    requires WellFormed(c.streams)
    ensures |JobLog(c.streams).entries| <= |JobLog(Happen(c, h).streams).entries|
  {
    hide DispatchOnce;
    if h.Dispatch? {
      DispatchEffect(c.streams, h.choice);
    }
  }

  /** So the queue depth, which counts the whole stream, never decreases. */
  lemma {:induction false} DepthNeverDecreases(hs: seq<Happening>, k: nat)
    requires k <= |hs|
    ensures |JobLog(Unfold(START.streams, hs[..k]).streams).entries|
            <= |JobLog(Unfold(START.streams, hs).streams).entries|
    decreases |hs|
  {
    hide Happen;
    if k == |hs| {
      assert hs[..k] == hs;
    } else {
      var init := hs[..|hs| - 1];
      DepthNeverDecreases(init, k);
      assert init[..k] == hs[..k];
      HappenExtends(Unfold(START.streams, init), hs[|hs| - 1]);
    }
  }
}
