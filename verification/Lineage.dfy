/** What becomes of an accepted job when calls fail and the dispatcher stops: its messages are
    followed from the one that was accepted over those that put the job back. Pending messages
    are never read again, so a job lives on only in a message still to be read, in the hands of
    the dispatcher, or in the stream of a worker. */
module Lineage {
  import opened Common
  import opened Queue
  import opened Dispatcher

  /** The job stream as far as it matters here: its length and the dispatcher's cursor, the
      message in hand, those whose job was copied to a worker, and for each message its origin:
      the accepted message whose job it holds. */
  datatype View = View(length: nat, cursor: nat, hand: Option<nat>, copies: set<nat>, origin: map<nat, nat>)

  /** What a step amounts to: a job comes in, is taken from the stream (or only off it, when the
      reply is lost), is handed over to a worker (told so or not), is returned to the stream (or
      not, when the write fails), or falls out of hand at a stop. */
  datatype Move = Rest | Arrived | Taken(kept: bool) | Handed(told: bool) | Returned(stored: bool) | Stopped

  predicate Possible(v: View, m: Move) {
    match m
    case Taken(_) => v.hand.None? && v.cursor < v.length
    case Handed(_) => v.hand.Some?
    case Returned(_) => v.hand.Some?
    case Stopped => v.hand.Some?
    case _ => true
  }

  function OriginOf(v: View, id: nat): nat { if id in v.origin then v.origin[id] else id }

  function Moved(v: View, m: Move): View
    requires Possible(v, m)
  {
    match m
    case Rest => v
    case Arrived => v.(length := v.length + 1, origin := v.origin[v.length := v.length])
    case Taken(kept) => v.(cursor := v.cursor + 1, hand := if kept then Some(v.cursor) else None)
    case Handed(told) => v.(copies := v.copies + {v.hand.value}, hand := if told then None else v.hand)
    case Returned(false) => v.(hand := None)
    case Returned(true) =>
      v.(hand := None, length := v.length + 1, origin := v.origin[v.length := OriginOf(v, v.hand.value)])
    case Stopped => v.(hand := None)
  }

  // --- The dispatcher seen like this ---

  function Hand(d: State): Option<nat> {
    if d.phase.Holding? || d.phase.Assigned? || d.phase.Bounced? then Some(d.phase.id) else None
  }

  ghost function ViewOf(d: State, origin: map<nat, nat>): View
    requires WellFormed(d.streams)
  {
    View(|JobLog(d.streams).entries|, JobLog(d.streams).groups[GROUP].cursor, Hand(d), d.copies.Keys, origin)
  }

  ghost function MoveOf(d: State, e: Event): Move
    requires WellFormed(d.streams)
  {
    match e
    case Accept(_, outcome) => if outcome.Applied() then Arrived else Rest
    case Dequeue(outcome) =>
      if d.phase.Idle? && JobLog(d.streams).groups[GROUP].cursor < |JobLog(d.streams).entries| && outcome.Applied()
      then Taken(outcome.Done?) else Rest
    case Forward(outcome) => if d.phase.Assigned? && outcome.Applied() then Handed(outcome.Done?) else Rest
    case Requeue(outcome) => if d.phase.Bounced? then Returned(outcome.Applied()) else Rest
    case Stop => if Hand(d).Some? then Stopped else Rest
    case _ => Rest
  }

  /** The messages of the job stream are all jobs. */
  ghost predicate AllJobs(d: State) {
    forall id | 0 <= id < |JobLog(d.streams).entries| :: JobLog(d.streams).entries[id].Some?
  }

  lemma StepMoves(d: State, e: Event, origin: map<nat, nat>)
    requires WellFormed(d.streams) && AllJobs(d)
    ensures Possible(ViewOf(d, origin), MoveOf(d, e))
    ensures var v := Moved(ViewOf(d, origin), MoveOf(d, e)); ViewOf(Step(d, e), v.origin) == v
  {
    LengthAfter(d, e);
    CursorAfter(d, e);
    HandAfter(d, e);
    hide Step, WellFormed, JobLog;
  }

  lemma LengthAfter(d: State, e: Event)
    requires WellFormed(d.streams)
    ensures var m := MoveOf(d, e);
            |JobLog(Step(d, e).streams).entries|
            == |JobLog(d.streams).entries| + (if m.Arrived? || (m.Returned? && m.stored) then 1 else 0)
  {
  }

  lemma CursorAfter(d: State, e: Event)
    requires WellFormed(d.streams)
    ensures JobLog(Step(d, e).streams).groups[GROUP].cursor
            == JobLog(d.streams).groups[GROUP].cursor + (if MoveOf(d, e).Taken? then 1 else 0)
  {
  }

  lemma HandAfter(d: State, e: Event)
    requires WellFormed(d.streams) && AllJobs(d)
    ensures var m, r := MoveOf(d, e), Step(d, e);
            && Hand(r) == (if m.Taken? && m.kept then Some(JobLog(d.streams).groups[GROUP].cursor)
                           else if m.Returned? || m.Stopped? || (m.Handed? && m.told) then None else Hand(d))
            && (m.Taken? ==> Hand(d).None?)
            && (m.Handed? ==> Hand(d).Some?)
            && r.copies.Keys == d.copies.Keys + (if m.Handed? then {Hand(d).value} else {})
  {
  }

  lemma StepKeepsAllJobs(d: State, e: Event)
    requires WellFormed(d.streams) && AllJobs(d) && Tracked(d)
    ensures AllJobs(Step(d, e))
  {
  }

  /** The view after a run, with its origins. */
  ghost function Seen(events: seq<Event>): (v: View)
    ensures AllJobs(Run(events)) && v == ViewOf(Run(events), v.origin)
  {
    if events == [] then ViewOf(START, map[]) else
    var init, e := events[..|events| - 1], events[|events| - 1];
    var before := Seen(init);
    RunKeepsAll(init);
    StepMoves(Run(init), e, before.origin);
    StepKeepsAllJobs(Run(init), e);
    Moved(before, MoveOf(Run(init), e))
  }

  // --- Lines of messages ---

  /** The message is still to be read, or in hand. */
  predicate Open(v: View, id: nat) { v.cursor <= id < v.length || v.hand == Some(id) }

  /** Each message has its origin, and of those of one origin at most one is open. */
  ghost predicate Lines(v: View) {
    && v.cursor <= v.length && (v.hand.Some? ==> v.hand.value < v.cursor)
    && (forall id: nat :: id in v.origin <==> id < v.length)
    && (forall id | id in v.copies :: id < v.length)
    && (forall id | id in v.origin :: v.origin[id] <= id && v.origin[v.origin[id]] == v.origin[id])
    && OneOpen(v)
  }

  /** The one message that a move closes. */
  predicate Closes(v: View, m: Move, id: nat)
    requires Possible(v, m)
  {
    match m
    case Taken(kept) => !kept && id == v.cursor
    case Handed(told) => told && id == v.hand.value
    case Returned(_) => id == v.hand.value
    case Stopped => id == v.hand.value
    case _ => false
  }

  predicate Adds(m: Move) { m.Arrived? || (m.Returned? && m.stored) }

  lemma OpenAfter(v: View, m: Move)
    requires Lines(v) && Possible(v, m)
    ensures var r := Moved(v, m);
            && (forall id: nat | id < v.length :: Open(r, id) <==> Open(v, id) && !Closes(v, m, id))
            && (forall id: nat | id >= v.length :: Open(r, id) <==> id == v.length && Adds(m))
            && (forall id: nat | Closes(v, m, id) :: Open(v, id))
  {
  }

  /** Of the messages of one origin, at most one is open. */
  ghost predicate OneOpen(v: View) {
    forall a, b | a in v.origin && b in v.origin && v.origin[a] == v.origin[b] :: Open(v, a) && Open(v, b) ==> a == b
  }

  lemma MovesKeepOneOpen(v: View, m: Move)
    requires Lines(v) && Possible(v, m)
    ensures OneOpen(Moved(v, m))
  {
    var r := Moved(v, m);
    OpenAfter(v, m);
    assert forall id | id in v.origin :: r.origin[id] == v.origin[id];
    forall a, b | a in r.origin && b in r.origin && r.origin[a] == r.origin[b] && Open(r, a) && Open(r, b)
      ensures a == b
    {
      hide Open;
      if a < v.length && b < v.length {
        assert Open(v, a) && Open(v, b);
      } else if m.Returned? {
        assert Open(v, v.hand.value);
      }
    }
  }

  lemma MovesKeepLines(v: View, m: Move)
    requires Lines(v) && Possible(v, m)
    ensures Lines(Moved(v, m))
  {
    MovesKeepOneOpen(v, m);
    hide Open, OneOpen;
  }

  /** The job of the message `root` is still to be placed, and can be. */
  ghost predicate Underway(v: View, root: nat) {
    exists id :: id in v.origin && v.origin[id] == root && Open(v, id)
  }

  /** The messages under which it was copied to workers. */
  ghost function CopiesOf(v: View, root: nat): set<nat> { set id | id in v.copies && OriginOf(v, id) == root }

  /** It can still be run. */
  ghost predicate Alive(v: View, root: nat) { Underway(v, root) || CopiesOf(v, root) != {} }

  /** The last hope of the job is given up: no worker has it, and its open message is read by a
      call whose reply is lost, or not put back since the write failed, or in hand at a stop. */
  ghost predicate Abandons(v: View, m: Move, root: nat) {
    && CopiesOf(v, root) == {} && Possible(v, m)
    && match m
       case Taken(kept) => !kept && OriginOf(v, v.cursor) == root
       case Returned(stored) => !stored && OriginOf(v, v.hand.value) == root
       case Stopped => OriginOf(v, v.hand.value) == root
       case _ => false
  }

  lemma CopiesAfter(v: View, m: Move, root: nat)
    requires Lines(v) && Possible(v, m)
    ensures CopiesOf(Moved(v, m), root) ==
            CopiesOf(v, root) + (if m.Handed? && OriginOf(v, v.hand.value) == root then {v.hand.value} else {})
  {
  }

  lemma MovesKeepAlive(v: View, m: Move, root: nat)
    requires Lines(v) && Possible(v, m) && root in v.origin
    ensures Alive(Moved(v, m), root) <==> Alive(v, root) && !Abandons(v, m, root)
  {
    var r := Moved(v, m);
    OpenAfter(v, m);
    CopiesAfter(v, m, root);
    assert forall id | id in v.origin :: r.origin[id] == v.origin[id];
    assert Adds(m) ==>
             v.length in r.origin && r.origin[v.length] == if m.Arrived? then v.length else v.origin[v.hand.value];
    hide CopiesOf, Moved;
    if Underway(v, root) {
      var id :| id in v.origin && v.origin[id] == root && Open(v, id);
      hide Open;
      if !Closes(v, m, id) {
        assert Open(r, id);
      } else if Adds(m) {
        assert Open(r, v.length) && r.origin[v.length] == root;
      }
    }
  }

  // --- Over all runs ---

  lemma SeenStep(events: seq<Event>)
    requires events != []
    ensures var init := events[..|events| - 1];
            var m := MoveOf(Run(init), events[|events| - 1]);
            && Possible(Seen(init), m) && Seen(events) == Moved(Seen(init), m)
            && Run(events) == Step(Run(init), events[|events| - 1])
  {
    var init := events[..|events| - 1];
    StepMoves(Run(init), events[|events| - 1], Seen(init).origin);
    hide Step, Moved, MoveOf, ViewOf, AllJobs;
  }

  lemma {:induction false} LinesHold(events: seq<Event>)
    ensures Lines(Seen(events))
  {
    if events == [] {
    } else {
      var init := events[..|events| - 1];
      SeenStep(events);
      hide Run, Seen, Lines, Moved, MoveOf;
      LinesHold(init);
      MovesKeepLines(Seen(init), MoveOf(Run(init), events[|events| - 1]));
    }
  }

  lemma OriginsGrow(v: View, m: Move)
    requires Lines(v) && Possible(v, m)
    ensures forall id | id in v.origin :: id in Moved(v, m).origin && Moved(v, m).origin[id] == v.origin[id]
  {
  }

  /** Whatever message a job is in, it is the job that was accepted. */
  ghost predicate SameJobs(entries: seq<Option<Job>>, origin: map<nat, nat>) {
    forall id | id in origin && id < |entries| && origin[id] < |entries| :: entries[id] == entries[origin[id]]
  }

  lemma {:induction false} OriginsAreRight(events: seq<Event>)
    ensures SameJobs(JobLog(Run(events).streams).entries, Seen(events).origin)
    ensures AcceptedAreOrigins(Run(events), Seen(events).origin)
  {
    if events == [] {
    } else {
      var init, e := events[..|events| - 1], events[|events| - 1];
      OriginsAreRight(init);
      LinesHold(init);
      RunKeepsAll(init);
      SeenStep(events);
      hide Run, Seen;
      EntriesAfter(Run(init), e);
      MovesKeepSameJobs(JobLog(Run(init).streams).entries, JobLog(Run(events).streams).entries,
                        Seen(init), MoveOf(Run(init), e));
      StepKeepsAccepted(Run(init), e, Seen(init));
    }
  }

  /** A message that is added holds a new job, or the one that was in hand. */
  lemma EntriesAfter(d: State, e: Event)
    requires NotLost(d)
    ensures var before, after := JobLog(d.streams).entries, JobLog(Step(d, e).streams).entries;
            var m, n := MoveOf(d, e), |JobLog(d.streams).entries|;
            && before <= after
            && (m.Returned? && m.stored ==>
                  Hand(d) == Some(d.phase.id) && d.phase.id < n < |after| && after[n] == before[d.phase.id])
            && (forall id | id in Step(d, e).accepted :: id in d.accepted || (m.Arrived? && id == n))
  {
    StepExtends(d, e, JOB_STREAM);
  }

  lemma MovesKeepSameJobs(before: seq<Option<Job>>, after: seq<Option<Job>>, v: View, m: Move)
    requires Lines(v) && Possible(v, m) && SameJobs(before, v.origin) && v.length == |before| && before <= after
    requires m.Returned? && m.stored ==> |before| < |after| && after[|before|] == before[v.hand.value]
    ensures SameJobs(after, Moved(v, m).origin)
  {
  }

  ghost predicate AcceptedAreOrigins(d: State, origin: map<nat, nat>) {
    forall id | id in d.accepted :: id in origin && origin[id] == id
  }

  lemma StepKeepsAccepted(d: State, e: Event, v: View)
    requires NotLost(d) && Lines(v) && v == ViewOf(d, v.origin) && Possible(v, MoveOf(d, e))
    requires AcceptedAreOrigins(d, v.origin)
    ensures AcceptedAreOrigins(Step(d, e), Moved(v, MoveOf(d, e)).origin)
  {
    EntriesAfter(d, e);
    OriginsGrow(v, MoveOf(d, e));
    hide Step, NotLost, MoveOf, Hand, JobLog, Lines;
  }

  /** Some step of the run gave up the job accepted as message `root`. */
  ghost predicate Abandoned(events: seq<Event>, root: nat) {
    exists i | 0 <= i < |events| :: Abandons(Seen(events[..i]), MoveOf(Run(events[..i]), events[i]), root)
  }

  lemma AbandonedStep(events: seq<Event>, root: nat)
    requires events != []
    ensures var init := events[..|events| - 1];
            Abandoned(events, root) <==>
            Abandoned(init, root) || Abandons(Seen(init), MoveOf(Run(init), events[|events| - 1]), root)
  {
    hide Abandons, Seen, MoveOf, Run;
    var init := events[..|events| - 1];
    if i :| 0 <= i < |init| && Abandons(Seen(init[..i]), MoveOf(Run(init[..i]), init[i]), root) {
      assert events[..i] == init[..i] && events[i] == init[i];
    }
    if i :| 0 <= i < |events| && Abandons(Seen(events[..i]), MoveOf(Run(events[..i]), events[i]), root) {
      assert i < |init| ==> events[..i] == init[..i] && events[i] == init[i];
    }
  }

  lemma AbandonsOnlyKnown(v: View, m: Move, root: nat)
    requires Lines(v) && Abandons(v, m, root)
    ensures root in v.origin
  {
  }

  /** Only jobs that came in can be given up. */
  lemma {:induction false} AbandonedCameIn(events: seq<Event>, root: nat)
    ensures Abandoned(events, root) ==> root in Seen(events).origin
  {
    if events == [] {
    } else {
      var init := events[..|events| - 1];
      var m := MoveOf(Run(init), events[|events| - 1]);
      SeenStep(events);
      hide Abandoned, Abandons, Seen, Run, MoveOf, Moved, Lines;
      AbandonedCameIn(init, root);
      AbandonedStep(events, root);
      LinesHold(init);
      OriginsGrow(Seen(init), m);
      if Abandons(Seen(init), m, root) {
        AbandonsOnlyKnown(Seen(init), m, root);
      }
    }
  }

  lemma ArrivalIsAlive(v: View, m: Move, root: nat)
    requires Lines(v) && Possible(v, m) && root !in v.origin
    requires root in Moved(v, m).origin && Moved(v, m).origin[root] == root
    ensures Alive(Moved(v, m), root)
  {
    assert root == v.length && Open(Moved(v, m), root);
  }

  /** Over all runs: a job that came in can still be run (its message is to be read, or in hand, or
      it was copied to a worker) if and only if no step ever gave it up. */
  lemma {:induction false} AliveUnlessAbandoned(events: seq<Event>, root: nat)
    requires root in Seen(events).origin && Seen(events).origin[root] == root
    ensures Alive(Seen(events), root) <==> !Abandoned(events, root)
  {
    if events == [] {
    } else {
      var init := events[..|events| - 1];
      var m := MoveOf(Run(init), events[|events| - 1]);
      SeenStep(events);
      hide Run, Seen, MoveOf, Abandoned, Abandons, Alive, Moved, Lines;
      LinesHold(init);
      OriginsGrow(Seen(init), m);
      AbandonedStep(events, root);
      if root in Seen(init).origin {
        AliveUnlessAbandoned(init, root);
        MovesKeepAlive(Seen(init), m, root);
      } else {
        AbandonedCameIn(init, root);
        if Abandons(Seen(init), m, root) {
          AbandonsOnlyKnown(Seen(init), m, root);
        }
        ArrivalIsAlive(Seen(init), m, root);
      }
    }
  }

  /** So all accepted jobs can still be run exactly if no accepted job was hit in the one of three
      ways: its read went unreported, its return to the stream failed, or the dispatcher stopped
      with it in hand, while no worker had it. */
  lemma {:induction false} AllAliveUnlessAbandoned(events: seq<Event>)
    ensures (forall root | root in Run(events).accepted :: Alive(Seen(events), root))
            <==> forall root | root in Run(events).accepted :: !Abandoned(events, root)
  {
    OriginsAreRight(events);
    hide Run, Seen, Alive, Abandoned;
    forall root | root in Run(events).accepted
      ensures Alive(Seen(events), root) <==> !Abandoned(events, root)
    {
      AliveUnlessAbandoned(events, root);
    }
  }

  // --- Jobs that are handed over more than once ---

  /** For each time the job of `root` was handed over to a worker, whether that was reported. */
  ghost function HandOvers(events: seq<Event>, root: nat): seq<bool> {
    if events == [] then [] else
    var init := events[..|events| - 1];
    var v, m := Seen(init), MoveOf(Run(init), events[|events| - 1]);
    HandOvers(init, root) + (if m.Handed? && OriginOf(v, v.hand.value) == root then [m.told] else [])
  }

  /** There is one copy for each hand-over, of which only the last may have been reported; if it
      was, the job is not underway any more. */
  ghost predicate LastTold(v: View, root: nat, handed: seq<bool>) {
    && |CopiesOf(v, root)| == |handed|
    && (forall k | 0 <= k < |handed| - 1 :: !handed[k])
    && (handed != [] && handed[|handed| - 1] ==> !Underway(v, root))
  }

  /** What is not underway, but came in, will not be again. */
  lemma NotUnderwayAgain(v: View, m: Move, root: nat)
    requires Lines(v) && Possible(v, m) && root in v.origin && !Underway(v, root)
    ensures !Underway(Moved(v, m), root)
  {
    OpenAfter(v, m);
    OriginsGrow(v, m);
    assert m.Returned? ==> Open(v, v.hand.value);
    hide Open;
    forall id | id in Moved(v, m).origin && Moved(v, m).origin[id] == root ensures !Open(Moved(v, m), id) {
      assert id in v.origin ==> !Open(v, id);
    }
  }

  /** A hand-over that is reported leaves nothing of the job to be placed. */
  lemma ToldIsTheEnd(v: View, m: Move, root: nat)
    requires Lines(v) && Possible(v, m) && m.Handed? && m.told && OriginOf(v, v.hand.value) == root
    ensures !Underway(Moved(v, m), root)
  {
    OpenAfter(v, m);
    assert Open(v, v.hand.value);
    hide Open;
  }

  lemma HandOverKeepsLastTold(v: View, m: Move, root: nat, handed: seq<bool>)
    requires Lines(v) && Possible(v, m) && LastTold(v, root, handed)
    requires m.Handed? && v.hand.value !in v.copies && OriginOf(v, v.hand.value) == root
    ensures LastTold(Moved(v, m), root, handed + [m.told])
  {
    CopiesAfter(v, m, root);
    assert v.hand.value !in CopiesOf(v, root);
    assert Open(v, v.hand.value) && Underway(v, root);
    if m.told {
      ToldIsTheEnd(v, m, root);
    }
    hide Lines, Moved, Underway, Open, CopiesOf;
  }

  lemma OthersKeepLastTold(v: View, m: Move, root: nat, handed: seq<bool>)
    requires Lines(v) && Possible(v, m) && LastTold(v, root, handed)
    requires m.Handed? ==> OriginOf(v, v.hand.value) != root
    ensures LastTold(Moved(v, m), root, handed)
  {
    CopiesAfter(v, m, root);
    if handed != [] && handed[|handed| - 1] {
      CopiesCameIn(v, root);
      NotUnderwayAgain(v, m, root);
    }
    hide Lines, Moved, Underway, CopiesOf;
  }

  lemma CopiesCameIn(v: View, root: nat)
    requires Lines(v) && CopiesOf(v, root) != {}
    ensures root in v.origin
  {
    var id :| id in CopiesOf(v, root);
  }

  /** Over all runs: every hand-over of a job but the last went unreported, and there are as many
      copies of the job as hand-overs, each in a place of its own (see `NothingIsLost`). */
  lemma {:induction false} OnlyUnreportedHandOversRepeat(events: seq<Event>, root: nat)
    ensures LastTold(Seen(events), root, HandOvers(events, root))
  {
    hide Run, Seen, MoveOf, Moved, Lines, LastTold, Possible;
    if events == [] {
      NothingHandedYet(root);
    } else {
      var init := events[..|events| - 1];
      var v, m := Seen(init), MoveOf(Run(init), events[|events| - 1]);
      SeenStep(events);
      LinesHold(init);
      HandedIsNew(init, events[|events| - 1]);
      OnlyUnreportedHandOversRepeat(init, root);
      if m.Handed? && OriginOf(v, v.hand.value) == root {
        HandOverKeepsLastTold(v, m, root, HandOvers(init, root));
      } else {
        OthersKeepLastTold(v, m, root, HandOvers(init, root));
        assert HandOvers(events, root) == HandOvers(init, root);
      }
    }
  }

  lemma NothingHandedYet(root: nat)
    ensures LastTold(Seen([]), root, [])
  {
  }

  lemma HandedIsNew(events: seq<Event>, e: Event)
    ensures MoveOf(Run(events), e).Handed? ==>
              Seen(events).hand.Some? && Seen(events).hand.value !in Seen(events).copies
  {
    RunKeepsAll(events);
    hide Run, Seen;
  }

  /** A hand-over that went unreported was followed by another. */
  ghost predicate Repeated(handed: seq<bool>) { exists j | 0 <= j < |handed| - 1 :: !handed[j] }

  /** So a job is copied to workers at most once if and only if no hand-over of it that went
      unreported was followed by another. */
  lemma {:induction false} CopiedOnceExactly(events: seq<Event>, root: nat)
    ensures |CopiesOf(Seen(events), root)| <= 1 <==> !Repeated(HandOvers(events, root))
  {
    OnlyUnreportedHandOversRepeat(events, root);
    hide Seen, HandOvers, CopiesOf, Underway;
    var handed := HandOvers(events, root);
    if 1 < |handed| {
      assert !handed[0];
    }
  }

  // --- Both happen ---

  lemma SeenMore(events: seq<Event>, e: Event)
    ensures Run(events + [e]) == Step(Run(events), e)
    ensures Possible(Seen(events), MoveOf(Run(events), e))
    ensures Seen(events + [e]) == Moved(Seen(events), MoveOf(Run(events), e))
  {
    assert (events + [e])[..|events|] == events;
    SeenStep(events + [e]);
    hide Run, Seen, Step, Moved, MoveOf;
  }

  lemma JobInHand(job: Job) returns (events: seq<Event>)
    ensures var d, v := Run(events), Seen(events);
            && d.phase == Holding(0, job) && d.accepted == map[0 := job]
            && v == View(1, 1, Some(0), {}, map[0 := 0])
  {
    var accepted := [] + [Accept(job, Done)];
    SeenMore([], Accept(job, Done));
    assert Run(accepted).phase.Idle? && Run(accepted).accepted == map[0 := job];
    assert JobLog(Run(accepted).streams).entries == [Some(job)];
    assert JobLog(Run(accepted).streams).groups[GROUP].cursor == 0;
    assert Seen(accepted) == View(1, 0, None, {}, map[0 := 0]);
    hide Run, Seen;
    SeenMore(accepted, Dequeue(Done));
    events := accepted + [Dequeue(Done)];
  }

  /** An accepted job can be lost: the dispatcher stops with it in hand. */
  lemma AStopLosesTheJob(job: Job) returns (events: seq<Event>)
    ensures 0 in Run(events).accepted && !Alive(Seen(events), 0)
  {
    var held := JobInHand(job);
    hide Run, Seen;
    SeenMore(held, Stop);
    events := held + [Stop];
  }

  lemma HandOversMore(events: seq<Event>, e: Event, root: nat)
    ensures var v, m := Seen(events), MoveOf(Run(events), e);
            HandOvers(events + [e], root) ==
            HandOvers(events, root) + (if m.Handed? && OriginOf(v, v.hand.value) == root then [m.told] else [])
  {
    assert (events + [e])[..|events|] == events;
    SeenMore(events, e);
    hide Run, Seen, MoveOf;
  }

  lemma Selecting(d: State, job: Job, w: string, id: nat)
    requires WellFormed(d.streams) && d.phase == Holding(id, job)
    ensures Step(d, Select(Some(w))).phase == Assigned(id, job, w) && MoveOf(d, Select(Some(w))) == Rest
  {
  }

  lemma Forwarding(d: State, job: Job, w: string, id: nat, outcome: Outcome)
    requires WellFormed(d.streams) && d.phase == Assigned(id, job, w) && outcome.Applied()
    ensures Step(d, Forward(outcome)).phase == if outcome.Done? then Forwarded(id) else Bounced(id, job)
    ensures MoveOf(d, Forward(outcome)) == Handed(outcome.Done?)
  {
  }

  lemma Selected(events: seq<Event>, job: Job, w: string, id: nat) returns (more: seq<Event>)
    requires Run(events).phase == Holding(id, job)
    ensures Run(more).phase == Assigned(id, job, w) && Seen(more) == Seen(events)
    ensures forall root :: HandOvers(more, root) == HandOvers(events, root)
  {
    hide Run, Seen, Step, MoveOf, HandOvers, ViewOf, AllJobs;
    Selecting(Run(events), job, w, id);
    SeenMore(events, Select(Some(w)));
    more := events + [Select(Some(w))];
    forall root ensures HandOvers(more, root) == HandOvers(events, root) {
      HandOversMore(events, Select(Some(w)), root);
    }
  }

  /** The job in hand is handed over, and that is reported or not. */
  lemma HandedOver(events: seq<Event>, job: Job, w: string, id: nat, outcome: Outcome) returns (more: seq<Event>)
    requires Run(events).phase == Holding(id, job) && outcome.Applied()
    ensures var told, v := outcome.Done?, Seen(events);
            && Run(more).phase == (if told then Forwarded(id) else Bounced(id, job))
            && Seen(more) == v.(copies := v.copies + {id}, hand := if told then None else Some(id))
            && HandOvers(more, OriginOf(v, id)) == HandOvers(events, OriginOf(v, id)) + [told]
  {
    var root := OriginOf(Seen(events), id);
    assert Seen(events).hand == Some(id);
    hide Run, Seen, Step, MoveOf, HandOvers, OriginOf, ViewOf, AllJobs;
    more := Selected(events, job, w, id);
    Forwarding(Run(more), job, w, id, outcome);
    SeenMore(more, Forward(outcome));
    HandOversMore(more, Forward(outcome), root);
    more := more + [Forward(outcome)];
  }

  lemma Requeueing(d: State, job: Job)
    requires WellFormed(d.streams) && d.phase == Bounced(0, job)
    requires |JobLog(d.streams).entries| == JobLog(d.streams).groups[GROUP].cursor == 1
    ensures MoveOf(d, Requeue(Done)) == Returned(true)
    ensures var r := Step(d, Requeue(Done));
            && r.phase.Idle? && MoveOf(r, Dequeue(Done)) == Taken(true)
            && Step(r, Dequeue(Done)).phase == Holding(1, job)
  {
  }

  /** The first job is put back, and read again as the second message. */
  lemma PutBack(events: seq<Event>, job: Job) returns (more: seq<Event>)
    requires Run(events).phase == Bounced(0, job)
    requires Seen(events).length == Seen(events).cursor == 1 && Seen(events).origin == map[0 := 0]
    ensures Run(more).phase == Holding(1, job) && HandOvers(more, 0) == HandOvers(events, 0)
    ensures OriginOf(Seen(more), 1) == 0
  {
    assert Seen(events).hand == Some(0);
    Requeueing(Run(events), job);
    hide Run, Seen, Step, MoveOf, HandOvers;
    SeenMore(events, Requeue(Done));
    HandOversMore(events, Requeue(Done), 0);
    more := events + [Requeue(Done)];
    SeenMore(more, Dequeue(Done));
    HandOversMore(more, Dequeue(Done), 0);
    more := more + [Dequeue(Done)];
  }

  lemma NoCopyNoHandOver(events: seq<Event>, root: nat)
    requires Seen(events).copies == {}
    ensures HandOvers(events, root) == []
  {
    OnlyUnreportedHandOversRepeat(events, root);
    hide Seen, HandOvers;
    assert CopiesOf(Seen(events), root) == {};
  }

  /** And one can be copied twice: the reply to its hand-over is lost, so it is put back, and handed
      over again. */
  lemma ALostReplyDoublesTheJob(job: Job, w: string) returns (events: seq<Event>)
    ensures HandOvers(events, 0) == [false, true] && |CopiesOf(Seen(events), 0)| == 2
  {
    hide Run, Seen, HandOvers, CopiesOf, Underway;
    events := JobInHand(job);
    NoCopyNoHandOver(events, 0);
    events := HandedOver(events, job, w, 0, Unreported);
    events := PutBack(events, job);
    events := HandedOver(events, job, w, 1, Done);
    OnlyUnreportedHandOversRepeat(events, 0);
  }
}
