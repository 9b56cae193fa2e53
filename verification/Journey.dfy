/** Retrying comes to an end: every move takes an invocation's token onwards through the stages
    of its attempt, or into the next attempt, unless the dispatcher puts a job back for want of
    a healthy worker. */
module Journey {
  import opened Common
  import opened Queue
  import opened Backoff
  import opened Invocation
  import opened Pipeline
  import opened Conservation
  import opened Retries
  import D = Dispatcher

  function Stage(at: Place): nat {
    match at
    case AtInvoke(_) => 0
    case InTimer(_) => 0
    case InQueue(_) => 1
    case AtDispatcher => 2
    case InWorkerStream(_, _) => 3
    case AtWorker(_) => 4
    case InResults(_) => 5
    case AtHandler => 6
  }

  const STAGES: nat := 7

  /** The step moves the invocation's token, or takes it away. */
  ghost predicate Hop(s: State, f: Effect, id: string)
    requires WellFormed(s)
  {
    (f.Moved? && Holds(s, f.from, id)) || (f.Died? && Holds(s, f.at, id))
  }

  /** The step puts the invocation's job back into the queue. */
  ghost predicate Requeued(s: State, f: Effect, id: string)
    requires WellFormed(s)
  {
    f.Moved? && f.from.AtDispatcher? && f.to.InQueue? && Holds(s, AtDispatcher, id)
  }

  ghost function Hops(p: Setting, events: seq<Event>, id: string): nat {
    if events == [] then 0 else
    var init := events[..|events| - 1];
    var s := Run(p, init);
    Hops(p, init, id) + if Hop(s, EffectOf(p, s, events[|events| - 1]), id) then 1 else 0
  }

  ghost function Requeues(p: Setting, events: seq<Event>, id: string): nat {
    if events == [] then 0 else
    var init := events[..|events| - 1];
    var s := Run(p, init);
    Requeues(p, init, id) + if Requeued(s, EffectOf(p, s, events[|events| - 1]), id) then 1 else 0
  }

  /** Where an invocation must be after so many moves and requeues. One whose token was lost with
      its result stays at the stage of execution. */
  ghost predicate OnItsWay(s: State, id: string, hops: nat, requeues: nat)
    requires WellFormed(s)
  {
    && (forall at | Holds(s, at, id) :: hops == STAGES * TokenAt(s, at).value.attempt + Stage(at) + 2 * requeues)
    && (Finished(s, id) ==> hops == STAGES * LedgerOf(s, id).runs + 2 * requeues)
    && (Stranded(s, id) ==>
          hops == STAGES * (LedgerOf(s, id).runs - 1) + Stage(AtWorker("")) + 2 * requeues)
    && (id !in s.statuses ==> hops == requeues == 0)
  }

  /** Tokens start at Invoke, advance stage by stage, and end or go on to the next attempt at the
      handler of results. */
  ghost predicate Advances(s: State, r: State, f: Effect)
    requires WellFormed(s) && WellFormed(r)
  {
    && (f.Moved? && !f.from.AtHandler? && !(f.from.AtDispatcher? && f.to.InQueue?) ==>
          Stage(f.to) == Stage(f.from) + 1)
    && (f.Moved? && f.from.AtHandler? ==>
          && f.to.InTimer? && TokenAt(s, AtHandler).Some? && TokenAt(r, f.to).Some?
          && TokenAt(r, f.to).value.attempt == TokenAt(s, AtHandler).value.attempt + 1)
    && (f.Died? ==> f.at.AtHandler?)
    && (f.Lost? ==> f.at.AtWorker?)
    && (f.Born? ==> f.at.AtInvoke?)
  }

  lemma OthersAdvance(p: Setting, s: State, e: Event)
    requires WellFormed(s) && !e.Settle?
    ensures var f := EffectOf(p, s, e);
            && (f.Moved? ==> !f.from.AtHandler?) && !f.Died? && (f.Born? ==> f.at.AtInvoke?)
            && (f.Lost? ==> f.at.AtWorker? && e.Publish?)
            && (f.Moved? && !(f.from.AtDispatcher? && f.to.InQueue?) ==> Stage(f.to) == Stage(f.from) + 1)
  {
    hide QueueToken, StreamToken, TokenAt, D.WellFormed;
  }

  lemma SettleAdvances(p: Setting, s: State, e: Event)
    requires WellFormed(s) && p.source.Carried? && e.Settle?
    ensures Advances(s, Step(p, s, e), EffectOf(p, s, e))
    ensures EffectOf(p, s, e).Died? ==> s.handler.Deciding?
    ensures !EffectOf(p, s, e).Lost?
  {
    assert Step(p, s, e) == Settled(p, s, e.draw);
    hide Step, D.WellFormed;
    if s.handler.Deciding? {
      SettleNotes(p, s, e.draw);
    }
  }

  lemma StepAdvances(p: Setting, s: State, e: Event)
    requires WellFormed(s) && p.source.Carried?
    ensures Advances(s, Step(p, s, e), EffectOf(p, s, e))
    ensures EffectOf(p, s, e).Died? ==> e.Settle? && s.handler.Deciding?
    ensures EffectOf(p, s, e).Lost? ==> e.Publish?
  {
    hide Step, EffectOf, Stage;
    if e.Settle? {
      SettleAdvances(p, s, e);
    } else {
      OthersAdvance(p, s, e);
    }
  }

  lemma StatusesGrow(p: Setting, s: State, e: Event, id: string)
    requires WellFormed(s) && id in s.statuses
    ensures id in Step(p, s, e).statuses
  {
    if !e.Create? && !e.Settle? && !e.Mark? && !e.Bury? {
      OthersLeaveStatuses(p, s, e);
      hide Step;
    } else {
      hide D.Step, D.WellFormed, Decide;
    }
  }

  lemma FetchRests(p: Setting, s: State, e: Event, id: string)
    requires WellFormed(s) && e.Fetch? && forall at :: !Holds(s, at, id)
    ensures LedgerOf(Step(p, s, e), id).runs == LedgerOf(s, id).runs
  {
    var f := EffectOf(p, s, e);
    assert Step(p, s, e) == Fetched(s, e.worker);
    StepFollows(p, s, e);
    hide Step, EffectOf, Fetched, LedgerOf, TokenAt, D.WellFormed;
    FetchNotes(p, s, e.worker, if f.Moved? then TokenAt(s, f.from).value.invocationId else "");
    assert f.Moved? ==> !Holds(s, f.from, id);
  }

  /** Nothing without a token is run again. */
  lemma RunsRest(p: Setting, s: State, e: Event, id: string)
    requires WellFormed(s) && id in s.statuses && forall at :: !Holds(s, at, id)
    ensures LedgerOf(Step(p, s, e), id).runs == LedgerOf(s, id).runs
  {
    if e.Fetch? {
      FetchRests(p, s, e, id);
    } else if !e.Create? && !e.Settle? && !e.Mark? && !e.Bury? {
      QuietLeavesStatuses(p, s, e);
      hide Step;
    } else {
      hide D.Step, D.WellFormed, Decide, TokenAt;
    }
  }

  lemma TokenOnItsWay(s: State, r: State, f: Effect, id: string, hops: nat, requeues: nat)
    requires WellFormed(s) && WellFormed(r) && Follows(s, r, f) && Advances(s, r, f)
    requires TokensAreUnique(s) && TokensAreUnique(r) && OnItsWay(s, id, hops, requeues)
    requires f.Born? && Holds(r, f.at, id) ==> id !in s.statuses
    ensures forall at | Holds(r, at, id) ::
              hops + (if Hop(s, f, id) then 1 else 0) ==
              STAGES * TokenAt(r, at).value.attempt + Stage(at) + 2 * (requeues + if Requeued(s, f, id) then 1 else 0)
  {
    hide TokenAt, LedgerOf, D.WellFormed;
    forall at | Holds(r, at, id)
      ensures hops + (if Hop(s, f, id) then 1 else 0) ==
              STAGES * TokenAt(r, at).value.attempt + Stage(at) + 2 * (requeues + if Requeued(s, f, id) then 1 else 0)
    {
      if f.Moved? && at == f.to {
        assert Holds(s, f.from, id);
      } else if !f.Born? || at != f.at {
        assert Holds(s, at, id);
        assert f.Moved? || f.Died? ==> !Hop(s, f, id);
      }
    }
  }

  lemma FinishedOnItsWay(p: Setting, s: State, e: Event, id: string, hops: nat, requeues: nat)
    requires p.source.Carried? && AtMostOneToken(s) && Counts(p, s) && OnItsWay(s, id, hops, requeues)
    requires Finished(Step(p, s, e), id)
    ensures hops + (if Hop(s, EffectOf(p, s, e), id) then 1 else 0)
            == STAGES * LedgerOf(Step(p, s, e), id).runs + 2 * requeues
    ensures !Requeued(s, EffectOf(p, s, e), id)
  {
    var r, f := Step(p, s, e), EffectOf(p, s, e);
    StepAdvances(p, s, e);
    StepLives(p, s, e);
    StepFollows(p, s, e);
    if Finished(s, id) {
      RunsRest(p, s, e, id);
    } else {
      NewlyFinished(p, s, e, id);
      assert Counted(p, s, AtHandler);
      SettleNotes(p, s, e.draw);
      SettleMoves(p, s, e.draw);
      assert LedgerOf(r, id).runs == LedgerOf(s, id).runs;
    }
    hide Step, EffectOf, TokenAt, LedgerOf, D.WellFormed, HandlerIsRight, TokensAreUnique;
  }

  lemma NewlyFinished(p: Setting, s: State, e: Event, id: string)
    requires AtMostOneToken(s) && !Finished(s, id) && Finished(Step(p, s, e), id)
    ensures e.Settle? && s.handler.Deciding? && Holds(s, AtHandler, id) && EffectOf(p, s, e) == Died(AtHandler)
  {
    StepLives(p, s, e);
  }

  /** The token that a stranded invocation lost was at a worker. */
  lemma StrandedOnItsWay(p: Setting, s: State, e: Event, id: string, hops: nat, requeues: nat)
    requires p.source.Carried? && AtMostOneToken(s) && Counts(p, s) && OnItsWay(s, id, hops, requeues)
    requires Stranded(Step(p, s, e), id)
    ensures hops == STAGES * (LedgerOf(Step(p, s, e), id).runs - 1) + Stage(AtWorker("")) + 2 * requeues
    ensures !Hop(s, EffectOf(p, s, e), id) && !Requeued(s, EffectOf(p, s, e), id)
  {
    var r, f := Step(p, s, e), EffectOf(p, s, e);
    StepAdvances(p, s, e);
    StepLives(p, s, e);
    StepFollows(p, s, e);
    if Stranded(s, id) {
      RunsRest(p, s, e, id);
    } else {
      if !(f.Lost? && Holds(s, f.at, id)) {
        StillHeld(s, r, f, id);
        assert false;
      }
      assert Counted(p, s, f.at);
      QuietLeavesStatuses(p, s, e);
    }
    hide Step, EffectOf, TokenAt, LedgerOf, D.WellFormed, HandlerIsRight, TokensAreUnique;
  }

  /** Only a loss takes the token from an invocation that stays unfinished. */
  lemma StillHeld(s: State, r: State, f: Effect, id: string)
    requires AtMostOneToken(s) && WellFormed(r) && Follows(s, r, f) && LivesFollow(s, r, f)
    requires Live(r, id) && !Stranded(s, id) && !(f.Lost? && Holds(s, f.at, id))
    ensures exists at :: Holds(r, at, id)
  {
    hide TokenAt, Live;
    if f.Born? && TokenAt(r, f.at).value.invocationId == id {
      assert Holds(r, f.at, id);
    } else {
      assert Live(s, id);
      var at :| Holds(s, at, id);
      assert Holds(r, if f.Moved? && at == f.from then f.to else at, id);
    }
  }

  lemma BornIsNew(p: Setting, s: State, e: Event, id: string)
    requires WellFormed(s) && EffectOf(p, s, e).Born? && Holds(Step(p, s, e), EffectOf(p, s, e).at, id)
    ensures id !in s.statuses
  {
    assert e.Create?;
    hide D.WellFormed;
  }

  lemma StepOnItsWay(p: Setting, s: State, e: Event, id: string, hops: nat, requeues: nat)
    requires p.source.Carried? && AtMostOneToken(s) && Counts(p, s) && OnItsWay(s, id, hops, requeues)
    ensures OnItsWay(Step(p, s, e), id, hops + (if Hop(s, EffectOf(p, s, e), id) then 1 else 0),
                     requeues + (if Requeued(s, EffectOf(p, s, e), id) then 1 else 0))
  {
    var r, f := Step(p, s, e), EffectOf(p, s, e);
    hide Step, EffectOf, TokenAt, LedgerOf, D.WellFormed, HandlerIsRight, Counts, Stage, Follows, Advances, LivesFollow;
    StepFollows(p, s, e);
    StepAdvances(p, s, e);
    StepKeepsAtMostOne(p, s, e);
    if id in s.statuses {
      StatusesGrow(p, s, e, id);
    }
    if f.Born? && Holds(r, f.at, id) {
      BornIsNew(p, s, e, id);
    }
    if Finished(r, id) {
      FinishedOnItsWay(p, s, e, id, hops, requeues);
    } else if Stranded(r, id) {
      StrandedOnItsWay(p, s, e, id, hops, requeues);
    }
    TokenOnItsWay(s, r, f, id, hops, requeues);
  }

  lemma NowhereYet(p: Setting, id: string)
    ensures OnItsWay(START, id, 0, 0)
  {
    assert forall at :: TokenAt(START, at).None?;
  }

  /** Over all runs, the moves and requeues of an invocation tell exactly at which attempt and
      stage its token is; when it has none any more, how often it was run. */
  lemma {:induction false} EveryMoveCounts(p: Setting, events: seq<Event>, id: string)
    requires p.source.Carried? && AllSound(events)
    ensures OnItsWay(Run(p, events), id, Hops(p, events, id), Requeues(p, events, id))
  {
    hide Step, EffectOf, OnItsWay, Hop, Requeued, Counts, AtMostOneToken;
    if events == [] {
      NowhereYet(p, id);
    } else {
      var init := events[..|events| - 1];
      EveryMoveCounts(p, init, id);
      CountsHold(p, init);
      NeverTwoTokens(p, init);
      StepOnItsWay(p, Run(p, init), events[|events| - 1], id, Hops(p, init, id), Requeues(p, init, id));
    }
  }

  lemma BoundOnTheWay(p: Setting, s: State, id: string, hops: nat, requeues: nat)
    requires WellFormed(s) && Counts(p, s) && OnItsWay(s, id, hops, requeues)
    ensures hops <= STAGES * (Limit(p) + 1) + 2 * requeues
    ensures id in s.statuses && s.statuses[id].FAILED? ==> hops == STAGES * (Limit(p) + 1) + 2 * requeues
  {
    hide LedgerOf, TokenAt, Timed, Limit, D.WellFormed;
    assert Concluded(p, s, id) && Within(p, AboutToMark(s, id), LedgerOf(s, id));
    if Live(s, id) && !Stranded(s, id) {
      var at :| Holds(s, at, id);
      assert Counted(p, s, at);
    }
  }

  /** So no run moves an invocation more often than seven times for each allowed attempt and twice
      for each time it was put back, and a failed one was moved exactly that often. */
  lemma {:induction false} JourneysEnd(p: Setting, events: seq<Event>, id: string)
    requires p.source.Carried? && AllSound(events)
    ensures Hops(p, events, id) <= STAGES * (Limit(p) + 1) + 2 * Requeues(p, events, id)
    ensures id in Run(p, events).statuses && Run(p, events).statuses[id].FAILED? ==>
              Hops(p, events, id) == STAGES * (Limit(p) + 1) + 2 * Requeues(p, events, id)
  {
    EveryMoveCounts(p, events, id);
    CountsHold(p, events);
    BoundOnTheWay(p, Run(p, events), id, Hops(p, events, id), Requeues(p, events, id));
  }
}
