/** The attempt number as the code has it: read from the duration of the failed execution. The
    limit on retries then holds when failures take long enough, and otherwise not at all. */
module Durations {
  import opened Common
  import opened Queue
  import opened Backoff
  import opened Invocation
  import opened Pipeline
  import opened Conservation
  import opened Retries
  import opened Rounds
  import D = Dispatcher

  // --- Failures below the limit: an invocation that is retried for ever ---

  /** For every n and every duration below the limit there is a run, all of whose failures take
      exactly this long, in which one invocation was run and marked RETRYING n times and is
      queued once more. */
  lemma {:induction false} RetriedForEver(p: Setting, job: Job, w: string, duration: int, n: nat)
    returns (events: seq<Event>)
    requires p.source.FromDuration? && 0 <= duration < p.policy.maxRetries
    ensures Admissible(events, duration)
    ensures Waiting(Run(p, events), Course(job.invocationId, w, n, if n == 0 then 0 else duration + 1))
    ensures var ledger := LedgerOf(Run(p, events), job.invocationId); ledger.runs == ledger.marks == n
  {
    hide Run;
    if n == 0 {
      events := Begin(p, job, w, duration);
    } else {
      var fewer := RetriedForEver(p, job, w, duration, n - 1);
      events := Round(p, fewer, Course(job.invocationId, w, n - 1, if n == 1 then 0 else duration + 1), duration);
    }
  }

  // --- No failure below the limit: no invocation is run twice ---

  /** The failures still to be decided on took at least that long. */
  ghost predicate Slow(s: State, least: int) {
    && (forall k | 0 <= k < |s.results| && s.results[k].Some? ::
          Succeeded(s.results[k].value) || least <= s.results[k].value.durationMs)
    && (s.handler.Deciding? ==> Succeeded(s.handler.result) || least <= s.handler.result.durationMs)
  }

  lemma StepKeepsSlow(p: Setting, s: State, e: Event, least: int)
    requires WellFormed(s) && Slow(s, least) && Fits(e, least)
    ensures Slow(Step(p, s, e), least)
  {
    hide D.Step, D.WorkerLog, D.JobLog, D.WellFormed, Decide;
  }

  /** A token is run when, and only when, it comes to a worker. */
  ghost predicate RunsFollow(s: State, r: State, f: Effect)
    requires WellFormed(s) && WellFormed(r)
  {
    match f
    case Born(at) =>
      TokenAt(r, at).Some? && at.AtInvoke? &&
      forall id :: LedgerOf(r, id).runs == if id == TokenAt(r, at).value.invocationId then 0 else LedgerOf(s, id).runs
    case Moved(from, to) =>
      && TokenAt(s, from).Some?
      && (Ran(to) <==> Ran(from) || from.InWorkerStream?) && (from.InWorkerStream? ==> to.AtWorker?) &&
      forall id :: LedgerOf(r, id).runs ==
        LedgerOf(s, id).runs + if from.InWorkerStream? && id == TokenAt(s, from).value.invocationId then 1 else 0
    case _ => forall id :: LedgerOf(r, id).runs == LedgerOf(s, id).runs
  }

  lemma FetchRuns(p: Setting, s: State, e: Event)
    requires WellFormed(s) && e.Fetch?
    ensures RunsFollow(s, Step(p, s, e), EffectOf(p, s, e))
  {
    var f := EffectOf(p, s, e);
    assert Step(p, s, e) == Fetched(s, e.worker);
    StepFollows(p, s, e);
    hide Step, EffectOf, Fetched, LedgerOf, TokenAt, D.WellFormed;
    FetchNotes(p, s, e.worker, if f.Moved? then TokenAt(s, f.from).value.invocationId else "");
  }

  lemma QuietRuns(p: Setting, s: State, e: Event)
    requires WellFormed(s) && !e.Create? && !e.Settle? && !e.Fetch?
    ensures RunsFollow(s, Step(p, s, e), EffectOf(p, s, e))
  {
    var f := EffectOf(p, s, e);
    StepFollows(p, s, e);
    QuietMoves(p, s, e);
    assert f.Moved? ==> !f.from.InWorkerStream? by {
      hide QueueToken, StreamToken, PhaseToken, TokenAt, D.WellFormed;
    }
    if !e.Mark? && !e.Bury? {
      QuietLeavesStatuses(p, s, e);
      hide Step, EffectOf, TokenAt, D.WellFormed;
    } else {
      hide D.Step, TokenAt, D.WellFormed, QueueToken, StreamToken;
    }
  }

  lemma SettleRuns(p: Setting, s: State, draw: real, least: int)
    requires WellFormed(s) && p.source.FromDuration? && p.policy.maxRetries <= least && Slow(s, least)
    ensures RunsFollow(s, Step(p, s, Settle(draw)), EffectOf(p, s, Settle(draw)))
  {
    SettleMoves(p, s, draw);
    if s.handler.Deciding? {
      assert !Decide(p.policy, p.source, s.handler.result, draw).Retry?;
      SettleNotes(p, s, draw);
      hide Step, EffectOf, Settled, D.WellFormed, Decide, LedgerOf;
    } else {
      hide Step, EffectOf, D.WellFormed, LedgerOf;
    }
  }

  lemma StepRuns(p: Setting, s: State, e: Event, least: int)
    requires WellFormed(s) && p.source.FromDuration? && p.policy.maxRetries <= least && Slow(s, least) && Fits(e, least)
    ensures RunsFollow(s, Step(p, s, e), EffectOf(p, s, e))
  {
    if e.Fetch? {
      FetchRuns(p, s, e);
    } else if e.Settle? {
      SettleRuns(p, s, e.draw, least);
    } else if !e.Create? {
      QuietRuns(p, s, e);
    } else {
      StepFollows(p, s, e);
      hide D.Step, D.WellFormed, QueueToken, StreamToken, PhaseToken;
    }
  }

  ghost predicate RunOnce(s: State)
    requires WellFormed(s)
  {
    && (forall at | TokenAt(s, at).Some? ::
          LedgerOf(s, TokenAt(s, at).value.invocationId).runs == if Ran(at) then 1 else 0)
    && (forall id :: LedgerOf(s, id).runs <= 1)
  }

  lemma RunsStayOnce(s: State, r: State, f: Effect)
    requires WellFormed(s) && WellFormed(r) && Follows(s, r, f) && RunsFollow(s, r, f)
    requires TokensAreUnique(r) && RunOnce(s)
    ensures RunOnce(r)
  {
    hide TokenAt, LedgerOf, D.WellFormed;
    forall at | TokenAt(r, at).Some?
      ensures LedgerOf(r, TokenAt(r, at).value.invocationId).runs == if Ran(at) then 1 else 0
    {
      if f.Moved? && at == f.to {
        assert TokenAt(s, f.from).Some?;
      } else if !f.Born? || at != f.at {
        assert TokenAt(s, at) == TokenAt(r, at);
      }
    }
  }

  lemma {:induction false} SlowFailuresRunOnce(p: Setting, events: seq<Event>, least: int)
    requires p.source.FromDuration? && p.policy.maxRetries <= least && Admissible(events, least)
    ensures RunOnce(Run(p, events)) && Slow(Run(p, events), least)
  {
    if events == [] {
    } else {
      var init, e := events[..|events| - 1], events[|events| - 1];
      SlowFailuresRunOnce(p, init, least);
      NeverTwoTokens(p, events);
      StepFollows(p, Run(p, init), e);
      StepKeepsSlow(p, Run(p, init), e, least);
      StepRuns(p, Run(p, init), e, least);
      hide Step, EffectOf, Slow, Follows, RunsFollow, RunOnce;
      RunsStayOnce(Run(p, init), Run(p, events), EffectOf(p, Run(p, init), e));
    }
  }

  /** The limit holds for this invocation in this run. */
  ghost predicate Limited(p: Setting, events: seq<Event>, id: string) {
    LedgerOf(Run(p, events), id).runs <= Limit(p) + 1
  }

  function AtLeastZero(least: int): nat { if least < 0 then 0 else least }

  lemma NoNegativeDurations(events: seq<Event>, least: int)
    ensures Admissible(events, least) <==> Admissible(events, AtLeastZero(least))
  {
    assert forall e :: Fits(e, least) <==> Fits(e, AtLeastZero(least));
  }

  /** As the code is, the limit on runs holds in all runs whose failures take at least so many
      milliseconds exactly when that is no less than the number of retries allowed, or when none
      is allowed. */
  lemma LimitHoldsExactlyForSlowFailures(p: Setting, least: int)
    requires p.source.FromDuration?
    ensures (forall events, id | Admissible(events, least) :: Limited(p, events, id))
            <==> p.policy.maxRetries <= least || p.policy.maxRetries <= 0
  {
    hide Run, LedgerOf, Admissible;
    if p.policy.maxRetries <= AtLeastZero(least) {
      forall events, id | Admissible(events, least) ensures Limited(p, events, id) {
        NoNegativeDurations(events, least);
        SlowFailuresRunOnce(p, events, AtLeastZero(least));
      }
    } else {
      var job := Job("", "", "", "", "", 0, 0);
      var events := RetriedForEver(p, job, "", AtLeastZero(least), Limit(p) + 2);
      NoNegativeDurations(events, least);
      assert !Limited(p, events, "");
    }
  }
}
