/** How often an invocation is run and retried when the attempt number is carried along, and
    what happens when it is read from the duration instead, as the code does. */
module Retries {
  import opened Common
  import opened Queue
  import opened Backoff
  import opened Invocation
  import opened Pipeline
  import opened Conservation
  import D = Dispatcher
  import S = Streams

  /** The number of retries that the policy allows. */
  function Limit(p: Setting): nat { if p.policy.maxRetries < 0 then 0 else p.policy.maxRetries }

  /** The place lies behind the execution of its attempt. */
  predicate Ran(at: Place) { at.AtWorker? || at.InResults? || at.AtHandler? }

  predicate AboutToMark(s: State, id: string) { s.handler.Marking? && s.handler.invocationId == id }

  ghost predicate Timed(p: Setting, ledger: Ledger) {
    Draws(ledger.draws) && ledger.delays == Delays(p.policy, ledger.draws)
  }

  ghost predicate AllFailed(verdicts: seq<bool>) { forall k | 0 <= k < |verdicts| :: !verdicts[k] }

  /** What holds of the ledger of any invocation; `marking` says that it is about to be marked. */
  ghost predicate Within(p: Setting, marking: bool, ledger: Ledger) {
    && ledger.runs <= Limit(p) + 1
    && ledger.marks + (if marking then 1 else 0) <= Limit(p)
    && Timed(p, ledger) && |ledger.draws| <= Limit(p)
  }

  /** The ledger of an invocation whose token is of this attempt: it was run for every earlier
      attempt, and for this one if `ran`; all results so far were failures; it was marked for
      every retry, save one to come if `marking`; and for every retry the policy's delay was
      armed. */
  ghost predicate Tallies(p: Setting, attempt: int, ran: bool, marking: bool, ledger: Ledger) {
    && 0 <= attempt <= Limit(p)
    && ledger.runs == attempt + (if ran then 1 else 0)
    && ledger.marks + (if marking then 1 else 0) == attempt
    && Timed(p, ledger) && |ledger.draws| == attempt
    && |ledger.verdicts| == attempt && AllFailed(ledger.verdicts)
  }

  ghost predicate Counted(p: Setting, s: State, at: Place)
    requires WellFormed(s)
  {
    TokenAt(s, at).Some? ==>
      var id := TokenAt(s, at).value.invocationId;
      Tallies(p, TokenAt(s, at).value.attempt, Ran(at), AboutToMark(s, id), LedgerOf(s, id))
  }

  predicate Finished(s: State, id: string) { id in s.statuses && !Live(s, id) }

  /** The ledger of a finished invocation: all its results before the last were failures, it
      failed if the last one was a failure too, and then every allowed retry was used. */
  ghost predicate Concluded(p: Setting, s: State, id: string) {
    var ledger := LedgerOf(s, id);
    Finished(s, id) ==>
      && 1 <= ledger.runs <= Limit(p) + 1
      && ledger.marks == ledger.runs - 1
      && Timed(p, ledger) && |ledger.draws| == ledger.marks
      && |ledger.verdicts| == ledger.runs && AllFailed(ledger.verdicts[..ledger.runs - 1])
      && (s.statuses[id].FAILED? <==> !ledger.verdicts[ledger.runs - 1])
      && (s.statuses[id].FAILED? ==> ledger.runs == Limit(p) + 1)
  }

  ghost predicate AllLimit(p: Setting, letters: seq<int>) {
    forall k | 0 <= k < |letters| :: letters[k] == Limit(p)
  }

  ghost predicate Counts(p: Setting, s: State)
    requires WellFormed(s)
  {
    && (forall at :: Counted(p, s, at))
    && (forall id :: Concluded(p, s, id))
    && (forall id :: Within(p, AboutToMark(s, id), LedgerOf(s, id)))
    && (forall id :: AllLimit(p, LedgerOf(s, id).letters))
    && (s.handler.Burying? ==> s.handler.job.retryCount == Limit(p))
  }

  /** Random draws lie in [0, 1). */
  predicate Sound(e: Event) { e.Settle? ==> 0.0 <= e.draw < 1.0 }

  // --- Steps that leave the ledgers alone ---

  /** A token at most moves on within the stages before, or after, the execution, or is lost. */
  predicate Carries(f: Effect) {
    f.Still? || f.Lost? || (f.Moved? && !f.from.AtHandler? && Ran(f.from) == Ran(f.to))
  }

  lemma QuietMoves(p: Setting, s: State, e: Event)
    requires WellFormed(s) && !e.Create? && !e.Settle? && !e.Fetch?
    ensures Carries(EffectOf(p, s, e))
  {
    hide QueueToken, StreamToken, PhaseToken, TokenAt, D.WellFormed;
  }

  /** Counts are kept when a token at most moves on and nothing is noted. */
  lemma CarryCounts(p: Setting, s: State, r: State, f: Effect)
    requires WellFormed(s) && WellFormed(r) && Counts(p, s) && Follows(s, r, f)
    requires Carries(f)
    requires r.statuses == s.statuses
    requires forall id :: LedgerOf(r, id) == LedgerOf(s, id)
    requires forall id :: AboutToMark(r, id) <==> AboutToMark(s, id)
    requires r.handler.Burying? ==> r.handler == s.handler
    ensures Counts(p, r)
  {
    hide TokenAt, LedgerOf, AboutToMark, Tallies, Timed, Within, AllLimit;
    forall at ensures Counted(p, r, at) {
      if f.Moved? && at == f.to {
        assert Counted(p, s, f.from);
      } else {
        assert Counted(p, s, at);
      }
    }
    forall id ensures Concluded(p, r, id) && Within(p, AboutToMark(r, id), LedgerOf(r, id)) {
      assert Concluded(p, s, id) && Within(p, AboutToMark(s, id), LedgerOf(s, id));
    }
  }

  lemma QuietKeepsCounts(p: Setting, s: State, e: Event)
    requires AtMostOneToken(s) && Counts(p, s)
    requires !e.Create? && !e.Settle? && !e.Fetch? && !e.Mark? && !e.Bury?
    ensures Counts(p, Step(p, s, e))
  {
    QuietMoves(p, s, e);
    QuietLeavesStatuses(p, s, e);
    StepFollows(p, s, e);
    hide Step, EffectOf, Follows, Counts;
    CarryCounts(p, s, Step(p, s, e), EffectOf(p, s, e));
  }

  // --- Steps that concern one invocation ---

  /** From s to r, at most what concerns this invocation has changed. */
  ghost predicate Concerns(s: State, r: State, f: Effect, id: string)
    requires WellFormed(s) && WellFormed(r)
  {
    && Follows(s, r, f)
    && (f.Moved? ==> Holds(s, f.from, id)) && (f.Born? ==> Holds(r, f.at, id))
    && (forall other | other != id :: LedgerOf(r, other) == LedgerOf(s, other))
    && (forall other | other != id :: AboutToMark(r, other) <==> AboutToMark(s, other))
    && (forall other | other != id :: other in r.statuses <==> other in s.statuses)
    && (forall other | other != id && other in s.statuses :: r.statuses[other] == s.statuses[other])
  }

  /** It remains to look at its own token, if it has one, and its own ledger. */
  lemma OneConcerned(p: Setting, s: State, r: State, f: Effect, id: string)
    requires WellFormed(s) && WellFormed(r) && Counts(p, s) && Concerns(s, r, f, id)
    requires forall at | Holds(r, at, id) :: Counted(p, r, at)
    requires Concluded(p, r, id) && Within(p, AboutToMark(r, id), LedgerOf(r, id))
    requires AllLimit(p, LedgerOf(r, id).letters)
    requires r.handler.Burying? ==> r.handler.job.retryCount == Limit(p)
    ensures Counts(p, r)
  {
    hide TokenAt, LedgerOf, AboutToMark, Tallies, Timed, Within, AllLimit;
    forall at ensures Counted(p, r, at) {
      if TokenAt(r, at).Some? && !Holds(r, at, id) {
        assert TokenAt(r, at) == TokenAt(s, at) && Counted(p, s, at);
      }
    }
    forall other
      ensures Concluded(p, r, other)
      ensures Within(p, AboutToMark(r, other), LedgerOf(r, other)) && AllLimit(p, LedgerOf(r, other).letters)
    {
      assert Concluded(p, s, other) && Within(p, AboutToMark(s, other), LedgerOf(s, other));
    }
  }

  lemma OnlyPlace(s: State, own: Place, id: string)
    requires AtMostOneToken(s) && Holds(s, own, id)
    ensures forall at | Holds(s, at, id) :: at == own
  {
    hide TokenAt;
  }

  lemma CreateConcerns(p: Setting, s: State, job: Job)
    requires AtMostOneToken(s) && job.invocationId !in s.statuses && job.invocationId !in s.invoking
    ensures var r, id := Step(p, s, Create(job)), job.invocationId;
            && AtMostOneToken(r) && Concerns(s, r, Born(AtInvoke(id)), id) && r.handler == s.handler
            && Holds(r, AtInvoke(id), id) && TokenAt(r, AtInvoke(id)).value.attempt == 0
            && LedgerOf(r, id) == BLANK && !AboutToMark(r, id) && Live(r, id)
  {
    var e := Create(job);
    StepFollows(p, s, e);
    StepKeepsAtMostOne(p, s, e);
    assert EffectOf(p, s, e) == Born(AtInvoke(job.invocationId));
    assert Step(p, s, e) == Created(s, job);
    assert Holds(Step(p, s, e), AtInvoke(job.invocationId), job.invocationId);
    hide D.WellFormed, Step, EffectOf, TokenAt, TokensAreLive, TokensAreUnique;
  }

  lemma CreateKeepsCounts(p: Setting, s: State, job: Job)
    requires AtMostOneToken(s) && Counts(p, s)
    ensures Counts(p, Step(p, s, Create(job)))
  {
    var id, r := job.invocationId, Step(p, s, Create(job));
    if id in s.statuses || id in s.invoking {
      assert r == s;
    } else {
      CreateConcerns(p, s, job);
      OnlyPlace(r, AtInvoke(id), id);
      hide D.WellFormed, WellFormed, Step, LedgerOf, TokenAt, Concerns, AtMostOneToken, Within, Timed;
      BlankTallies(p);
      hide Counts, Tallies;
      OneConcerned(p, s, r, Born(AtInvoke(id)), id);
    }
  }

  lemma BlankTallies(p: Setting)
    ensures Within(p, false, BLANK) && Tallies(p, 0, false, false, BLANK)
  {
    NoDelays(p.policy);
  }

  /** A worker that takes a job notes one more run of it. */
  lemma FetchNotes(p: Setting, s: State, w: string, id: string)
    requires WellFormed(s)
    ensures var r, f := Fetched(s, w), EffectOf(p, s, Fetch(w));
            && r.statuses == s.statuses && r.handler == s.handler
            && (f.Still? ==> forall other :: LedgerOf(r, other) == LedgerOf(s, other))
            && (!f.Still? ==> f.Moved? && f.from.InWorkerStream? && f.to.AtWorker?)
            && (f.Moved? && Holds(s, f.from, id) ==>
                  && LedgerOf(r, id) == LedgerOf(s, id).(runs := LedgerOf(s, id).runs + 1)
                  && forall other | other != id :: LedgerOf(r, other) == LedgerOf(s, other))
  {
    hide D.Step, D.WellFormed;
  }

  lemma FetchConcerns(p: Setting, s: State, w: string, id: string)
    requires AtMostOneToken(s) && EffectOf(p, s, Fetch(w)).Moved? && Holds(s, EffectOf(p, s, Fetch(w)).from, id)
    ensures var r, f := Step(p, s, Fetch(w)), EffectOf(p, s, Fetch(w));
            && Concerns(s, r, f, id) && Holds(r, f.to, id) && AtMostOneToken(r)
            && f.from.InWorkerStream? && f.to.AtWorker? && TokenAt(r, f.to) == TokenAt(s, f.from)
            && r.statuses == s.statuses && r.handler == s.handler
            && LedgerOf(r, id) == LedgerOf(s, id).(runs := LedgerOf(s, id).runs + 1)
  {
    assert Step(p, s, Fetch(w)) == Fetched(s, w);
    StepFollows(p, s, Fetch(w));
    StepKeepsAtMostOne(p, s, Fetch(w));
    hide D.WellFormed, Step, EffectOf, Fetched, LedgerOf, TokenAt, AtMostOneToken;
    FetchNotes(p, s, w, id);
  }

  lemma FetchKeepsCounts(p: Setting, s: State, w: string)
    requires AtMostOneToken(s) && Counts(p, s)
    ensures Counts(p, Step(p, s, Fetch(w)))
  {
    var e := Fetch(w);
    var r, f := Step(p, s, e), EffectOf(p, s, e);
    assert r == Fetched(s, w);
    StepFollows(p, s, e);
    hide D.WellFormed, Step, EffectOf, Fetched, LedgerOf, TokenAt, Timed, Concerns;
    FetchNotes(p, s, w, "");
    if f.Still? {
      CarryCounts(p, s, r, f);
    } else {
      var id := TokenAt(s, f.from).value.invocationId;
      FetchConcerns(p, s, w, id);
      OnlyPlace(r, f.to, id);
      assert Counted(p, s, f.from) && Concluded(p, s, id);
      assert !Finished(r, id) && Counted(p, r, f.to) && AllLimit(p, LedgerOf(s, id).letters);
      hide Counts, AtMostOneToken;
      OneConcerned(p, s, r, f, id);
    }
  }

  // --- The handling of results ---

  /** With the carried attempt number, a retry follows every failure before the last. */
  lemma CarriedDecision(p: Setting, result: JobResult, draw: real)
    requires p.source.Carried? && 0 <= result.attempt <= Limit(p)
    ensures match Decide(p.policy, p.source, result, draw)
            case Succeed => Succeeded(result)
            case Retry(job, delay) =>
              && job.retryCount == result.attempt + 1 <= Limit(p)
              && delay == p.policy.Calculate(result.attempt, draw) && !Succeeded(result)
            case GiveUp(job) => job.retryCount == result.attempt == Limit(p) && !Succeeded(result)
  {
  }

  lemma DelaysExtend(c: Config, draws: seq<real>, draw: real)
    ensures Delays(c, draws + [draw]) == Delays(c, draws) + [c.Calculate(|draws|, draw)]
  {
    hide Config.Calculate;
  }

  lemma SettleNotes(p: Setting, s: State, draw: real)
    requires WellFormed(s) && s.handler.Deciding?
    ensures var r, id := Settled(p, s, draw), s.handler.result.invocationId;
            && (forall other | other != id :: LedgerOf(r, other) == LedgerOf(s, other))
            && (match Decide(p.policy, p.source, s.handler.result, draw)
                case Succeed => LedgerOf(r, id) == Judged(LedgerOf(s, id), s.handler.result) && r.handler.Ready?
                case Retry(job, delay) =>
                  && LedgerOf(r, id) == Judged(LedgerOf(s, id), s.handler.result).(
                                          draws := LedgerOf(s, id).draws + [draw],
                                          delays := LedgerOf(s, id).delays + [delay])
                  && r.handler == Marking(id) && TokenAt(r, InTimer(|s.timers|)) == Some(TokenOf(job))
                case GiveUp(job) =>
                  LedgerOf(r, id) == Judged(LedgerOf(s, id), s.handler.result) && r.handler == Burying(job))
  {
    hide D.Step, D.WellFormed, Decide;
  }

  /** What the decision makes of the ledger of the job's invocation. */
  lemma SettledLedger(p: Setting, before: Ledger, result: JobResult, draw: real)
    requires p.source.Carried? && Tallies(p, result.attempt, true, false, before) && 0.0 <= draw < 1.0
    ensures var judged := Judged(before, result);
            match Decide(p.policy, p.source, result, draw)
            case Succeed => AllFailed(before.verdicts) && Succeeded(result) && Within(p, false, judged)
            case Retry(job, delay) =>
              var after := judged.(draws := before.draws + [draw], delays := before.delays + [delay]);
              && Tallies(p, job.retryCount, false, true, after) && Within(p, true, after)
            case GiveUp(job) =>
              && AllFailed(before.verdicts) && !Succeeded(result) && Within(p, false, judged)
              && before.runs == Limit(p) + 1 && job.retryCount == Limit(p)
  {
    CarriedDecision(p, result, draw);
    DelaysExtend(p.policy, before.draws, draw);
    hide Decide, Succeeded, Delays, Config.Calculate, Limit;
  }

  lemma SettleConcerns(p: Setting, s: State, draw: real)
    requires AtMostOneToken(s) && s.handler.Deciding?
    ensures var r, f := Step(p, s, Settle(draw)), EffectOf(p, s, Settle(draw));
            && AtMostOneToken(r) && Concerns(s, r, f, s.handler.result.invocationId)
  {
    var e := Settle(draw);
    StepFollows(p, s, e);
    StepKeepsAtMostOne(p, s, e);
    SettleLives(p, s, e);
    SettleMoves(p, s, draw);
    SettleNotes(p, s, draw);
    hide D.WellFormed, Step, EffectOf, Settled, LedgerOf, TokenAt, Decide, AtMostOneToken;
  }

  lemma SettleKeepsCounts(p: Setting, s: State, draw: real)
    requires p.source.Carried? && AtMostOneToken(s) && Counts(p, s) && 0.0 <= draw < 1.0 && s.handler.Deciding?
    ensures Counts(p, Step(p, s, Settle(draw)))
  {
    var e, result, id := Settle(draw), s.handler.result, s.handler.result.invocationId;
    var r, f := Step(p, s, e), EffectOf(p, s, e);
    assert Holds(s, AtHandler, id) && Counted(p, s, AtHandler) && AllLimit(p, LedgerOf(s, id).letters);
    SettledLedger(p, LedgerOf(s, id), result, draw);
    SettleMoves(p, s, draw);
    SettleConcerns(p, s, draw);
    SettleLives(p, s, e);
    SettleNotes(p, s, draw);
    hide D.WellFormed, WellFormed, Step, EffectOf, Settled, LedgerOf, TokenAt, Decide, Concerns, Timed, Within;
    DecideKeepsTheInvocation(p, result, draw);
    if Decide(p.policy, p.source, result, draw).Retry? {
      OnlyPlace(r, InTimer(|s.timers|), id);
    } else {
      assert forall at :: !Holds(r, at, id);
    }
    hide Counts, AtMostOneToken;
    OneConcerned(p, s, r, f, id);
  }

  lemma MarkKeepsCounts(p: Setting, s: State)
    requires AtMostOneToken(s) && Counts(p, s) && s.handler.Marking?
    ensures Counts(p, Step(p, s, Mark))
  {
    var id := s.handler.invocationId;
    var r := Step(p, s, Mark);
    assert r == Marked(s) && EffectOf(p, s, Mark) == Still;
    StepFollows(p, s, Mark);
    StepKeepsAtMostOne(p, s, Mark);
    assert LedgerOf(r, id) == LedgerOf(s, id).(marks := LedgerOf(s, id).marks + 1);
    assert forall other | other != id :: LedgerOf(r, other) == LedgerOf(s, other);
    assert Live(s, id) && Live(r, id) && AboutToMark(s, id) && !AboutToMark(r, id);
    hide D.WellFormed, Step, EffectOf, LedgerOf, TokenAt, Timed, AboutToMark;
    assert Concerns(s, r, Still, id);
    assert Within(p, true, LedgerOf(s, id));
    forall at | Holds(r, at, id) ensures Counted(p, r, at) {
      assert Counted(p, s, at);
    }
    hide Concerns, Counts, AtMostOneToken;
    OneConcerned(p, s, r, Still, id);
  }

  lemma BuryKeepsCounts(p: Setting, s: State)
    requires AtMostOneToken(s) && Counts(p, s) && s.handler.Burying?
    ensures Counts(p, Step(p, s, Bury))
  {
    var id := s.handler.job.invocationId;
    var r := Step(p, s, Bury);
    assert r == Buried(s) && EffectOf(p, s, Bury) == Still;
    StepFollows(p, s, Bury);
    StepKeepsAtMostOne(p, s, Bury);
    assert LedgerOf(r, id) == LedgerOf(s, id).(letters := LedgerOf(s, id).letters + [Limit(p)]);
    assert forall other | other != id :: LedgerOf(r, other) == LedgerOf(s, other);
    assert Finished(s, id) && Finished(r, id) && r.statuses == s.statuses;
    hide D.WellFormed, Step, EffectOf, LedgerOf, TokenAt, Timed;
    assert Concerns(s, r, Still, id);
    assert Concluded(p, s, id);
    assert forall at :: !Holds(r, at, id);
    hide Concerns, Counts, AtMostOneToken;
    OneConcerned(p, s, r, Still, id);
  }

  // --- All runs ---

  lemma StepKeepsCounts(p: Setting, s: State, e: Event)
    requires p.source.Carried? && AtMostOneToken(s) && Counts(p, s) && Sound(e)
    ensures Counts(p, Step(p, s, e))
  {
    assert (e.Mark? && !s.handler.Marking?) || (e.Bury? && !s.handler.Burying?) || (e.Settle? && !s.handler.Deciding?)
           ==> Step(p, s, e) == s;
    hide Step, AtMostOneToken, Counts, D.WellFormed;
    match e {
      case Create(job) => CreateKeepsCounts(p, s, job);
      case Fetch(w) => FetchKeepsCounts(p, s, w);
      case Settle(draw) => if s.handler.Deciding? { SettleKeepsCounts(p, s, draw); }
      case Mark => if s.handler.Marking? { MarkKeepsCounts(p, s); }
      case Bury => if s.handler.Burying? { BuryKeepsCounts(p, s); }
      case _ => QuietKeepsCounts(p, s, e);
    }
  }

  ghost predicate AllSound(events: seq<Event>) { forall i | 0 <= i < |events| :: Sound(events[i]) }

  lemma {:induction false} CountsHold(p: Setting, events: seq<Event>)
    requires p.source.Carried? && AllSound(events)
    ensures Counts(p, Run(p, events))
  {
    if events == [] {
      hide Within;
      BlankTallies(p);
    } else {
      CountsHold(p, events[..|events| - 1]);
      NeverTwoTokens(p, events[..|events| - 1]);
      StepKeepsCounts(p, Run(p, events[..|events| - 1]), events[|events| - 1]);
    }
  }

  /** With the attempt number carried along, in every state of every run: an invocation has been
      run at most maxRetries + 1 times and marked RETRYING at most maxRetries times. When it is
      finished, each of its runs was judged, and it FAILED if and only if all of them failed;
      then it was run and marked exactly that often, and its one dead letter (here, or just about
      to be written) says that maxRetries attempts were made. Otherwise it has none. */
  lemma {:induction false} RetriesAreExact(p: Setting, events: seq<Event>, id: string)
    requires p.source.Carried? && AllSound(events) && id in Run(p, events).statuses
    ensures var s := Run(p, events);
            var ledger := LedgerOf(s, id);
            && ledger.runs <= Limit(p) + 1 && ledger.marks <= Limit(p)
            && (!Live(s, id) ==>
                  && ledger.runs == ledger.marks + 1 == |ledger.verdicts|
                  && (s.statuses[id].FAILED? <==> AllFailed(ledger.verdicts)))
            && (s.statuses[id].FAILED? ==> ledger.runs == Limit(p) + 1)
            && ledger.letters == if !s.statuses[id].FAILED? || (s.handler.Burying? && s.handler.job.invocationId == id)
                                 then [] else [Limit(p)]
  {
    var s := Run(p, events);
    CountsHold(p, events);
    AtMostOneDeadLetter(p, events);
    hide Run, TokenAt, LedgerOf, Timed, Limit;
    assert Within(p, AboutToMark(s, id), LedgerOf(s, id)) && AllLimit(p, LedgerOf(s, id).letters);
    if !Live(s, id) {
      var ledger := LedgerOf(s, id);
      assert Concluded(p, s, id);
      assert ledger.verdicts == ledger.verdicts[..ledger.runs - 1] + [ledger.verdicts[ledger.runs - 1]];
    }
  }

  /** Under the default policy a failed invocation was run four times. */
  lemma {:induction false} DefaultFailsAfterFourRuns(p: Setting, events: seq<Event>, id: string)
    requires p.source.Carried? && p.policy == DEFAULT && AllSound(events)
    requires id in Run(p, events).statuses && Run(p, events).statuses[id].FAILED?
    ensures LedgerOf(Run(p, events), id).runs == 4 && LedgerOf(Run(p, events), id).marks == 3
  {
    RetriesAreExact(p, events, id);
    hide Run, LedgerOf;
  }

  // --- Delays ---

  /** How many delays after the first, immediate one a policy can arm. */
  function Waits(limit: nat): nat { if limit == 0 then 0 else limit - 1 }

  lemma WaitOfAHistory(c: Config, draws: seq<real>, limit: nat)
    requires c.Positive() && Draws(draws) && |draws| <= limit
    ensures TotalWait(c, draws) as real <= 1.3 * Times(Waits(limit) as real, c.maxDelay as real)
    ensures 1.0 < c.multiplier ==>
              TotalWait(c, draws) as real <= 1.3 * ClosedSum(c.initialDelay as real, c.multiplier, Waits(limit))
  {
    var initial, max := c.initialDelay as real, c.maxDelay as real;
    assert GeometricSum(initial, c.multiplier, 0) == 0.0;
    hide Delays, Config.Calculate, Times, GeometricSum, ClosedSum, Geometric;
    if 1.0 < c.multiplier {
      GeometricSumClosed(initial, c.multiplier, Waits(limit));
    }
    if draws == [] {
      NoDelays(c);
      TimesSign(Waits(limit) as real, max);
      GeometricSumGrows(initial, c.multiplier, 0, Waits(limit));
    } else {
      TotalWaitBound(c, draws);
      TimesMonotone(max, (|draws| - 1) as real, Waits(limit) as real);
      GeometricSumGrows(initial, c.multiplier, |draws| - 1, Waits(limit));
      if 1.0 < c.multiplier {
        GeometricSumClosed(initial, c.multiplier, |draws| - 1);
      }
    }
  }

  lemma NoDelays(c: Config)
    ensures Delays(c, []) == []
  {
    hide Config.Calculate;
  }

  /** What has been armed so far for one invocation, in every state of every run, adds up to no
      more than the policy allows: 3.9 seconds by default. */
  lemma {:induction false} ArmedDelaysAreBounded(p: Setting, events: seq<Event>, id: string)
    requires p.source.Carried? && p.policy.Positive() && AllSound(events)
    ensures var armed, c := Sum(LedgerOf(Run(p, events), id).delays) as real, p.policy;
            && armed <= 1.3 * Times(Waits(Limit(p)) as real, c.maxDelay as real)
            && (1.0 < c.multiplier ==> armed <= 1.3 * ClosedSum(c.initialDelay as real, c.multiplier, Waits(Limit(p))))
            && (c == DEFAULT ==> armed <= 3.9 * SECOND as real)
  {
    var draws := LedgerOf(Run(p, events), id).draws;
    CountsHold(p, events);
    assert Within(p, AboutToMark(Run(p, events), id), LedgerOf(Run(p, events), id));
    hide Run, LedgerOf, Delays, Sum, Times, ClosedSum, Counts;
    WaitOfAHistory(p.policy, draws, Limit(p));
    if p.policy == DEFAULT {
      DefaultTotalWait(draws);
    }
  }
}
