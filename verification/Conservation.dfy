/** Conservation in the pipeline: an invocation that is pending or retrying has exactly one
    token, in whatever state the pipeline is, and a finished one has none. */
module Conservation {
  import opened Common
  import opened Queue
  import opened Invocation
  import opened Pipeline
  import D = Dispatcher
  import S = Streams

  /** What a step does to the tokens. A token dies with the decision that finishes its
      invocation; it is lost with a result that cannot be read. */
  datatype Effect = Still | Moved(from: Place, to: Place) | Born(at: Place) | Died(at: Place) | Lost(at: Place)

  function EffectOf(p: Setting, s: State, e: Event): Effect
    requires WellFormed(s)
  {
    var d := s.dispatcher;
    var depth := |D.JobLog(d.streams).entries|;
    match e
    case Create(job) =>
      if job.invocationId in s.statuses || job.invocationId in s.invoking then Still
      else Born(AtInvoke(job.invocationId))
    case Enqueue(id) => if id in s.invoking then Moved(AtInvoke(id), InQueue(depth)) else Still
    case Dispatch(event) =>
      if !Allowed(event) || !Moves(d, event) then Still
      else if event.Dequeue? then
        var cursor := D.JobLog(d.streams).groups[D.GROUP].cursor;
        if QueueToken(d, cursor).Some? then Moved(InQueue(cursor), AtDispatcher) else Still
      else if event.Forward? then
        Moved(AtDispatcher, InWorkerStream(d.phase.worker, |D.WorkerLog(d.streams, d.phase.worker).entries|))
      else Moved(AtDispatcher, InQueue(depth))
    case Fetch(w) =>
      if w !in s.workers && w in D.WorkerLog(d.streams, w).groups && StreamToken(d, w, WorkerCursor(d, w)).Some?
      then Moved(InWorkerStream(w, WorkerCursor(d, w)), AtWorker(w)) else Still
    case Publish(w, _, _, _, _, readable) =>
      if TokenAt(s, AtWorker(w)).None? then Still
      else if readable then Moved(AtWorker(w), InResults(|s.results|))
      else Lost(AtWorker(w))
    case AckWork(_, _) => Still
    case Take =>
      if s.handler.Ready? && TokenAt(s, InResults(s.seen)).Some? then Moved(InResults(s.seen), AtHandler) else Still
    case Settle(draw) =>
      if !s.handler.Deciding? then Still
      else if Decide(p.policy, p.source, s.handler.result, draw).Retry? then Moved(AtHandler, InTimer(|s.timers|))
      else Died(AtHandler)
    case Mark => Still
    case Bury => Still
    case Fire(k) => if TokenAt(s, InTimer(k)).Some? then Moved(InTimer(k), InQueue(depth)) else Still
  }

  ghost predicate Holds(s: State, at: Place, id: string)
    requires WellFormed(s)
  {
    TokenAt(s, at).Some? && TokenAt(s, at).value.invocationId == id
  }

  /** The tokens of r are those of s with this effect; nothing else moves. */
  ghost predicate Follows(s: State, r: State, f: Effect)
    requires WellFormed(s) && WellFormed(r)
  {
    match f
    case Still => forall at :: TokenAt(r, at) == TokenAt(s, at)
    case Moved(from, to) =>
      && from != to && TokenAt(s, from).Some? && TokenAt(s, to).None? && TokenAt(r, from).None?
      && Holds(r, to, TokenAt(s, from).value.invocationId)
      && (!from.AtHandler? ==> TokenAt(r, to) == TokenAt(s, from))
      && forall at | at != from && at != to :: TokenAt(r, at) == TokenAt(s, at)
    case Born(new_) =>
      && TokenAt(s, new_).None? && TokenAt(r, new_).Some? && TokenAt(r, new_).value.attempt == 0
      && forall at | at != new_ :: TokenAt(r, at) == TokenAt(s, at)
    case _ =>
      && TokenAt(s, f.at).Some? && TokenAt(r, f.at).None?
      && forall at | at != f.at :: TokenAt(r, at) == TokenAt(s, at)
  }

  lemma CreateFollows(p: Setting, s: State, e: Event)
    requires WellFormed(s) && e.Create?
    ensures Follows(s, Step(p, s, e), EffectOf(p, s, e))
  {
    hide D.Step, QueueToken, StreamToken, PhaseToken;
  }

  lemma EnqueueFollows(p: Setting, s: State, e: Event)
    requires WellFormed(s) && e.Enqueue?
    ensures Follows(s, Step(p, s, e), EffectOf(p, s, e))
  {
    hide D.Step, QueueToken, StreamToken, PhaseToken;
    if e.invocationId in s.invoking {
      AcceptEffect(s.dispatcher, s.invoking[e.invocationId]);
    }
  }

  lemma FireFollows(p: Setting, s: State, e: Event)
    requires WellFormed(s) && e.Fire?
    ensures Follows(s, Step(p, s, e), EffectOf(p, s, e))
  {
    hide D.Step, QueueToken, StreamToken, PhaseToken;
    if e.timer < |s.timers| && s.timers[e.timer].Some? {
      AcceptEffect(s.dispatcher, s.timers[e.timer].value);
    }
  }

  /** A step of the dispatcher moves tokens only between the places it is concerned with. */
  lemma DispatcherOnly(s: State, r: State)
    requires WellFormed(s) && WellFormed(r) && r == s.(dispatcher := r.dispatcher)
    ensures forall at: Place | !at.InQueue? && !at.AtDispatcher? && !at.InWorkerStream? ::
              TokenAt(r, at) == TokenAt(s, at)
    ensures forall at: Place | at.InQueue? :: TokenAt(r, at) == QueueToken(r.dispatcher, at.position)
    ensures forall at: Place | at.InWorkerStream? :: TokenAt(r, at) == StreamToken(r.dispatcher, at.worker, at.position)
  {
    hide QueueToken, StreamToken, PhaseToken;
  }

  lemma QuietFollows(p: Setting, s: State, event: D.Event)
    requires WellFormed(s) && (!Allowed(event) || !Moves(s.dispatcher, event))
    ensures Follows(s, Step(p, s, Dispatch(event)), EffectOf(p, s, Dispatch(event)))
  {
    hide D.Step, QueueToken, StreamToken, PhaseToken;
    if Allowed(event) {
      QuietEffect(s.dispatcher, event);
      DispatcherOnly(s, Step(p, s, Dispatch(event)));
    }
  }

  lemma DequeueMoves(p: Setting, s: State)
    requires WellFormed(s) && s.dispatcher.phase.Idle?
    ensures var cursor := D.JobLog(s.dispatcher.streams).groups[D.GROUP].cursor;
            && Step(p, s, Dispatch(D.Dequeue(Done))) == s.(dispatcher := D.Step(s.dispatcher, D.Dequeue(Done)))
            && EffectOf(p, s, Dispatch(D.Dequeue(Done))) ==
               if QueueToken(s.dispatcher, cursor).Some? then Moved(InQueue(cursor), AtDispatcher) else Still
  {
    hide D.Step, QueueToken;
  }

  lemma DequeueFollows(p: Setting, s: State)
    requires WellFormed(s) && s.dispatcher.phase.Idle?
    ensures Follows(s, Step(p, s, Dispatch(D.Dequeue(Done))), EffectOf(p, s, Dispatch(D.Dequeue(Done))))
  {
    assert PhaseToken(s.dispatcher.phase).None?;
    DequeueMoves(p, s);
    hide Step, EffectOf, D.Step, D.JobLog, D.WellFormed, QueueToken, StreamToken, PhaseToken;
    DequeueEffect(s.dispatcher);
    DispatcherOnly(s, Step(p, s, Dispatch(D.Dequeue(Done))));
  }

  lemma ForwardFollows(p: Setting, s: State)
    requires WellFormed(s) && s.dispatcher.phase.Assigned?
    ensures Follows(s, Step(p, s, Dispatch(D.Forward(Done))), EffectOf(p, s, Dispatch(D.Forward(Done))))
  {
    hide D.Step, QueueToken, StreamToken;
    ForwardEffect(s.dispatcher);
    DispatcherOnly(s, Step(p, s, Dispatch(D.Forward(Done))));
  }

  lemma RequeueFollows(p: Setting, s: State)
    requires WellFormed(s) && s.dispatcher.phase.Bounced?
    ensures Follows(s, Step(p, s, Dispatch(D.Requeue(Done))), EffectOf(p, s, Dispatch(D.Requeue(Done))))
  {
    hide D.Step, QueueToken, StreamToken;
    RequeueEffect(s.dispatcher);
    DispatcherOnly(s, Step(p, s, Dispatch(D.Requeue(Done))));
  }

  lemma DispatchFollows(p: Setting, s: State, event: D.Event)
    requires WellFormed(s)
    ensures Follows(s, Step(p, s, Dispatch(event)), EffectOf(p, s, Dispatch(event)))
  {
    hide Step, EffectOf, Follows;
    if !Allowed(event) || !Moves(s.dispatcher, event) {
      QuietFollows(p, s, event);
    } else if event.Dequeue? {
      DequeueFollows(p, s);
    } else if event.Forward? {
      ForwardFollows(p, s);
    } else {
      RequeueFollows(p, s);
    }
  }

  /** What a worker takes is the token at its cursor. */
  lemma FetchStep(s: State, w: string)
    requires WellFormed(s) && CanFetch(s, w)
    ensures var r, d := Fetched(s, w), s.dispatcher;
            && WellFormed(r)
            && r.dispatcher == D.Step(d, D.Other(D.WorkerStream(w), S.Read(w, 1)))
            && TokenAt(r, AtWorker(w)) == StreamToken(d, w, WorkerCursor(d, w))
            && r.workers == s.workers[w := r.workers[w]]
            && r == s.(dispatcher := r.dispatcher, workers := r.workers, ledgers := r.ledgers)
  {
    hide D.Step, D.WorkerLog, LedgerOf, D.WellFormed;
  }

  lemma FetchMoves(p: Setting, s: State, w: string)
    requires WellFormed(s) && CanFetch(s, w)
    ensures var from := InWorkerStream(w, WorkerCursor(s.dispatcher, w));
            && Step(p, s, Fetch(w)) == Fetched(s, w)
            && WorkerCursor(s.dispatcher, w) == D.WorkerLog(s.dispatcher.streams, w).groups[w].cursor
            && EffectOf(p, s, Fetch(w)) == if TokenAt(s, from).Some? then Moved(from, AtWorker(w)) else Still
  {
    hide D.Step, D.WellFormed, StreamToken, QueueToken, Fetched;
  }

  lemma FetchTokens(s: State, w: string)
    requires WellFormed(s) && CanFetch(s, w)
    ensures var r, from := Fetched(s, w), InWorkerStream(w, WorkerCursor(s.dispatcher, w));
            && WellFormed(r) && TokenAt(s, AtWorker(w)).None?
            && forall at :: TokenAt(r, at) ==
                 if at == from then None else if at == AtWorker(w) then TokenAt(s, from) else TokenAt(s, at)
  {
    FetchEffect(s.dispatcher, w);
    FetchStep(s, w);
    hide D.Step, D.WorkerLog, D.WellFormed, QueueToken, StreamToken, PhaseToken, Fetched, WorkerCursor;
  }

  lemma FetchFollows(p: Setting, s: State, e: Event)
    requires WellFormed(s) && e.Fetch?
    ensures Follows(s, Step(p, s, e), EffectOf(p, s, e))
  {
    hide Step, EffectOf, TokenAt, WellFormed, Fetched, CanFetch, WorkerCursor;
    if CanFetch(s, e.worker) {
      FetchMoves(p, s, e.worker);
      FetchTokens(s, e.worker);
    } else {
      NothingToFetch(p, s, e.worker);
    }
  }

  lemma NothingToFetch(p: Setting, s: State, w: string)
    requires WellFormed(s) && !CanFetch(s, w)
    ensures Step(p, s, Fetch(w)) == s && EffectOf(p, s, Fetch(w)) == Still
  {
  }

  lemma PublishFollows(p: Setting, s: State, e: Event)
    requires WellFormed(s) && e.Publish?
    ensures Follows(s, Step(p, s, e), EffectOf(p, s, e))
  {
    hide D.Step, D.WellFormed, QueueToken, StreamToken, PhaseToken;
    assert Step(p, s, e) == Published(s, e);
    assert EffectOf(p, s, e) == if TokenAt(s, AtWorker(e.worker)).None? then Still
                                else if e.readable then Moved(AtWorker(e.worker), InResults(|s.results|))
                                else Lost(AtWorker(e.worker));
    hide Step, EffectOf;
  }

  lemma AckWorkFollows(p: Setting, s: State, e: Event)
    requires WellFormed(s) && e.AckWork?
    ensures Follows(s, Step(p, s, e), EffectOf(p, s, e))
  {
    hide D.Step, QueueToken, StreamToken, PhaseToken;
    if e.worker in s.workers && s.workers[e.worker].Reporting? {
      AckWorkEffect(s.dispatcher, e.worker, s.workers[e.worker].id);
    }
  }

  lemma TakeFollows(p: Setting, s: State, e: Event)
    requires WellFormed(s) && e.Take?
    ensures Follows(s, Step(p, s, e), EffectOf(p, s, e))
  {
    hide D.Step, D.WellFormed, QueueToken, StreamToken, PhaseToken;
    assert Step(p, s, e) == Taken(s);
    assert EffectOf(p, s, e) == if s.handler.Ready? && TokenAt(s, InResults(s.seen)).Some?
                                then Moved(InResults(s.seen), AtHandler) else Still;
    hide Step, EffectOf;
  }

  lemma RecordFollows(p: Setting, s: State, e: Event)
    requires WellFormed(s) && (e.Mark? || e.Bury?)
    ensures Follows(s, Step(p, s, e), EffectOf(p, s, e))
  {
    hide D.Step, QueueToken, StreamToken, PhaseToken, Updated, LedgerOf;
  }

  lemma DecideKeepsTheInvocation(p: Setting, result: JobResult, draw: real)
    ensures var decision := Decide(p.policy, p.source, result, draw);
            !decision.Succeed? ==> decision.job.invocationId == result.invocationId
  {
  }

  lemma SettleMoves(p: Setting, s: State, draw: real)
    requires WellFormed(s)
    ensures Step(p, s, Settle(draw)) == Settled(p, s, draw)
    ensures EffectOf(p, s, Settle(draw)) ==
            if !s.handler.Deciding? then Still
            else if Decide(p.policy, p.source, s.handler.result, draw).Retry? then Moved(AtHandler, InTimer(|s.timers|))
            else Died(AtHandler)
  {
    hide D.WellFormed, Settled, Decide;
  }

  lemma SettleTokens(p: Setting, s: State, draw: real)
    requires WellFormed(s) && s.handler.Deciding?
    ensures var r, decision := Settled(p, s, draw), Decide(p.policy, p.source, s.handler.result, draw);
            && WellFormed(r) && TokenAt(s, InTimer(|s.timers|)).None?
            && forall at :: TokenAt(r, at) ==
                 if at == AtHandler then None
                 else if at == InTimer(|s.timers|) && decision.Retry? then Some(TokenOf(decision.job))
                 else TokenAt(s, at)
  {
    hide D.WellFormed, QueueToken, StreamToken, PhaseToken, Updated, Decide, LedgerOf, Judged;
  }

  lemma SettleFollows(p: Setting, s: State, e: Event)
    requires WellFormed(s) && e.Settle?
    ensures Follows(s, Step(p, s, e), EffectOf(p, s, e))
  {
    SettleMoves(p, s, e.draw);
    if s.handler.Deciding? {
      assert Holds(s, AtHandler, s.handler.result.invocationId);
      SettleTokens(p, s, e.draw);
      DecideKeepsTheInvocation(p, s.handler.result, e.draw);
      hide WellFormed, Step, EffectOf, Settled, TokenAt, Decide;
    } else {
      hide WellFormed, Step, EffectOf, TokenAt;
    }
  }

  lemma StepFollows(p: Setting, s: State, e: Event)
    requires WellFormed(s)
    ensures Follows(s, Step(p, s, e), EffectOf(p, s, e))
  {
    hide Step, EffectOf, Follows;
    match e {
      case Create(_) => CreateFollows(p, s, e);
      case Enqueue(_) => EnqueueFollows(p, s, e);
      case Fire(_) => FireFollows(p, s, e);
      case Dispatch(event) => DispatchFollows(p, s, event);
      case Fetch(_) => FetchFollows(p, s, e);
      case Publish(_, _, _, _, _, _) => PublishFollows(p, s, e);
      case AckWork(_, _) => AckWorkFollows(p, s, e);
      case Settle(_) => SettleFollows(p, s, e);
      case Take => TakeFollows(p, s, e);
      case _ => RecordFollows(p, s, e);
    }
  }

  // --- The invariant ---

  predicate Live(s: State, id: string) { id in s.statuses && (s.statuses[id].PENDING? || s.statuses[id].RETRYING?) }

  ghost predicate TokensAreLive(s: State)
    requires WellFormed(s)
  {
    forall at | TokenAt(s, at).Some? :: Live(s, TokenAt(s, at).value.invocationId)
  }

  ghost predicate LiveHaveTokens(s: State)
    requires WellFormed(s)
  {
    forall id | Live(s, id) :: exists at :: Holds(s, at, id)
  }

  ghost predicate TokensAreUnique(s: State)
    requires WellFormed(s)
  {
    forall a, b | TokenAt(s, a).Some? && TokenAt(s, b).Some?
                  && TokenAt(s, a).value.invocationId == TokenAt(s, b).value.invocationId :: a == b
  }

  /** An invocation about to be marked RETRYING is not finished; one about to be recorded as a
      dead letter has failed. */
  ghost predicate HandlerIsRight(s: State) {
    && (s.handler.Marking? ==> Live(s, s.handler.invocationId))
    && (s.handler.Burying? ==>
          s.handler.job.invocationId in s.statuses && s.statuses[s.handler.job.invocationId].FAILED?)
  }

  /** No invocation has two tokens, and a finished one has none. */
  ghost predicate AtMostOneToken(s: State) {
    WellFormed(s) && TokensAreLive(s) && TokensAreUnique(s) && HandlerIsRight(s)
  }

  /** An unfinished invocation has exactly one token, and a finished one has none. */
  ghost predicate OneToken(s: State) { AtMostOneToken(s) && LiveHaveTokens(s) }

  /** Which invocations are live changes with births and deaths only. */
  ghost predicate LivesFollow(s: State, r: State, f: Effect)
    requires WellFormed(s) && WellFormed(r)
  {
    match f
    case Born(at) =>
      TokenAt(r, at).Some? &&
      var born := TokenAt(r, at).value.invocationId;
      !Live(s, born) && (forall id :: Live(r, id) <==> Live(s, id) || id == born)
    case Died(at) =>
      TokenAt(s, at).Some? &&
      forall id :: Live(r, id) <==> Live(s, id) && id != TokenAt(s, at).value.invocationId
    case _ => forall id :: Live(r, id) <==> Live(s, id)
  }

  lemma FetchLeavesStatuses(s: State, w: string)
    requires WellFormed(s)
    ensures var r := Fetched(s, w);
            && r.statuses == s.statuses && r.handler == s.handler
            && forall id :: LedgerOf(r, id).letters == LedgerOf(s, id).letters
  {
    hide D.Step, D.WorkerLog, TokenOf, D.WellFormed, CanFetch;
  }

  lemma QuietLeavesStatuses(p: Setting, s: State, e: Event)
    requires WellFormed(s) && !e.Create? && !e.Settle? && !e.Mark? && !e.Bury? && !e.Fetch?
    ensures var r := Step(p, s, e);
            && r.statuses == s.statuses && r.ledgers == s.ledgers
            && (r.handler == s.handler || (s.handler.Ready? && (r.handler.Ready? || r.handler.Deciding?)))
  {
    hide D.Step, D.WorkerLog, ResultFor, Allowed, D.WellFormed, Created, Settled, Marked, Buried, Fetched;
  }

  /** Only creation, the decision on a result and its recording touch statuses, ledgers' letters
      or what the handler is about to record. */
  lemma OthersLeaveStatuses(p: Setting, s: State, e: Event)
    requires WellFormed(s) && !e.Create? && !e.Settle? && !e.Mark? && !e.Bury?
    ensures var r := Step(p, s, e);
            && r.statuses == s.statuses
            && (r.handler == s.handler || (s.handler.Ready? && (r.handler.Ready? || r.handler.Deciding?)))
            && forall id :: LedgerOf(r, id).letters == LedgerOf(s, id).letters
  {
    assert e.Fetch? ==> Step(p, s, e) == Fetched(s, e.worker);
    hide Step;
    if e.Fetch? {
      FetchLeavesStatuses(s, e.worker);
    } else {
      QuietLeavesStatuses(p, s, e);
    }
  }

  /** The loss of a token: the guard of the branch in which a worker that runs a job publishes
      what nobody can read. */
  predicate Loses(s: State, e: Event) {
    e.Publish? && !e.readable && e.worker in s.workers && s.workers[e.worker].Running?
  }

  lemma LossIsTheEffect(p: Setting, s: State, e: Event)
    requires WellFormed(s)
    ensures EffectOf(p, s, e).Lost? <==> Loses(s, e)
    ensures Loses(s, e) ==> EffectOf(p, s, e) == Lost(AtWorker(e.worker)) && Step(p, s, e).statuses == s.statuses
  {
    hide QueueToken, StreamToken, PhaseToken, D.WellFormed;
    if !e.Publish? {
      hide Step, TokenAt;
    }
  }

  lemma OthersMove(p: Setting, s: State, e: Event)
    requires WellFormed(s) && !e.Create? && (e.Settle? ==> !s.handler.Deciding?)
    ensures var f := EffectOf(p, s, e); f.Still? || f.Moved? || f.Lost?
  {
    hide QueueToken, StreamToken, TokenAt;
  }

  lemma SettleLives(p: Setting, s: State, e: Event)
    requires AtMostOneToken(s) && e.Settle? && s.handler.Deciding?
    ensures var r, id := Step(p, s, e), s.handler.result.invocationId;
            && Live(s, id)
            && TokenAt(s, AtHandler).Some? && TokenAt(s, AtHandler).value.invocationId == id
            && (forall other | other != id :: other in r.statuses <==> other in s.statuses)
            && (forall other | other != id && other in s.statuses :: r.statuses[other] == s.statuses[other])
            && (match Decide(p.policy, p.source, s.handler.result, e.draw)
                case Succeed => id in r.statuses && r.statuses[id] == SUCCESS && r.handler == Ready
                case Retry(_, _) => r.statuses == s.statuses && r.handler == Marking(id)
                case GiveUp(job) => id in r.statuses && r.statuses[id] == FAILED && r.handler == Burying(job))
            && forall other :: LedgerOf(r, other).letters == LedgerOf(s, other).letters
  {
    assert TokenAt(s, AtHandler).Some?;
    hide D.Step, TokenAt, Decide, TokensAreUnique;
    DecideKeepsTheInvocation(p, s.handler.result, e.draw);
  }

  lemma CreateLives(p: Setting, s: State, e: Event)
    requires AtMostOneToken(s) && e.Create?
    ensures LivesFollow(s, Step(p, s, e), EffectOf(p, s, e)) && HandlerIsRight(Step(p, s, e))
  {
    hide QueueToken, StreamToken, PhaseToken, TokensAreUnique;
  }

  lemma StepLives(p: Setting, s: State, e: Event)
    requires AtMostOneToken(s)
    ensures LivesFollow(s, Step(p, s, e), EffectOf(p, s, e)) && HandlerIsRight(Step(p, s, e))
  {
    hide D.Step, QueueToken, StreamToken, PhaseToken, TokensAreUnique, Decide;
    if e.Settle? && s.handler.Deciding? {
      SettleLives(p, s, e);
      DecideKeepsTheInvocation(p, s.handler.result, e.draw);
    } else if e.Create? {
      CreateLives(p, s, e);
    } else {
      OthersMove(p, s, e);
      hide EffectOf, TokenAt;
      if !e.Mark? && !e.Bury? && !e.Settle? {
        OthersLeaveStatuses(p, s, e);
        hide Step;
      }
    }
  }

  lemma EffectKeepsTokensRight(s: State, r: State, f: Effect)
    requires AtMostOneToken(s) && WellFormed(r) && Follows(s, r, f) && LivesFollow(s, r, f)
    ensures TokensAreLive(r) && TokensAreUnique(r)
  {
    hide TokenAt, Live;
  }

  lemma EffectKeepsTokens(s: State, r: State, f: Effect)
    requires OneToken(s) && WellFormed(r) && Follows(s, r, f) && LivesFollow(s, r, f) && !f.Lost?
    ensures LiveHaveTokens(r)
  {
    hide TokenAt, Live;
    forall id | Live(r, id) ensures exists at :: Holds(r, at, id) {
      if f.Born? && id == TokenAt(r, f.at).value.invocationId {
        assert Holds(r, f.at, id);
      } else {
        assert Live(s, id);
        var at :| Holds(s, at, id);
        if f.Moved? && at == f.from {
          assert Holds(r, f.to, id);
        } else {
          assert Holds(r, at, id);
        }
      }
    }
  }

  lemma StepKeepsAtMostOne(p: Setting, s: State, e: Event)
    requires AtMostOneToken(s)
    ensures AtMostOneToken(Step(p, s, e))
  {
    hide Step, EffectOf, Follows, LivesFollow, TokensAreLive, TokensAreUnique, HandlerIsRight;
    StepFollows(p, s, e);
    StepLives(p, s, e);
    EffectKeepsTokensRight(s, Step(p, s, e), EffectOf(p, s, e));
  }

  lemma StepKeepsOneToken(p: Setting, s: State, e: Event)
    requires OneToken(s) && !Loses(s, e)
    ensures OneToken(Step(p, s, e))
  {
    hide Step, EffectOf, Follows, LivesFollow, TokensAreLive, LiveHaveTokens, TokensAreUnique, HandlerIsRight, Loses;
    StepFollows(p, s, e);
    StepLives(p, s, e);
    StepKeepsAtMostOne(p, s, e);
    LossIsTheEffect(p, s, e);
    EffectKeepsTokens(s, Step(p, s, e), EffectOf(p, s, e));
  }

  /** Over all runs, no invocation has two tokens, and SUCCESS and FAILED ones have none. */
  lemma {:induction false} NeverTwoTokens(p: Setting, events: seq<Event>)
    ensures AtMostOneToken(Run(p, events))
  {
    if events == [] {
    } else {
      NeverTwoTokens(p, events[..|events| - 1]);
      StepKeepsAtMostOne(p, Run(p, events[..|events| - 1]), events[|events| - 1]);
    }
  }

  // --- Terminal statuses and dead letters ---

  lemma StepKeepsTerminal(p: Setting, s: State, e: Event, id: string)
    requires AtMostOneToken(s) && id in s.statuses && !Live(s, id)
    ensures id in Step(p, s, e).statuses && Step(p, s, e).statuses[id] == s.statuses[id]
  {
    if e.Settle? && s.handler.Deciding? {
      SettleLives(p, s, e);
      hide Step;
    } else if !e.Create? && !e.Settle? && !e.Mark? && !e.Bury? {
      OthersLeaveStatuses(p, s, e);
      hide Step;
    } else {
      hide TokenAt, TokensAreUnique, TokensAreLive;
    }
  }

  /** SUCCESS and FAILED are never left. */
  lemma {:induction false} TerminalIsForever(p: Setting, events: seq<Event>, k: nat, id: string)
    requires k <= |events| && id in Run(p, events[..k]).statuses && !Live(Run(p, events[..k]), id)
    ensures id in Run(p, events).statuses && Run(p, events).statuses[id] == Run(p, events[..k]).statuses[id]
    decreases |events|
  {
    if k == |events| {
      assert events[..k] == events;
    } else {
      var init := events[..|events| - 1];
      assert init[..k] == events[..k];
      TerminalIsForever(p, init, k, id);
      NeverTwoTokens(p, init);
      StepKeepsTerminal(p, Run(p, init), events[|events| - 1], id);
    }
  }

  /** A failed invocation has one dead letter, unless it is just about to be written; any other
      has none. */
  ghost predicate LettersRight(s: State) {
    forall id :: |LedgerOf(s, id).letters| ==
      if id in s.statuses && s.statuses[id].FAILED? && !(s.handler.Burying? && s.handler.job.invocationId == id)
      then 1 else 0
  }

  lemma StepKeepsLetters(p: Setting, s: State, e: Event)
    requires AtMostOneToken(s) && LettersRight(s)
    ensures LettersRight(Step(p, s, e))
  {
    if e.Settle? && s.handler.Deciding? {
      SettleLives(p, s, e);
      DecideKeepsTheInvocation(p, s.handler.result, e.draw);
      hide Step, Decide, TokenAt, TokensAreLive, TokensAreUnique;
    } else if !e.Create? && !e.Settle? && !e.Mark? && !e.Bury? {
      OthersLeaveStatuses(p, s, e);
      hide Step, TokenAt, TokensAreLive, TokensAreUnique;
    } else {
      hide TokenAt, TokensAreUnique, TokensAreLive;
    }
  }

  lemma {:induction false} AtMostOneDeadLetter(p: Setting, events: seq<Event>)
    ensures LettersRight(Run(p, events))
  {
    if events == [] {
    } else {
      var init := events[..|events| - 1];
      AtMostOneDeadLetter(p, init);
      NeverTwoTokens(p, init);
      StepKeepsLetters(p, Run(p, init), events[|events| - 1]);
    }
  }

  // --- Results that cannot be read ---

  /** Unfinished, and nothing on its way will ever finish it. */
  ghost predicate Stranded(s: State, id: string) {
    WellFormed(s) && Live(s, id) && (forall at :: !Holds(s, at, id))
  }

  /** A job whose result cannot be read leaves its invocation unfinished, */
  lemma UnreadableResultStrands(p: Setting, s: State, e: Event)
    requires AtMostOneToken(s) && Loses(s, e)
    ensures Stranded(Step(p, s, e), s.workers[e.worker].job.invocationId)
  {
    var id, r, at := s.workers[e.worker].job.invocationId, Step(p, s, e), AtWorker(e.worker);
    assert Holds(s, at, id);
    StepFollows(p, s, e);
    LossIsTheEffect(p, s, e);
    hide Step, EffectOf, TokenAt;
    assert Live(s, id) && Live(r, id);
    forall other ensures !Holds(r, other, id) {
      if other != at {
        assert TokenAt(r, other) == TokenAt(s, other);
      }
    }
  }

  lemma StepKeepsStranded(p: Setting, s: State, e: Event, id: string)
    requires Stranded(s, id)
    ensures Stranded(Step(p, s, e), id)
  {
    var r := Step(p, s, e);
    StepFollows(p, s, e);
    LiveUnlessSettled(p, s, e, id);
    hide Step, EffectOf, Follows, TokenAt;
    StillStranded(s, r, EffectOf(p, s, e), id);
  }

  lemma LiveUnlessSettled(p: Setting, s: State, e: Event, id: string)
    requires WellFormed(s) && Live(s, id) && !Holds(s, AtHandler, id)
    ensures Live(Step(p, s, e), id)
    ensures EffectOf(p, s, e).Born? ==> !Holds(Step(p, s, e), EffectOf(p, s, e).at, id)
  {
    if !e.Create? && !e.Settle? && !e.Mark? && !e.Bury? {
      OthersLeaveStatuses(p, s, e);
      OthersMove(p, s, e);
      hide Step, EffectOf, TokenAt;
    } else {
      hide D.Step, QueueToken, StreamToken, PhaseToken, D.WellFormed;
      if e.Settle? && s.handler.Deciding? {
        DecideKeepsTheInvocation(p, s.handler.result, e.draw);
      }
    }
  }

  lemma StillStranded(s: State, r: State, f: Effect, id: string)
    requires WellFormed(s) && WellFormed(r) && Follows(s, r, f) && forall at :: !Holds(s, at, id)
    requires f.Born? ==> !Holds(r, f.at, id)
    ensures forall at :: !Holds(r, at, id)
  {
    hide TokenAt;
    forall at ensures !Holds(r, at, id) {
      assert f.Moved? ==> !Holds(s, f.from, id);
      assert !Holds(s, at, id);
    }
  }

  /** and whatever happens from then on, unfinished it stays. */
  lemma {:induction false} StrandedForever(p: Setting, events: seq<Event>, k: nat, id: string)
    requires k <= |events| && Stranded(Run(p, events[..k]), id)
    ensures Stranded(Run(p, events), id)
    decreases |events|
  {
    if k == |events| {
      assert events[..k] == events;
    } else {
      var init := events[..|events| - 1];
      assert init[..k] == events[..k];
      StrandedForever(p, init, k, id);
      StepKeepsStranded(p, Run(p, init), events[|events| - 1], id);
    }
  }

  // --- Exactly one token ---

  /** Some step of the run lost a token. */
  ghost predicate Lossy(p: Setting, events: seq<Event>) {
    exists i | 0 <= i < |events| :: Loses(Run(p, events[..i]), events[i])
  }

  lemma LossyPrefix(p: Setting, events: seq<Event>)
    requires events != [] && !Lossy(p, events)
    ensures var init := events[..|events| - 1];
            !Lossy(p, init) && !Loses(Run(p, init), events[|events| - 1])
  {
    hide Run, Loses;
    var init := events[..|events| - 1];
    forall i | 0 <= i < |init| ensures !Loses(Run(p, init[..i]), init[i]) {
      assert init[..i] == events[..i] && init[i] == events[i];
    }
  }

  lemma {:induction false} NothingLostKeepsOneToken(p: Setting, events: seq<Event>)
    requires !Lossy(p, events)
    ensures OneToken(Run(p, events))
  {
    if events == [] {
    } else {
      var init := events[..|events| - 1];
      hide Loses, Step, OneToken, Lossy;
      LossyPrefix(p, events);
      NothingLostKeepsOneToken(p, init);
      StepKeepsOneToken(p, Run(p, init), events[|events| - 1]);
    }
  }

  lemma LossesStrand(p: Setting, events: seq<Event>, i: nat)
    requires i < |events| && Loses(Run(p, events[..i]), events[i])
    ensures Stranded(Run(p, events), Run(p, events[..i]).workers[events[i].worker].job.invocationId)
  {
    var s := Run(p, events[..i]);
    assert events[..i + 1][..i] == events[..i];
    NeverTwoTokens(p, events[..i]);
    UnreadableResultStrands(p, s, events[i]);
    hide Step, Loses;
    StrandedForever(p, events, i + 1, s.workers[events[i].worker].job.invocationId);
  }

  /** Over all runs: each invocation that is PENDING or RETRYING has exactly one token, and one
      that is SUCCESS or FAILED has none, if and only if no worker that ran a job ever published
      a result that cannot be read. */
  lemma {:induction false} ExactlyOneToken(p: Setting, events: seq<Event>)
    ensures OneToken(Run(p, events)) <==> !Lossy(p, events)
  {
    if Lossy(p, events) {
      var i :| 0 <= i < |events| && Loses(Run(p, events[..i]), events[i]);
      LossesStrand(p, events, i);
    } else {
      NothingLostKeepsOneToken(p, events);
    }
  }
}
