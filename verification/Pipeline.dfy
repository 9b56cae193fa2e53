/** The whole pipeline, from Invoke through dispatcher, worker and result handler to the retry
    timers, as one machine of interleaved small steps. Writes succeed and nobody crashes; what
    executions give, how long jobs wait and who acts next is arbitrary. */
module Pipeline {
  import opened Common
  import opened Streams
  import opened Queue
  import opened Backoff
  import opened Invocation
  import D = Dispatcher

  datatype Setting = Setting(policy: Config, source: AttemptSource)

  /** A worker that is not idle runs a job, or has published its result and must acknowledge. */
  datatype WorkerPhase = Running(id: nat, job: Job) | Reporting(id: nat)

  /** Results are handled one at a time: read and about to be decided on, to be marked RETRYING
      after the timer was armed, or to be recorded as a dead letter after it was marked FAILED. */
  datatype Handler = Ready | Deciding(result: JobResult) | Marking(invocationId: string) | Burying(job: Job)

  /** History of one invocation: how often it was run and marked RETRYING, which of its results
      that were handled were successes, the attempts noted in its dead letters, and the random
      draws and delays of its retry timers. */
  datatype Ledger = Ledger(runs: nat, marks: nat, verdicts: seq<bool>, letters: seq<int>,
                           draws: seq<real>, delays: seq<int>)

  const BLANK: Ledger := Ledger(0, 0, [], [], [], [])

  datatype State = State(
    dispatcher: D.State,
    invoking: map<string, Job>,
    workers: map<string, WorkerPhase>,
    results: seq<Option<JobResult>>,
    seen: nat,
    handler: Handler,
    timers: seq<Option<Job>>,
    statuses: map<string, Status>,
    ledgers: map<string, Ledger>)

  datatype Event =
    | Create(job: Job)
    | Enqueue(invocationId: string)
    | Dispatch(event: D.Event)
    | Fetch(worker: string)
    | Publish(worker: string, status: string, exitCode: int, durationMs: int, error: string, readable: bool)
    | AckWork(worker: string, outcome: Outcome)
    | Take
    | Settle(draw: real)
    | Mark
    | Bury
    | Fire(timer: nat)

  /** What the dispatcher and readers of no concern to the pipeline do while writes succeed:
      a worker's own reads are `Fetch`. */
  predicate Allowed(e: D.Event) {
    match e
    case Dequeue(outcome) => outcome.Done?
    case Select(_) => true
    case Forward(outcome) => outcome.Done?
    case Requeue(outcome) => outcome.Done?
    case Confirm(_) => true
    case Other(stream, op) => D.Foreign(stream, op) && (op.Create? || stream == JOB_STREAM)
    case _ => false
  }

  ghost predicate WellFormed(s: State) { D.WellFormed(s.dispatcher.streams) && s.seen <= |s.results| }

  function LedgerOf(s: State, id: string): Ledger {
    if id in s.ledgers then s.ledgers[id] else BLANK
  }

  function Noted(s: State, id: string, ledger: Ledger): State { s.(ledgers := s.ledgers[id := ledger]) }

  function Accept(s: State, job: Job): State
    requires WellFormed(s)
  {
    s.(dispatcher := D.Step(s.dispatcher, D.Accept(job, Done)))
  }

  function ResultFor(job: Job, e: Event): JobResult
    requires e.Publish?
  {
    JobResult(job.invocationId, job.functionId, job.versionId, e.status, e.exitCode, e.durationMs,
              job.retryCount, e.error, 0)
  }

  // The effect of each event; one that is not possible changes nothing.

  function Created(s: State, job: Job): State {
    var id := job.invocationId;
    if id in s.statuses || id in s.invoking then s else
    Noted(s, id, BLANK).(statuses := s.statuses[id := PENDING],
                                    invoking := s.invoking[id := job.(retryCount := 0)])
  }

  function Invoked(s: State, id: string): State
    requires WellFormed(s)
  {
    if id !in s.invoking then s else Accept(s, s.invoking[id]).(invoking := s.invoking - {id})
  }

  /** Worker w can take the message at its cursor. */
  predicate CanFetch(s: State, w: string) {
    var log := D.WorkerLog(s.dispatcher.streams, w);
    w !in s.workers && w in log.groups && log.groups[w].cursor < |log.entries|
  }

  function Fetched(s: State, w: string): State
    requires WellFormed(s)
  {
    if !CanFetch(s, w) then s else
    var log := D.WorkerLog(s.dispatcher.streams, w);
    var id := log.groups[w].cursor;
    var read := s.(dispatcher := D.Step(s.dispatcher, D.Other(D.WorkerStream(w), Read(w, 1))));
    if log.entries[id].None? then read.(workers := s.workers[w := Reporting(id)]) else
    var job := log.entries[id].value;
    var ledger := LedgerOf(s, job.invocationId);
    Noted(read, job.invocationId, ledger.(runs := ledger.runs + 1)).(workers := s.workers[w := Running(id, job)])
  }

  function Published(s: State, e: Event): State
    requires e.Publish?
  {
    var w := e.worker;
    if w !in s.workers || !s.workers[w].Running? then s else
    s.(results := s.results + [if e.readable then Some(ResultFor(s.workers[w].job, e)) else None],
       workers := s.workers[w := Reporting(s.workers[w].id)])
  }

  function Acknowledged(s: State, w: string, outcome: Outcome): State
    requires WellFormed(s)
  {
    if w !in s.workers || !s.workers[w].Reporting? then s else
    var acked := if outcome.Applied()
                 then D.Step(s.dispatcher, D.Other(D.WorkerStream(w), Op.Acknowledge(w, s.workers[w].id)))
                 else s.dispatcher;
    s.(dispatcher := acked, workers := s.workers - {w})
  }

  function Taken(s: State): State
    requires s.seen <= |s.results|
  {
    if !s.handler.Ready? || s.seen == |s.results| then s else
    var result := s.results[s.seen];
    s.(seen := s.seen + 1, handler := if result.Some? then Deciding(result.value) else Ready)
  }

  function Judged(ledger: Ledger, result: JobResult): Ledger {
    ledger.(verdicts := ledger.verdicts + [Succeeded(result)])
  }

  function Settled(p: Setting, s: State, draw: real): State {
    if !s.handler.Deciding? then s else
    var result, id := s.handler.result, s.handler.result.invocationId;
    var ledger := Judged(LedgerOf(s, id), result);
    match Decide(p.policy, p.source, result, draw)
    case Succeed => Noted(s, id, ledger).(statuses := Updated(s.statuses, id, SUCCESS), handler := Ready)
    case Retry(job, delay) =>
      Noted(s, id, ledger.(draws := ledger.draws + [draw], delays := ledger.delays + [delay]))
        .(timers := s.timers + [Some(job)], handler := Marking(id))
    case GiveUp(job) => Noted(s, id, ledger).(statuses := Updated(s.statuses, id, FAILED), handler := Burying(job))
  }

  function Marked(s: State): State {
    if !s.handler.Marking? then s else
    var id := s.handler.invocationId;
    var ledger := LedgerOf(s, id);
    Noted(s, id, ledger.(marks := ledger.marks + 1)).(statuses := Updated(s.statuses, id, RETRYING), handler := Ready)
  }

  function Buried(s: State): State {
    if !s.handler.Burying? then s else
    var job := s.handler.job;
    var ledger := LedgerOf(s, job.invocationId);
    Noted(s, job.invocationId, ledger.(letters := ledger.letters + [job.retryCount])).(handler := Ready)
  }

  function Fired(s: State, k: nat): State
    requires WellFormed(s)
  {
    if |s.timers| <= k || s.timers[k].None? then s else
    Accept(s, s.timers[k].value).(timers := s.timers[k := None])
  }

  function Step(p: Setting, s: State, e: Event): (r: State)
    requires WellFormed(s)
    ensures WellFormed(r)
  {
    match e
    case Create(job) => Created(s, job)
    case Enqueue(id) => Invoked(s, id)
    case Dispatch(event) => if Allowed(event) then s.(dispatcher := D.Step(s.dispatcher, event)) else s
    case Fetch(w) => Fetched(s, w)
    case Publish(_, _, _, _, _, _) => Published(s, e)
    case AckWork(w, outcome) => Acknowledged(s, w, outcome)
    case Take => Taken(s)
    case Settle(draw) => Settled(p, s, draw)
    case Mark => Marked(s)
    case Bury => Buried(s)
    case Fire(k) => Fired(s, k)
  }

  const START: State := State(D.START, map[], map[], [], 0, Ready, [], map[], map[])

  function Run(p: Setting, events: seq<Event>): (r: State)
    ensures WellFormed(r)
  {
    if events == [] then START else Step(p, Run(p, events[..|events| - 1]), events[|events| - 1])
  }

  // --- Tokens ---

  /** Wherever a job or its result is on its way, it is a token of its invocation. */
  datatype Token = Token(invocationId: string, attempt: int)

  datatype Place =
    | AtInvoke(invocationId: string)
    | InQueue(position: nat)
    | AtDispatcher
    | InWorkerStream(worker: string, position: nat)
    | AtWorker(worker: string)
    | InResults(position: nat)
    | AtHandler
    | InTimer(timer: nat)

  function TokenOf(job: Job): Token { Token(job.invocationId, job.retryCount) }

  function QueueToken(d: D.State, position: nat): Option<Token>
    requires D.WellFormed(d.streams)
  {
    var log := D.JobLog(d.streams);
    if log.groups[D.GROUP].cursor <= position < |log.entries| && log.entries[position].Some?
    then Some(TokenOf(log.entries[position].value)) else None
  }

  function WorkerCursor(d: D.State, worker: string): nat {
    var log := D.WorkerLog(d.streams, worker);
    if worker in log.groups then log.groups[worker].cursor else 0
  }

  function StreamToken(d: D.State, worker: string, position: nat): Option<Token> {
    var log := D.WorkerLog(d.streams, worker);
    if WorkerCursor(d, worker) <= position < |log.entries| && log.entries[position].Some?
    then Some(TokenOf(log.entries[position].value)) else None
  }

  function PhaseToken(phase: D.Phase): Option<Token> {
    if phase.Holding? || phase.Assigned? || phase.Bounced? then Some(TokenOf(phase.job)) else None
  }

  function TokenAt(s: State, place: Place): Option<Token>
    requires WellFormed(s)
  {
    match place
    case AtInvoke(id) => if id in s.invoking then Some(TokenOf(s.invoking[id])) else None
    case InQueue(position) => QueueToken(s.dispatcher, position)
    case AtDispatcher => PhaseToken(s.dispatcher.phase)
    case InWorkerStream(w, position) => StreamToken(s.dispatcher, w, position)
    case AtWorker(w) => if w in s.workers && s.workers[w].Running? then Some(TokenOf(s.workers[w].job)) else None
    case InResults(k) =>
      if s.seen <= k < |s.results| && s.results[k].Some?
      then Some(Token(s.results[k].value.invocationId, s.results[k].value.attempt)) else None
    case AtHandler =>
      if s.handler.Deciding? then Some(Token(s.handler.result.invocationId, s.handler.result.attempt)) else None
    case InTimer(k) => if k < |s.timers| && s.timers[k].Some? then Some(TokenOf(s.timers[k].value)) else None
  }

  // --- What the steps of the dispatcher and the readers do to tokens ---

  lemma AcceptEffect(d: D.State, job: Job)
    requires D.WellFormed(d.streams)
    ensures var r, end := D.Step(d, D.Accept(job, Done)), |D.JobLog(d.streams).entries|;
            && r.phase == d.phase
            && QueueToken(d, end).None?
            && (forall k: nat :: QueueToken(r, k) == if k == end then Some(TokenOf(job)) else QueueToken(d, k))
            && (forall w, k: nat :: StreamToken(r, w, k) == StreamToken(d, w, k))
  {
  }

  lemma DequeueEffect(d: D.State)
    requires D.WellFormed(d.streams) && d.phase.Idle?
    ensures var r, cursor := D.Step(d, D.Dequeue(Done)), D.JobLog(d.streams).groups[D.GROUP].cursor;
            && PhaseToken(r.phase) == QueueToken(d, cursor)
            && (forall k: nat :: QueueToken(r, k) == if k == cursor then None else QueueToken(d, k))
            && (forall w, k: nat :: StreamToken(r, w, k) == StreamToken(d, w, k))
  {
  }

  lemma ForwardEffect(d: D.State)
    requires D.WellFormed(d.streams) && d.phase.Assigned?
    ensures var r, to := D.Step(d, D.Forward(Done)), d.phase.worker;
            var end := |D.WorkerLog(d.streams, to).entries|;
            && r.phase.Forwarded?
            && StreamToken(d, to, end).None?
            && (forall k: nat :: QueueToken(r, k) == QueueToken(d, k))
            && (forall w, k: nat :: StreamToken(r, w, k) ==
                  if w == to && k == end then Some(TokenOf(d.phase.job)) else StreamToken(d, w, k))
  {
  }

  lemma RequeueEffect(d: D.State)
    requires D.WellFormed(d.streams) && d.phase.Bounced?
    ensures var r, end := D.Step(d, D.Requeue(Done)), |D.JobLog(d.streams).entries|;
            && r.phase.Idle?
            && QueueToken(d, end).None?
            && (forall k: nat :: QueueToken(r, k) == if k == end then Some(TokenOf(d.phase.job)) else QueueToken(d, k))
            && (forall w, k: nat :: StreamToken(r, w, k) == StreamToken(d, w, k))
  {
  }

  /** The steps of the dispatcher that move no job. */
  predicate Moves(d: D.State, e: D.Event) {
    || (e.Dequeue? && d.phase.Idle?)
    || (e.Forward? && d.phase.Assigned?)
    || (e.Requeue? && d.phase.Bounced?)
  }

  lemma QuietEffect(d: D.State, e: D.Event)
    requires D.WellFormed(d.streams) && Allowed(e) && !Moves(d, e)
    ensures var r := D.Step(d, e);
            && PhaseToken(r.phase) == PhaseToken(d.phase)
            && (forall k: nat :: QueueToken(r, k) == QueueToken(d, k))
            && (forall w, k: nat :: StreamToken(r, w, k) == StreamToken(d, w, k))
  {
  }

  lemma FetchEffect(d: D.State, worker: string)
    requires D.WellFormed(d.streams) && worker in D.WorkerLog(d.streams, worker).groups
    requires WorkerCursor(d, worker) < |D.WorkerLog(d.streams, worker).entries|
    ensures var r, cursor := D.Step(d, D.Other(D.WorkerStream(worker), Read(worker, 1))), WorkerCursor(d, worker);
            && r.phase == d.phase
            && (forall k: nat :: QueueToken(r, k) == QueueToken(d, k))
            && (forall w, k: nat :: StreamToken(r, w, k) ==
                  if w == worker && k == cursor then None else StreamToken(d, w, k))
  {
  }

  lemma AckWorkEffect(d: D.State, worker: string, id: nat)
    requires D.WellFormed(d.streams)
    ensures var r := D.Step(d, D.Other(D.WorkerStream(worker), Op.Acknowledge(worker, id)));
            && r.phase == d.phase
            && (forall k: nat :: QueueToken(r, k) == QueueToken(d, k))
            && (forall w, k: nat :: StreamToken(r, w, k) == StreamToken(d, w, k))
  {
  }
}
