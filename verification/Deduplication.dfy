/** Concurrent requests with idempotency keys: any number of them run the steps of `Invoke`
    (check, lock, enqueue, store, release) interleaved in any way on a clock. */
module Deduplication {
  import opened Common
  import opened Idempotency

  /** Every request gets from its check to its store within `limit`. `ownToken` says whether a
      request releases its lock with the token it drew; the code passes "" instead. */
  datatype Setting = Setting(limit: int, ownToken: bool)

  datatype Stage =
    | Proceeding
    | Answered(cache: ResultCache)
    | Busy
    | Locked(token: string, lockedAt: int)
    | Aborted(token: string, lockedAt: int)
    | Enqueued(token: string, lockedAt: int, invocationId: string, enqueuedAt: int)
    | Finished(token: string, lockedAt: int, invocationId: string, enqueuedAt: int, storedAt: int)

  datatype Request = Request(key: string, start: int, stage: Stage)
  {
    /** Between its check and its store. */
    predicate InFlight() { stage.Proceeding? || stage.Locked? || stage.Enqueued? }

    predicate HasLocked() { stage.Locked? || stage.Aborted? || stage.Enqueued? || stage.Finished? }

    /** Its job is in the queue. */
    predicate HasEnqueued() { stage.Enqueued? || stage.Finished? }
  }

  datatype State = State(now: int, cells: Keyspace, requests: map<nat, Request>)

  datatype Event =
    | Tick(now: int)
    | Check(id: nat, key: string)
    | Lock(id: nat, token: string)
    | Abort(id: nat)
    | Enqueue(id: nat, invocationId: string)
    | Store(id: nat)
    | Release(id: nat)
    | Result(invocationId: string, status: string)

  function Releasing(p: Setting, cells: Keyspace, r: Request, now: int): Keyspace
    requires r.HasLocked()
  {
    CompareAndDelete(cells, LockKey(r.key), if p.ownToken then r.stage.token else "", now)
  }

  function To(s: State, id: nat, stage: Stage): State
    requires id in s.requests
  {
    s.(requests := s.requests[id := s.requests[id].(stage := stage)])
  }

  /** An event that is not possible changes nothing. */
  function Step(p: Setting, s: State, e: Event): State {
    match e
    case Tick(now) =>
      if && s.now <= now
         && (forall id | id in s.requests && s.requests[id].InFlight() :: now <= s.requests[id].start + p.limit)
      then s.(now := now) else s
    case Check(id, key) =>
      if id in s.requests || key == "" then s else
      var found := Checked(s.cells, key, s.now);
      s.(requests := s.requests[id := Request(key, s.now, if found.Some? then Answered(found.value) else Proceeding)])
    case Lock(id, token) =>
      if id !in s.requests || !s.requests[id].stage.Proceeding? || token == "" then s else
      var name := LockKey(s.requests[id].key);
      if Get(s.cells, name, s.now).Some? then To(s, id, Busy) else
      To(s.(cells := SetNX(s.cells, name, Token(token), s.now, LOCK_TTL)), id, Locked(token, s.now))
    case Abort(id) =>
      if id !in s.requests || !s.requests[id].stage.Locked? then s else
      var r := s.requests[id];
      To(s.(cells := Releasing(p, s.cells, r, s.now)), id, Aborted(r.stage.token, r.stage.lockedAt))
    case Enqueue(id, invocationId) =>
      if id !in s.requests || !s.requests[id].stage.Locked? then s else
      var r := s.requests[id];
      To(s, id, Enqueued(r.stage.token, r.stage.lockedAt, invocationId, s.now))
    case Store(id) =>
      if id !in s.requests || !s.requests[id].stage.Enqueued? then s else
      var r := s.requests[id];
      To(s.(cells := Stored(s.cells, r.key, Pending(r.stage.invocationId), s.now)), id,
         Finished(r.stage.token, r.stage.lockedAt, r.stage.invocationId, r.stage.enqueuedAt, s.now))
    case Release(id) =>
      if id !in s.requests || !s.requests[id].stage.Finished? then s else
      s.(cells := Releasing(p, s.cells, s.requests[id], s.now))
    case Result(invocationId, status) =>
      s.(cells := Stored(s.cells, "", ResultCache(invocationId, status, "", ""), s.now))
  }

  /** What Invoke caches for the key. */
  function Pending(invocationId: string): ResultCache { ResultCache(invocationId, "PENDING", "", "") }

  function Run(p: Setting, events: seq<Event>): State {
    if events == [] then State(0, map[], map[]) else
    Step(p, Run(p, events[..|events| - 1]), events[|events| - 1])
  }

  // --- What every run keeps ---

  /** The times of a request are in order and it is within its limit. */
  ghost predicate OnTime(p: Setting, now: int, r: Request) {
    && r.key != "" && r.start <= now
    && (r.InFlight() ==> now <= r.start + p.limit)
    && (r.HasLocked() ==> r.start <= r.stage.lockedAt <= now && r.stage.lockedAt <= r.start + p.limit)
    && (r.HasEnqueued() ==> r.stage.lockedAt <= r.stage.enqueuedAt <= now)
    && (r.stage.Finished? ==> r.stage.enqueuedAt <= r.stage.storedAt <= now && r.stage.storedAt <= r.start + p.limit)
  }

  ghost predicate AllOnTime(p: Setting, s: State) {
    forall id | id in s.requests :: OnTime(p, s.now, s.requests[id])
  }

  /** Lock cells hold non-empty tokens and outlast every lock ever taken on their key. */
  ghost predicate LocksLast(s: State) {
    && (forall key | LockKey(key) in s.cells ::
          s.cells[LockKey(key)].value.Token? && s.cells[LockKey(key)].value.token != "")
    && (forall id | id in s.requests && s.requests[id].HasLocked() ::
          var name := LockKey(s.requests[id].key);
          name in s.cells && s.requests[id].stage.lockedAt + LOCK_TTL <= s.cells[name].expires)
  }

  ghost predicate LocksApart(s: State) {
    forall a, b | a in s.requests && b in s.requests && a != b
                  && s.requests[a].HasLocked() && s.requests[b].HasLocked() && s.requests[a].key == s.requests[b].key ::
      || s.requests[a].stage.lockedAt + LOCK_TTL <= s.requests[b].stage.lockedAt
      || s.requests[b].stage.lockedAt + LOCK_TTL <= s.requests[a].stage.lockedAt
  }

  /** The request `id` stored the cached reply of `key`. */
  ghost predicate StoredBy(s: State, key: string, id: nat) {
    && id in s.requests && s.requests[id].stage.Finished? && s.requests[id].key == key
    && IdemKey(key) in s.cells
    && s.cells[IdemKey(key)] == Cell(Cached(Pending(s.requests[id].stage.invocationId)),
                                     s.requests[id].stage.storedAt + CACHE_TTL)
  }

  ghost predicate CacheLasts(s: State) {
    && (forall key | IdemKey(key) in s.cells :: exists id: nat :: StoredBy(s, key, id))
    && (forall id | id in s.requests && s.requests[id].stage.Finished? ::
          && s.requests[id].key != ""
          && IdemKey(s.requests[id].key) in s.cells
          && s.requests[id].stage.storedAt + CACHE_TTL <= s.cells[IdemKey(s.requests[id].key)].expires)
  }

  /** A request that found nothing cached did not start in the cache window of another. */
  ghost predicate ChecksHonest(s: State) {
    forall a, b | a in s.requests && b in s.requests && s.requests[a].stage.Finished?
                  && !s.requests[b].stage.Answered? && s.requests[a].key == s.requests[b].key
                  && s.requests[a].stage.storedAt < s.requests[b].start ::
      s.requests[a].stage.storedAt + CACHE_TTL <= s.requests[b].start
  }

  /** The request whose stored reply answered `id`. */
  ghost predicate AnsweredBy(s: State, id: nat, source: nat)
    requires id in s.requests && s.requests[id].stage.Answered?
  {
    && source in s.requests && s.requests[source].stage.Finished? && s.requests[source].key == s.requests[id].key
    && s.requests[id].stage.cache == Pending(s.requests[source].stage.invocationId)
    && s.requests[source].stage.storedAt <= s.requests[id].start < s.requests[source].stage.storedAt + CACHE_TTL
  }

  ghost predicate AnswersGenuine(s: State) {
    forall id | id in s.requests && s.requests[id].stage.Answered? :: exists source :: AnsweredBy(s, id, source)
  }

  ghost predicate Inv(p: Setting, s: State) {
    && AllOnTime(p, s) && LocksLast(s) && LocksApart(s) && CacheLasts(s) && ChecksHonest(s) && AnswersGenuine(s)
  }

  lemma StepOnTime(p: Setting, s: State, e: Event)
    requires 0 <= p.limit && AllOnTime(p, s)
    ensures AllOnTime(p, Step(p, s, e))
  {
  }

  /** Releasing with the empty token never deletes a lock. */
  lemma ReleaseDeletesNothing(p: Setting, s: State, r: Request)
    requires !p.ownToken && LocksLast(s) && r.HasLocked()
    ensures Releasing(p, s.cells, r, s.now) == s.cells
  {
  }

  lemma StepLocksLast(p: Setting, s: State, e: Event)
    requires !p.ownToken && AllOnTime(p, s) && LocksLast(s)
    ensures LocksLast(Step(p, s, e))
  {
    if (e.Abort? || e.Release?) && e.id in s.requests && s.requests[e.id].HasLocked() {
      ReleaseDeletesNothing(p, s, s.requests[e.id]);
      hide Releasing;
    }
  }

  /** A lock that is taken is free by then, so its key's earlier locks are long past. */
  lemma LockIsApart(p: Setting, s: State, id: nat, token: string)
    requires AllOnTime(p, s) && LocksLast(s) && id in s.requests && s.requests[id].stage.Proceeding?
    requires Step(p, s, Lock(id, token)).requests[id].HasLocked()
    ensures forall a | a in s.requests && s.requests[a].HasLocked() && s.requests[a].key == s.requests[id].key ::
              s.requests[a].stage.lockedAt + LOCK_TTL <= s.now
    ensures Step(p, s, Lock(id, token)).requests[id].stage == Locked(token, s.now)
  {
  }

  lemma LocksStay(p: Setting, s: State, e: Event, id: nat)
    requires id in Step(p, s, e).requests && Step(p, s, e).requests[id].HasLocked()
    requires !(e.Lock? && e.id == id && id in s.requests && s.requests[id].stage.Proceeding?)
    ensures id in s.requests && s.requests[id].HasLocked()
    ensures s.requests[id].key == Step(p, s, e).requests[id].key
    ensures s.requests[id].stage.lockedAt == Step(p, s, e).requests[id].stage.lockedAt
  {
  }

  lemma StepLocksApart(p: Setting, s: State, e: Event)
    requires AllOnTime(p, s) && LocksLast(s) && LocksApart(s)
    ensures LocksApart(Step(p, s, e))
  {
    var r := Step(p, s, e);
    forall a, b | a in r.requests && b in r.requests && a != b
                  && r.requests[a].HasLocked() && r.requests[b].HasLocked() && r.requests[a].key == r.requests[b].key
      ensures || r.requests[a].stage.lockedAt + LOCK_TTL <= r.requests[b].stage.lockedAt
              || r.requests[b].stage.lockedAt + LOCK_TTL <= r.requests[a].stage.lockedAt
    {
      if e.Lock? && e.id in s.requests && s.requests[e.id].stage.Proceeding? && (e.id == a || e.id == b) {
        LockIsApart(p, s, e.id, e.token);
        LocksStay(p, s, e, if e.id == a then b else a);
      } else {
        LocksStay(p, s, e, a);
        LocksStay(p, s, e, b);
      }
      hide Step;
    }
  }

  lemma StoreCacheLasts(p: Setting, s: State, id: nat)
    requires AllOnTime(p, s) && CacheLasts(s) && id in s.requests && s.requests[id].stage.Enqueued?
    ensures CacheLasts(Step(p, s, Store(id)))
  {
    var r := Step(p, s, Store(id));
    forall key | IdemKey(key) in r.cells ensures exists other: nat :: StoredBy(r, key, other) {
      if key == s.requests[id].key {
        assert StoredBy(r, key, id);
      } else {
        var other: nat :| StoredBy(s, key, other);
        assert StoredBy(r, key, other);
      }
    }
  }

  /** Any step but a store leaves the cached replies and the finished requests as they are. */
  lemma OtherStepsKeepCache(p: Setting, s: State, e: Event)
    requires !p.ownToken && LocksLast(s) && !e.Store?
    ensures var r := Step(p, s, e);
            && (forall key :: IdemKey(key) in r.cells <==> IdemKey(key) in s.cells)
            && (forall key | IdemKey(key) in r.cells :: r.cells[IdemKey(key)] == s.cells[IdemKey(key)])
            && (forall id | id in s.requests && s.requests[id].stage.Finished? ::
                  id in r.requests && r.requests[id] == s.requests[id])
            && (forall id | id in r.requests && r.requests[id].stage.Finished? ::
                  id in s.requests && r.requests[id] == s.requests[id])
  {
    if (e.Abort? || e.Release?) && e.id in s.requests && s.requests[e.id].HasLocked() {
      ReleaseDeletesNothing(p, s, s.requests[e.id]);
      hide Releasing;
    }
  }

  lemma StepCacheLasts(p: Setting, s: State, e: Event)
    requires !p.ownToken && AllOnTime(p, s) && LocksLast(s) && CacheLasts(s)
    ensures CacheLasts(Step(p, s, e))
  {
    if e.Store? {
      if e.id in s.requests && s.requests[e.id].stage.Enqueued? {
        StoreCacheLasts(p, s, e.id);
      }
    } else {
      var r := Step(p, s, e);
      OtherStepsKeepCache(p, s, e);
      hide Step, IdemKey;
      forall key | IdemKey(key) in r.cells ensures exists id: nat :: StoredBy(r, key, id) {
        var id: nat :| StoredBy(s, key, id);
        assert StoredBy(r, key, id);
      }
    }
  }

  /** What a check finds was stored by a request whose cache window it falls into. */
  lemma CheckFinds(s: State, key: string)
    requires CacheLasts(s) && key != ""
    ensures Checked(s.cells, key, s.now).None? ==>
              forall id | id in s.requests && s.requests[id].stage.Finished? && s.requests[id].key == key ::
                s.requests[id].stage.storedAt + CACHE_TTL <= s.now
    ensures Checked(s.cells, key, s.now).Some? ==>
              exists id: nat :: StoredBy(s, key, id) && s.now < s.requests[id].stage.storedAt + CACHE_TTL
                                && Checked(s.cells, key, s.now).value == Pending(s.requests[id].stage.invocationId)
  {
    if IdemKey(key) in s.cells {
      var id: nat :| StoredBy(s, key, id);
    }
  }

  lemma StepChecksHonest(p: Setting, s: State, e: Event)
    requires AllOnTime(p, s) && CacheLasts(s) && ChecksHonest(s)
    ensures ChecksHonest(Step(p, s, e))
  {
    if e.Check? && e.key != "" {
      CheckFinds(s, e.key);
      hide Checked;
    }
  }

  lemma AnswersStay(p: Setting, s: State, e: Event, id: nat, source: nat)
    requires id in s.requests && s.requests[id].stage.Answered? && AnsweredBy(s, id, source)
    ensures Step(p, s, e).requests[id] == s.requests[id] && AnsweredBy(Step(p, s, e), id, source)
  {
  }

  lemma CheckAnswersGenuinely(p: Setting, s: State, id: nat, key: string)
    requires AllOnTime(p, s) && CacheLasts(s) && id !in s.requests && key != ""
    ensures var r := Step(p, s, Check(id, key));
            id in r.requests && (r.requests[id].stage.Answered? ==> exists source :: AnsweredBy(r, id, source))
  {
    var r := Step(p, s, Check(id, key));
    CheckFinds(s, key);
    hide Checked;
    if r.requests[id].stage.Answered? {
      var source: nat :| StoredBy(s, key, source) && s.now < s.requests[source].stage.storedAt + CACHE_TTL
                         && Checked(s.cells, key, s.now).value == Pending(s.requests[source].stage.invocationId);
      assert OnTime(p, s.now, s.requests[source]);
      assert AnsweredBy(r, id, source);
    }
  }

  lemma NewAnswersComeFromChecks(p: Setting, s: State, e: Event, id: nat)
    requires id in Step(p, s, e).requests && Step(p, s, e).requests[id].stage.Answered?
    ensures || (id in s.requests && s.requests[id].stage.Answered?)
            || (e == Check(id, Step(p, s, e).requests[id].key) && id !in s.requests)
    ensures e.Check? && id !in s.requests ==> e.key != ""
  {
  }

  lemma StepAnswersGenuine(p: Setting, s: State, e: Event)
    requires AllOnTime(p, s) && CacheLasts(s) && AnswersGenuine(s)
    ensures AnswersGenuine(Step(p, s, e))
  {
    hide Step;
    var r := Step(p, s, e);
    forall id | id in r.requests && r.requests[id].stage.Answered?
      ensures exists source :: AnsweredBy(r, id, source)
    {
      NewAnswersComeFromChecks(p, s, e, id);
      if id in s.requests && s.requests[id].stage.Answered? {
        var source :| AnsweredBy(s, id, source);
        AnswersStay(p, s, e, id, source);
      } else {
        CheckAnswersGenuinely(p, s, id, e.key);
      }
    }
  }

  lemma {:induction false} RunInv(p: Setting, events: seq<Event>)
    requires 0 <= p.limit && !p.ownToken
    ensures Inv(p, Run(p, events))
  {
    if events == [] {
    } else {
      var s, e := Run(p, events[..|events| - 1]), events[|events| - 1];
      RunInv(p, events[..|events| - 1]);
      hide Step, AllOnTime, LocksLast, LocksApart, CacheLasts, ChecksHonest, AnswersGenuine;
      StepOnTime(p, s, e);
      StepLocksLast(p, s, e);
      StepLocksApart(p, s, e);
      StepCacheLasts(p, s, e);
      StepChecksHonest(p, s, e);
      StepAnswersGenuine(p, s, e);
    }
  }

  // --- Deduplication ---

  /** Of two requests that enqueued under one key, one had finished, and its cached reply had
      expired, before the other even started. */
  ghost predicate Exclusive(s: State) {
    forall a, b | a in s.requests && b in s.requests && a != b && s.requests[a].key == s.requests[b].key
                  && s.requests[a].HasEnqueued() && s.requests[b].HasEnqueued() ::
      Sequential(s, a, b) || Sequential(s, b, a)
  }

  ghost predicate Sequential(s: State, a: nat, b: nat)
    requires a in s.requests && b in s.requests
  {
    s.requests[a].stage.Finished? && s.requests[a].stage.storedAt + CACHE_TTL <= s.requests[b].start
  }

  lemma EarlierLockFinishes(p: Setting, s: State, a: nat, b: nat)
    requires Inv(p, s) && 2 * p.limit < LOCK_TTL
    requires a in s.requests && b in s.requests && s.requests[a].key == s.requests[b].key
    requires s.requests[a].HasEnqueued() && s.requests[b].HasEnqueued()
    requires s.requests[a].stage.lockedAt + LOCK_TTL <= s.requests[b].stage.lockedAt
    ensures Sequential(s, a, b)
  {
    assert OnTime(p, s.now, s.requests[a]) && OnTime(p, s.now, s.requests[b]);
  }

  /** In no interleaving are two jobs enqueued for one key before its reply is stored or while
      that reply is alive. */
  ghost predicate Deduplicates(p: Setting) {
    forall events :: Exclusive(Run(p, events))
  }

  lemma DeduplicatesInTime(p: Setting, events: seq<Event>)
    requires 0 <= p.limit && !p.ownToken && 2 * p.limit < LOCK_TTL
    ensures Exclusive(Run(p, events))
  {
    RunInv(p, events);
    var s := Run(p, events);
    forall a, b | a in s.requests && b in s.requests && a != b && s.requests[a].key == s.requests[b].key
                  && s.requests[a].HasEnqueued() && s.requests[b].HasEnqueued()
      ensures Sequential(s, a, b) || Sequential(s, b, a)
    {
      assert LocksApart(s);
      if s.requests[a].stage.lockedAt + LOCK_TTL <= s.requests[b].stage.lockedAt {
        EarlierLockFinishes(p, s, a, b);
      } else {
        EarlierLockFinishes(p, s, b, a);
      }
    }
  }

  /** The first request is slow to store, the second checks just before that and then waits
      until the lock has expired. */
  const LATE: seq<Event> :=
    [Check(0, "k"), Lock(0, "a"), Enqueue(0, "x"), Tick(15 * SECOND), Check(1, "k"), Store(0),
     Tick(30 * SECOND), Lock(1, "b"), Enqueue(1, "y")]

  /** Both requests check, then the first runs to its end and gives its lock back. */
  const EAGER: seq<Event> :=
    [Check(0, "k"), Check(1, "k"), Lock(0, "a"), Enqueue(0, "x"), Store(0), Release(0), Lock(1, "b"), Enqueue(1, "y")]

  lemma RunOneMore(p: Setting, events: seq<Event>, k: nat)
    requires k < |events|
    ensures Run(p, events[..k + 1]) == Step(p, Run(p, events[..k]), events[k])
  {
    assert events[..k + 1][..k] == events[..k];
  }

  lemma DoCheck(p: Setting, s: State, id: nat, key: string)
    requires id !in s.requests && key != "" && IdemKey(key) !in s.cells
    ensures Step(p, s, Check(id, key)) == s.(requests := s.requests[id := Request(key, s.now, Proceeding)])
  {
  }

  lemma DoLock(p: Setting, s: State, id: nat, token: string)
    requires id in s.requests && s.requests[id].stage.Proceeding? && token != ""
    requires LockKey(s.requests[id].key) in s.cells ==> s.cells[LockKey(s.requests[id].key)].expires <= s.now
    ensures var r := s.requests[id];
            Step(p, s, Lock(id, token)) == State(s.now, s.cells[LockKey(r.key) := Cell(Token(token), s.now + LOCK_TTL)],
                                                 s.requests[id := r.(stage := Locked(token, s.now))])
  {
  }

  lemma DoEnqueue(p: Setting, s: State, id: nat, invocationId: string)
    requires id in s.requests && s.requests[id].stage.Locked?
    ensures var r := s.requests[id];
            Step(p, s, Enqueue(id, invocationId)) ==
            s.(requests := s.requests[id := r.(stage :=
              Enqueued(r.stage.token, r.stage.lockedAt, invocationId, s.now))])
  {
  }

  lemma DoStore(p: Setting, s: State, id: nat)
    requires id in s.requests && s.requests[id].stage.Enqueued? && s.requests[id].key != ""
    ensures var r := s.requests[id];
            var cell := Cell(Cached(Pending(r.stage.invocationId)), s.now + CACHE_TTL);
            Step(p, s, Store(id)) ==
            State(s.now, s.cells[IdemKey(r.key) := cell],
                  s.requests[id := r.(stage := Finished(r.stage.token, r.stage.lockedAt, r.stage.invocationId,
                                                        r.stage.enqueuedAt, s.now))])
  {
  }

  lemma DoTick(p: Setting, s: State, now: int)
    requires s.now <= now
    requires forall id | id in s.requests && s.requests[id].InFlight() :: now <= s.requests[id].start + p.limit
    ensures Step(p, s, Tick(now)) == s.(now := now)
  {
  }

  lemma RunNothing(p: Setting, events: seq<Event>)
    ensures Run(p, events[..0]) == State(0, map[], map[])
  {
  }

  /** Request 0 has enqueued at time 0 and request 1 has just checked, both for "k". */
  function Halfway(now: int): State {
    State(now, map[LockKey("k") := Cell(Token("a"), LOCK_TTL)],
          map[0 := Request("k", 0, Enqueued("a", 0, "x", 0)), 1 := Request("k", now, Proceeding)])
  }

  /** Request 0 has stored as well. */
  function Served(now: int, checked: int, stored: int): State {
    State(now, map[LockKey("k") := Cell(Token("a"), LOCK_TTL),
                   IdemKey("k") := Cell(Cached(Pending("x")), stored + CACHE_TTL)],
          map[0 := Request("k", 0, Finished("a", 0, "x", 0, stored)), 1 := Request("k", checked, Proceeding)])
  }

  lemma LateHalfway(p: Setting)
    requires LOCK_TTL <= 2 * p.limit
    ensures Run(p, LATE[..5]) == Halfway(15 * SECOND)
  {
    hide Step, Run;
    RunNothing(p, LATE);
    RunOneMore(p, LATE, 0);
    DoCheck(p, Run(p, LATE[..0]), 0, "k");
    assert Run(p, LATE[..1]) == State(0, map[], map[0 := Request("k", 0, Proceeding)]);
    RunOneMore(p, LATE, 1);
    DoLock(p, Run(p, LATE[..1]), 0, "a");
    RunOneMore(p, LATE, 2);
    DoEnqueue(p, Run(p, LATE[..2]), 0, "x");
    assert Run(p, LATE[..3]) == State(0, map[LockKey("k") := Cell(Token("a"), LOCK_TTL)],
                                      map[0 := Request("k", 0, Enqueued("a", 0, "x", 0))]);
    RunOneMore(p, LATE, 3);
    DoTick(p, Run(p, LATE[..3]), 15 * SECOND);
    RunOneMore(p, LATE, 4);
    DoCheck(p, Run(p, LATE[..4]), 1, "k");
  }

  lemma EagerHalfway(p: Setting)
    ensures Run(p, EAGER[..4]) == Halfway(0)
  {
    hide Step, Run;
    RunNothing(p, EAGER);
    RunOneMore(p, EAGER, 0);
    DoCheck(p, Run(p, EAGER[..0]), 0, "k");
    RunOneMore(p, EAGER, 1);
    DoCheck(p, Run(p, EAGER[..1]), 1, "k");
    assert Run(p, EAGER[..2]) ==
           State(0, map[], map[0 := Request("k", 0, Proceeding), 1 := Request("k", 0, Proceeding)]);
    RunOneMore(p, EAGER, 2);
    DoLock(p, Run(p, EAGER[..2]), 0, "a");
    RunOneMore(p, EAGER, 3);
    DoEnqueue(p, Run(p, EAGER[..3]), 0, "x");
  }

  lemma StoreFromHalfway(p: Setting, now: int)
    ensures Step(p, Halfway(now), Store(0)) == Served(now, now, now)
  {
    DoStore(p, Halfway(now), 0);
    hide Step;
  }

  /** When the lock is free again, request 1 enqueues too, while the reply of request 0 is alive. */
  lemma SecondEnqueues(p: Setting, s: State, stored: int)
    requires 0 in s.requests && s.requests[0] == Request("k", 0, Finished("a", 0, "x", 0, stored))
    requires 1 in s.requests && s.requests[1] == Request("k", stored, Proceeding)
    requires LockKey("k") in s.cells ==> s.cells[LockKey("k")].expires <= s.now
    ensures !Exclusive(Step(p, Step(p, s, Lock(1, "b")), Enqueue(1, "y")))
  {
    DoLock(p, s, 1, "b");
    var locked := Step(p, s, Lock(1, "b"));
    DoEnqueue(p, locked, 1, "y");
    hide Step;
    var r := Step(p, locked, Enqueue(1, "y"));
    assert r.requests[0] == s.requests[0];
    assert r.requests[1].stage.Enqueued? && r.requests[1].start == s.requests[1].start;
    assert !Sequential(r, 0, 1) && !Sequential(r, 1, 0);
  }

  lemma LateRequests(p: Setting)
    requires LOCK_TTL <= 2 * p.limit
    ensures !Exclusive(Run(p, LATE))
  {
    hide Step, Run, Halfway;
    LateHalfway(p);
    RunOneMore(p, LATE, 5);
    StoreFromHalfway(p, 15 * SECOND);
    RunOneMore(p, LATE, 6);
    DoTick(p, Served(15 * SECOND, 15 * SECOND, 15 * SECOND), 30 * SECOND);
    RunOneMore(p, LATE, 7);
    RunOneMore(p, LATE, 8);
    assert LATE[..9] == LATE;
    SecondEnqueues(p, Served(30 * SECOND, 15 * SECOND, 15 * SECOND), 15 * SECOND);
  }

  /** Deduplication holds over all interleavings exactly when twice the time a request may take
      from its check to its store is less than the lock lives. */
  lemma DeduplicationLimit(p: Setting)
    requires 0 <= p.limit && !p.ownToken
    ensures Deduplicates(p) <==> 2 * p.limit < LOCK_TTL
  {
    if 2 * p.limit < LOCK_TTL {
      forall events ensures Exclusive(Run(p, events)) {
        DeduplicatesInTime(p, events);
      }
    } else {
      LateRequests(p);
    }
  }

  /** With the lock given back under its true token there would be no such limit: however quick
      the requests are, the lock protects only from the time it is taken, and the check before
      it is not repeated. */
  lemma TrueTokenWouldNotDeduplicate(p: Setting)
    requires p.ownToken
    ensures !Deduplicates(p)
  {
    hide Step, Run, Halfway;
    EagerHalfway(p);
    RunOneMore(p, EAGER, 4);
    StoreFromHalfway(p, 0);
    RunOneMore(p, EAGER, 5);
    DoRelease(p, Served(0, 0, 0), 0);
    RunOneMore(p, EAGER, 6);
    RunOneMore(p, EAGER, 7);
    assert EAGER[..8] == EAGER;
    SecondEnqueues(p, Run(p, EAGER[..6]), 0);
  }

  lemma DoRelease(p: Setting, s: State, id: nat)
    requires p.ownToken && id in s.requests && s.requests[id].stage.Finished?
    requires var name := LockKey(s.requests[id].key);
             && name in s.cells && s.now < s.cells[name].expires
             && s.cells[name].value == Token(s.requests[id].stage.token)
    ensures Step(p, s, Release(id)) == s.(cells := s.cells - {LockKey(s.requests[id].key)})
  {
  }

  // --- Replies ---

  /** Within a cache window every duplicate is answered with the invocation that was queued in
      it, as PENDING, whatever results are processed meanwhile. */
  lemma DuplicatesGetTheOriginal(p: Setting, events: seq<Event>, id: nat, original: nat)
    requires 0 <= p.limit && !p.ownToken && 2 * p.limit < LOCK_TTL
    requires var s := Run(p, events);
             && id in s.requests && s.requests[id].stage.Answered?
             && original in s.requests && s.requests[original].stage.Finished?
             && s.requests[original].key == s.requests[id].key
             && s.requests[original].stage.storedAt <= s.requests[id].start
                < s.requests[original].stage.storedAt + CACHE_TTL
    ensures var s := Run(p, events);
            s.requests[id].stage.cache == ResultCache(s.requests[original].stage.invocationId, "PENDING", "", "")
  {
    var s := Run(p, events);
    RunInv(p, events);
    DeduplicatesInTime(p, events);
    var source :| AnsweredBy(s, id, source);
    assert OnTime(p, s.now, s.requests[source]) && OnTime(p, s.now, s.requests[original]);
  }

  /** And every duplicate falls into the window of some request that queued its invocation. */
  lemma DuplicatesHaveAnOriginal(p: Setting, events: seq<Event>, id: nat)
    requires 0 <= p.limit && !p.ownToken
    requires id in Run(p, events).requests && Run(p, events).requests[id].stage.Answered?
    ensures exists original :: AnsweredBy(Run(p, events), id, original)
  {
    RunInv(p, events);
  }
}
