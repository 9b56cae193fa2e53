/** Worker heartbeats: load and health of one, and the store of the latest of each worker. */
module Heartbeats {
  import opened Common

  /** `timestamp` is in seconds since the epoch, clocks (`now`) are in nanoseconds. */
  datatype Heartbeat = Heartbeat(
    workerId: string,
    cpuUsage: real,
    runningTasks: int,
    availableSlots: int,
    timestamp: int)
  {
    function CalculateLoad(): real {
      if availableSlots <= 0 then 1.0 else
      0.5 * cpuUsage + 0.5 * (runningTasks as real / availableSlots as real)
    }

    predicate Validate() { workerId != "" && 0 <= availableSlots }

    predicate IsHealthy(now: int) { now - timestamp * SECOND <= 15 * SECOND }
  }

  // --- What a load is ---

  /** With slots, twice the load is the share of the CPU plus the share of the slots in use. */
  lemma LoadIsTheMeanOfShares(h: Heartbeat)
    requires 0 < h.availableSlots
    ensures 2.0 * h.CalculateLoad() * h.availableSlots as real
            == h.cpuUsage * h.availableSlots as real + h.runningTasks as real
  {
    var slots, share := h.availableSlots as real, h.runningTasks as real / h.availableSlots as real;
    assert share * slots == h.runningTasks as real;
    assert 2.0 * h.CalculateLoad() == h.cpuUsage + share;
  }

  lemma ProductOrder(x: real, y: real, k: real)
    requires 0.0 < k
    ensures x <= y <==> x * k <= y * k
  {
    if x < y {
      assert 0.0 < (y - x) * k;
    } else if y < x {
      assert 0.0 < (x - y) * k;
    }
  }

  /** Heartbeat a stands for no more load than b; a worker without slots counts as fully loaded. */
  ghost predicate NotBusier(a: Heartbeat, b: Heartbeat) {
    var (m, n) := (a.availableSlots as real, b.availableSlots as real);
    if a.availableSlots <= 0 then b.availableSlots <= 0 || 2.0 * n <= b.cpuUsage * n + b.runningTasks as real
    else if b.availableSlots <= 0 then a.cpuUsage * m + a.runningTasks as real <= 2.0 * m
    else (a.cpuUsage * m + a.runningTasks as real) * n <= (b.cpuUsage * n + b.runningTasks as real) * m
  }

  lemma LoadsCompare(a: Heartbeat, b: Heartbeat)
    ensures a.CalculateLoad() <= b.CalculateLoad() <==> NotBusier(a, b)
  {
    var (x, y) := (a.CalculateLoad(), b.CalculateLoad());
    var (m, n) := (a.availableSlots as real, b.availableSlots as real);
    if 0 < a.availableSlots {
      LoadIsTheMeanOfShares(a);
    }
    if 0 < b.availableSlots {
      LoadIsTheMeanOfShares(b);
    }
    hide Heartbeat.CalculateLoad;
    if 0 < a.availableSlots && 0 < b.availableSlots {
      assert (2.0 * x * m) * n == x * (2.0 * m * n) && (2.0 * y * n) * m == y * (2.0 * m * n);
      ProductOrder(x, y, 2.0 * m * n);
    } else if 0 < a.availableSlots {
      FullLoad(b);
      ProductOrder(x, 1.0, 2.0 * m);
    } else if 0 < b.availableSlots {
      FullLoad(a);
      ProductOrder(1.0, y, 2.0 * n);
    } else {
      FullLoad(a);
      FullLoad(b);
    }
  }

  lemma FullLoad(h: Heartbeat)
    requires h.availableSlots <= 0
    ensures h.CalculateLoad() == 1.0
  {
  }

  /** The load grows strictly with the CPU in use and with the running tasks, from 0 for an idle
      worker to 1 for one that uses all of its CPU and all of its slots. */
  lemma LoadGrows(a: Heartbeat, b: Heartbeat)
    requires a.availableSlots == b.availableSlots > 0
    ensures a.cpuUsage < b.cpuUsage && a.runningTasks <= b.runningTasks ==> a.CalculateLoad() < b.CalculateLoad()
    ensures a.cpuUsage <= b.cpuUsage && a.runningTasks < b.runningTasks ==> a.CalculateLoad() < b.CalculateLoad()
    ensures a.cpuUsage == 0.0 && a.runningTasks == 0 ==> a.CalculateLoad() == 0.0
    ensures a.cpuUsage == 1.0 && a.runningTasks == a.availableSlots ==> a.CalculateLoad() == 1.0
  {
    var slots := a.availableSlots as real;
    LoadIsTheMeanOfShares(a);
    LoadIsTheMeanOfShares(b);
    ProductOrder(b.CalculateLoad(), a.CalculateLoad(), 2.0 * slots);
    ProductOrder(a.cpuUsage, b.cpuUsage, slots);
    ProductOrder(b.cpuUsage, a.cpuUsage, slots);
    ProductOrder(a.CalculateLoad(), 0.0, 2.0 * slots);
    ProductOrder(0.0, a.CalculateLoad(), 2.0 * slots);
    ProductOrder(a.CalculateLoad(), 1.0, 2.0 * slots);
    ProductOrder(1.0, a.CalculateLoad(), 2.0 * slots);
  }

  type Workers = map<string, Heartbeat>

  ghost predicate Keyed(workers: Workers) {
    forall id | id in workers :: workers[id].workerId == id
  }

  function Healthy(workers: Workers, now: int): Workers {
    map id | id in workers && workers[id].IsHealthy(now) :: workers[id]
  }

  /** `list` enumerates `workers`: each of them, none of them twice. Map iteration may come up
      with any such list. */
  ghost predicate Lists(list: seq<Heartbeat>, workers: Workers) {
    && (forall id | id in workers :: workers[id] in list)
    && (forall i | 0 <= i < |list| :: list[i].workerId in workers && workers[list[i].workerId] == list[i])
    && (forall i, j | 0 <= i < j < |list| :: list[i].workerId != list[j].workerId)
  }

  class WorkerHeartbeatStore {
    var workers: Workers

    ghost predicate Valid() reads this { Keyed(workers) }

    constructor ()
      ensures Valid() && workers == map[]
    {
      workers := map[];
    }

    method Update(heartbeat: Heartbeat)
      requires Valid()
      modifies this
      ensures Valid() && workers == old(workers)[heartbeat.workerId := heartbeat]
    {
      workers := workers[heartbeat.workerId := heartbeat];
    }

    method ListHealthy(now: int) returns (result: seq<Heartbeat>)
      requires Valid()
      ensures Lists(result, Healthy(workers, now))
      ensures forall id | id in workers ::
                workers[id] in result <==> now <= workers[id].timestamp * SECOND + 15 * SECOND
    {
      result := [];
      var left := workers.Keys;
      while left != {}
        invariant left <= workers.Keys
        invariant forall id | id in workers && id !in left && workers[id].IsHealthy(now) :: workers[id] in result
        invariant forall i | 0 <= i < |result| ::
                    && result[i].workerId in workers && result[i].workerId !in left
                    && result[i].IsHealthy(now) && workers[result[i].workerId] == result[i]
        invariant forall i, j | 0 <= i < j < |result| :: result[i].workerId != result[j].workerId
        decreases |left|
      {
        var id :| id in left;
        left := left - {id};
        if workers[id].IsHealthy(now) {
          result := result + [workers[id]];
        }
      }
    }

    /** Forgets the workers that are not healthy and says how many there were. */
    method CleanStale(now: int) returns (removed: nat)
      requires Valid()
      modifies this
      ensures Valid()
      ensures workers == Healthy(old(workers), now)
      ensures forall id :: id in workers <==>
                id in old(workers) && now <= old(workers)[id].timestamp * SECOND + 15 * SECOND
      ensures forall id | id in workers :: workers[id] == old(workers)[id]
      ensures removed == |old(workers)| - |workers|
    {
      removed := 0;
      var left := workers.Keys;
      ghost var was := workers;
      while left != {}
        invariant left <= workers.Keys <= was.Keys
        invariant forall id | id in workers :: workers[id] == was[id] && (id in left || was[id].IsHealthy(now))
        invariant forall id | id in was && was[id].IsHealthy(now) :: id in workers
        invariant removed == |was| - |workers|
        decreases |left|
      {
        var id :| id in left;
        left := left - {id};
        if !workers[id].IsHealthy(now) {
          assert (workers - {id}).Keys == workers.Keys - {id};
          workers := workers - {id};
          removed := removed + 1;
        }
      }
    }

    method Count() returns (count: nat)
      ensures count == |workers|
    {
      count := |workers|;
    }

    method CountHealthy(now: int) returns (count: nat)
      ensures count == |Healthy(workers, now)|
    {
      count := 0;
      var left := workers.Keys;
      ghost var found: set<string> := {};
      while left != {}
        invariant left <= workers.Keys
        invariant found == set id | id in workers && id !in left && workers[id].IsHealthy(now)
        invariant count == |found|
        decreases |left|
      {
        var id :| id in left;
        left := left - {id};
        if workers[id].IsHealthy(now) {
          assert id !in found;
          found := found + {id};
          count := count + 1;
        }
      }
      assert found == Healthy(workers, now).Keys;
    }
  }

  // --- The latest heartbeat of each worker ---

  /** A heartbeat message counts when it parses and is valid. */
  predicate Accepted(message: Option<Heartbeat>) { message.Some? && message.value.Validate() }

  /** A worker must have a name, and may be without slots. */
  lemma ZeroSlotsAreAccepted(h: Heartbeat)
    ensures h.workerId != "" ==> Accepted(Some(h.(availableSlots := 0)))
    ensures !Accepted(Some(h.(availableSlots := -1))) && !Accepted(Some(h.(workerId := ""))) && !Accepted(None)
  {
  }

  /** The workers known after more messages, taken in order. */
  function Fold(workers: Workers, messages: seq<Option<Heartbeat>>): (r: Workers)
    ensures Keyed(workers) ==> Keyed(r)
  {
    if messages == [] then workers else
    var before, last := Fold(workers, messages[..|messages| - 1]), messages[|messages| - 1];
    if Accepted(last) then before[last.value.workerId := last.value] else before
  }

  /** The message at p is the last one that counts for the worker. */
  ghost predicate IsLatest(messages: seq<Option<Heartbeat>>, worker: string, p: nat) {
    && p < |messages| && Accepted(messages[p]) && messages[p].value.workerId == worker
    && forall q | p < q < |messages| && Accepted(messages[q]) :: messages[q].value.workerId != worker
  }

  lemma {:induction false} FoldKeepsTheLatest(messages: seq<Option<Heartbeat>>, worker: string)
    ensures worker in Fold(map[], messages) <==> exists p: nat :: IsLatest(messages, worker, p)
    ensures forall p: nat :: IsLatest(messages, worker, p) ==>
              worker in Fold(map[], messages) && Fold(map[], messages)[worker] == messages[p].value
  {
    if messages == [] {
    } else {
      var init, last := messages[..|messages| - 1], messages[|messages| - 1];
      FoldKeepsTheLatest(init, worker);
      if Accepted(last) && last.value.workerId == worker {
        assert IsLatest(messages, worker, |messages| - 1);
      } else {
        forall p: nat ensures IsLatest(messages, worker, p) <==> IsLatest(init, worker, p) {
        }
      }
    }
  }

  // --- Pruning ---

  datatype StoreEvent = Beat(heartbeat: Heartbeat) | Clean

  /** A history of the store; every event carries the time at which it happens. */
  datatype Timed = Timed(event: StoreEvent, at: int)

  function Pruned(history: seq<Timed>): Workers {
    if history == [] then map[] else
    var before, last := Pruned(history[..|history| - 1]), history[|history| - 1];
    match last.event
    case Beat(heartbeat) => before[heartbeat.workerId := heartbeat]
    case Clean => Healthy(before, last.at)
  }

  /** The heartbeats of a history, as messages. */
  function Beats(history: seq<Timed>): seq<Option<Heartbeat>> {
    if history == [] then [] else
    var last := history[|history| - 1].event;
    Beats(history[..|history| - 1]) + (if last.Beat? then [Some(last.heartbeat)] else [])
  }

  ghost predicate InOrder(history: seq<Timed>) {
    forall i, j | 0 <= i < j < |history| :: history[i].at <= history[j].at
  }

  ghost predicate ValidBeats(history: seq<Timed>) {
    forall i | 0 <= i < |history| && history[i].event.Beat? :: history[i].event.heartbeat.Validate()
  }

  /** Forgetting stale workers, however often, cannot be told from the scheduler's map, which
      never forgets: at no later time does the set of healthy workers differ. */
  lemma {:induction false} PruningIsInvisible(history: seq<Timed>, now: int)
    requires InOrder(history) && ValidBeats(history)
    requires forall i | 0 <= i < |history| :: history[i].at <= now
    ensures Healthy(Pruned(history), now) == Healthy(Fold(map[], Beats(history)), now)
  {
    if history == [] {
    } else {
      var init, last := history[..|history| - 1], history[|history| - 1];
      PruningIsInvisible(init, now);
      match last.event {
        case Beat(heartbeat) =>
          var beats := Beats(history);
          assert beats[..|beats| - 1] == Beats(init);
          AddingOne(Pruned(init), Fold(map[], Beats(init)), heartbeat, now);
        case Clean =>
          assert Beats(history) == Beats(init);
          assert Healthy(Healthy(Pruned(init), last.at), now) == Healthy(Pruned(init), now);
      }
    }
  }

  lemma AddingOne(a: Workers, b: Workers, heartbeat: Heartbeat, now: int)
    requires Healthy(a, now) == Healthy(b, now)
    ensures Healthy(a[heartbeat.workerId := heartbeat], now) == Healthy(b[heartbeat.workerId := heartbeat], now)
  {
    var id, x, y := heartbeat.workerId, a[heartbeat.workerId := heartbeat], b[heartbeat.workerId := heartbeat];
    forall other ensures other in Healthy(x, now) <==> other in Healthy(y, now) {
      assert other != id ==> (other in Healthy(a, now) <==> other in Healthy(b, now));
    }
    forall other | other in Healthy(x, now) ensures Healthy(x, now)[other] == Healthy(y, now)[other] {
      if other != id {
        assert Healthy(a, now)[other] == Healthy(b, now)[other];
      }
    }
  }
}
