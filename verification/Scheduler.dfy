/** The scheduler: it folds heartbeats into a map of workers, selects the least loaded healthy
    one and dispatches jobs to it. */
module Scheduler {
  import opened Common
  import opened Streams
  import opened Queue
  import opened Heartbeats
  import Dispatcher

  const HEARTBEAT_STREAM: string := "nimbusrun:heartbeats"
  const HEARTBEAT_GROUP: string := "scheduler-heartbeats"

  // --- Selection ---

  /** The worker at k has the lowest load of the list and is the first with that load. */
  ghost predicate FirstMinimum(workers: seq<Heartbeat>, k: nat) {
    && k < |workers|
    && (forall j | 0 <= j < |workers| :: workers[k].CalculateLoad() <= workers[j].CalculateLoad())
    && (forall j | 0 <= j < k :: workers[k].CalculateLoad() < workers[j].CalculateLoad())
  }

  method SelectLowestLoadWorker(workers: seq<Heartbeat>) returns (best: Option<Heartbeat>)
    ensures best.None? <==> workers == []
    ensures best.Some? ==> exists k: nat :: FirstMinimum(workers, k) && workers[k] == best.value
    ensures best.Some? ==> forall w | w in workers :: NotBusier(best.value, w)
  {
    if workers == [] {
      return None;
    }
    var chosen, bestLoad, i := workers[0], workers[0].CalculateLoad(), 1;
    ghost var k := 0;
    while i < |workers|
      invariant 1 <= i <= |workers| && k < i
      invariant chosen == workers[k] && bestLoad == chosen.CalculateLoad()
      invariant forall j | 0 <= j < i :: bestLoad <= workers[j].CalculateLoad()
      invariant forall j | 0 <= j < k :: bestLoad < workers[j].CalculateLoad()
    {
      hide Heartbeat.CalculateLoad;
      var load := workers[i].CalculateLoad();
      if load < bestLoad {
        bestLoad := load;
        chosen := workers[i];
        k := i;
      }
      i := i + 1;
    }
    assert FirstMinimum(workers, k);
    forall w | w in workers ensures NotBusier(chosen, w) {
      LoadsCompare(chosen, w);
    }
    best := Some(chosen);
  }

  /** A right choice among healthy workers: one with the lowest load, or none if there is none. */
  ghost predicate IsChoice(best: Option<Heartbeat>, healthy: Workers) {
    if best.None? then healthy == map[] else
    && best.value.workerId in healthy && healthy[best.value.workerId] == best.value
    && forall id | id in healthy :: best.value.CalculateLoad() <= healthy[id].CalculateLoad()
  }

  /** A right choice, without naming loads: it has been heard of within 15 seconds, and no other
      such worker is less busy. */
  lemma ChoiceIsLeastBusy(best: Option<Heartbeat>, workers: Workers, now: int)
    requires IsChoice(best, Healthy(workers, now))
    ensures best.None? <==> forall id | id in workers :: workers[id].timestamp * SECOND + 15 * SECOND < now
    ensures best.Some? ==>
              && best.value.workerId in workers && workers[best.value.workerId] == best.value
              && now <= best.value.timestamp * SECOND + 15 * SECOND
              && forall id | id in workers && now <= workers[id].timestamp * SECOND + 15 * SECOND ::
                   NotBusier(best.value, workers[id])
  {
    var healthy := Healthy(workers, now);
    assert forall id | id in workers :: id in healthy <==> now <= workers[id].timestamp * SECOND + 15 * SECOND;
    hide Heartbeat.CalculateLoad, NotBusier;
    if best.Some? {
      forall id | id in healthy ensures NotBusier(best.value, workers[id]) {
        LoadsCompare(best.value, healthy[id]);
      }
    }
  }

  /** Of two workers that differ in their running tasks only, the busier one is not chosen. */
  lemma TheBusierIsNotChosen(busier: Heartbeat, other: Heartbeat, healthy: Workers)
    requires other.workerId in healthy && healthy[other.workerId] == other
    requires 0 < other.availableSlots == busier.availableSlots && other.cpuUsage == busier.cpuUsage
    requires other.runningTasks < busier.runningTasks
    ensures !IsChoice(Some(busier), healthy)
  {
    LoadGrows(other, busier);
  }

  lemma MinimumIsChoice(list: seq<Heartbeat>, healthy: Workers, k: nat)
    requires Lists(list, healthy) && FirstMinimum(list, k)
    ensures IsChoice(Some(list[k]), healthy)
  {
    hide Heartbeat.CalculateLoad;
    forall id | id in healthy ensures list[k].CalculateLoad() <= healthy[id].CalculateLoad() {
      assert healthy[id] in list;
    }
  }

  /** Map iteration may list the healthy workers in any order: the load that is chosen is the
      same, and a worker without slots is chosen only if all healthy loads are at least 1. */
  lemma ChoiceDoesNotDependOnOrder(a: seq<Heartbeat>, b: seq<Heartbeat>, healthy: Workers, i: nat, j: nat)
    requires Lists(a, healthy) && Lists(b, healthy) && FirstMinimum(a, i) && FirstMinimum(b, j)
    ensures a[i].CalculateLoad() == b[j].CalculateLoad()
    ensures a[i].availableSlots <= 0 ==> forall id | id in healthy :: 1.0 <= healthy[id].CalculateLoad()
  {
    MinimumIsChoice(a, healthy, i);
    MinimumIsChoice(b, healthy, j);
    assert a[i].availableSlots <= 0 ==> a[i].CalculateLoad() == 1.0;
    hide Heartbeat.CalculateLoad;
  }

  // --- Heartbeat batches ---

  function Bodies<T>(messages: seq<Message<T>>): seq<Option<T>> {
    seq(|messages|, i requires 0 <= i < |messages| => messages[i].body)
  }

  /** The heartbeat log after acknowledging the messages that count, except those in `lost`,
      whose XACK did not get through. */
  function AckAccepted(log: Log<Heartbeat>, messages: seq<Message<Heartbeat>>, lost: set<nat>): (r: Log<Heartbeat>)
    ensures log.Valid() ==> r.Valid()
    ensures r.entries == log.entries
    ensures HEARTBEAT_GROUP in log.groups ==>
              HEARTBEAT_GROUP in r.groups && r.groups[HEARTBEAT_GROUP].cursor == log.groups[HEARTBEAT_GROUP].cursor
  {
    if messages == [] then log else
    var before, last := AckAccepted(log, messages[..|messages| - 1], lost), messages[|messages| - 1];
    if Accepted(last.body) && last.id !in lost then Ack(before, HEARTBEAT_GROUP, last.id) else before
  }

  lemma BatchStart(log: Log<Heartbeat>, workers: Workers, messages: seq<Message<Heartbeat>>, lost: set<nat>)
    ensures Fold(workers, Bodies(messages[..0])) == workers && AckAccepted(log, messages[..0], lost) == log
  {
  }

  lemma BatchStep(log: Log<Heartbeat>, workers: Workers, messages: seq<Message<Heartbeat>>, i: nat, lost: set<nat>)
    requires i < |messages|
    ensures var before, after := Fold(workers, Bodies(messages[..i])), Fold(workers, Bodies(messages[..i + 1]));
            var message := messages[i];
            after == if Accepted(message.body)
                     then before[message.body.value.workerId := message.body.value] else before
    ensures var before, after := AckAccepted(log, messages[..i], lost), AckAccepted(log, messages[..i + 1], lost);
            after == if Accepted(messages[i].body) && messages[i].id !in lost
                     then Ack(before, HEARTBEAT_GROUP, messages[i].id) else before
  {
    assert messages[..i + 1][..i] == messages[..i];
    assert Bodies(messages[..i + 1])[..i] == Bodies(messages[..i]);
  }

  /** One tick of `processHeartbeats` that reads at most `count` messages. */
  function Tick(log: Log<Heartbeat>, workers: Workers, count: int, lost: set<nat>): (r: (Log<Heartbeat>, Workers))
    requires log.Valid()
    ensures r.0.Valid()
  {
    if HEARTBEAT_GROUP !in log.groups then (log, workers) else
    var messages := Reply(log, HEARTBEAT_GROUP, count);
    (AckAccepted(Deliver(log, HEARTBEAT_GROUP, count), messages, lost), Fold(workers, Bodies(messages)))
  }

  lemma {:induction false} AckAcceptedPending(log: Log<Heartbeat>, messages: seq<Message<Heartbeat>>, lost: set<nat>)
    requires HEARTBEAT_GROUP in log.groups
    ensures forall id :: id in AckAccepted(log, messages, lost).groups[HEARTBEAT_GROUP].pending
                         <==> id in log.groups[HEARTBEAT_GROUP].pending
                              && forall m | m in messages && m.id == id :: !Accepted(m.body) || id in lost
  {
    if messages == [] {
    } else {
      var init, last := messages[..|messages| - 1], messages[|messages| - 1];
      AckAcceptedPending(log, init, lost);
      assert forall m :: m in messages <==> m in init || m == last;
    }
  }

  /** After a tick, what was read is pending, save what is valid and whose XACK got through. */
  lemma TickLeavesPending(log: Log<Heartbeat>, workers: Workers, count: int, lost: set<nat>)
    requires log.Valid() && HEARTBEAT_GROUP in log.groups
    ensures var before, next := log.groups[HEARTBEAT_GROUP], NextCursor(log, HEARTBEAT_GROUP, count);
            var after := Tick(log, workers, count, lost).0;
            && after.entries == log.entries && HEARTBEAT_GROUP in after.groups
            && after.groups[HEARTBEAT_GROUP].cursor == next
            && forall id: nat :: id in after.groups[HEARTBEAT_GROUP].pending <==>
                 || id in before.pending
                 || (before.cursor <= id < next && (!Accepted(log.entries[id]) || id in lost))
  {
    hide Fold;
    var from, end := log.groups[HEARTBEAT_GROUP].cursor, NextCursor(log, HEARTBEAT_GROUP, count);
    var messages := Reply(log, HEARTBEAT_GROUP, count);
    AckAcceptedPending(Deliver(log, HEARTBEAT_GROUP, count), messages, lost);
    forall id: nat | from <= id < end ensures Message(id, log.entries[id]) in messages {
      assert messages[id - from] == Message(id, log.entries[id]);
    }
  }

  function IdOf(choice: Option<Heartbeat>): Option<string> {
    if choice.None? then None else Some(choice.value.workerId)
  }

  /** How the answer to a read of one message decides a dispatch. */
  lemma DispatchFollowsReply(streams: Logs<Job>, choice: Option<string>, f: Dispatcher.Fates)
    requires ValidLogs(streams)
    ensures var log, read := LogOf(streams, JOB_STREAM), ReadIn(streams, JOB_STREAM, Dispatcher.GROUP, 1, f.read);
            var (after, verdict) := Dispatcher.DispatchOnce(streams, choice, f);
            if !f.read.Done? || Dispatcher.GROUP !in log.groups then after == read && verdict.QueueFailure? else
            var found := Parsed(Reply(log, Dispatcher.GROUP, 1));
            (Reply(log, Dispatcher.GROUP, 1) == [] ==> found == []) &&
            if found == [] then after == read && (verdict.NoWork? || verdict.Skipped?) else
            && |found| == 1 && found[0].body.Some?
            && after == Dispatcher.Finish(read, found[0].id, found[0].body.value, choice, f)
            && !verdict.QueueFailure? && (verdict.Refused? <==> choice.Some? && !f.forward.Done?)
            && (verdict.Requeued? || verdict.Refused? || verdict.Dispatched?)
  {
    var log := LogOf(streams, JOB_STREAM);
    if Dispatcher.GROUP in log.groups {
      var cursor, reply := log.groups[Dispatcher.GROUP].cursor, Reply(log, Dispatcher.GROUP, 1);
      if cursor < |log.entries| {
        assert reply == [Message(cursor, log.entries[cursor])];
      }
    }
    hide ReadIn, Dispatcher.Finish;
  }

  class Scheduler {
    const queue: RedisStreamQueue
    const heartbeats: StreamStore<Heartbeat>
    var workers: Workers

    ghost predicate Valid() reads this, queue.jobs, heartbeats {
      Keyed(workers) && queue.jobs.Valid() && heartbeats.Valid() && queue.jobStream == JOB_STREAM
    }

    constructor (queue: RedisStreamQueue, heartbeats: StreamStore<Heartbeat>)
      requires queue.jobs.Valid() && heartbeats.Valid() && queue.jobStream == JOB_STREAM
      ensures this.queue == queue && this.heartbeats == heartbeats
      ensures Valid() && workers == map[]
    {
      this.queue, this.heartbeats, workers := queue, heartbeats, map[];
    }

    /** Both consumer groups, also the one for heartbeats, are created on the job stream. The
        second call is made only if the first is reported done; its own failure is passed over. */
    method Start(first: Outcome, second: Outcome) returns (ok: bool)
      requires Valid()
      modifies queue.jobs
      ensures Valid()
      ensures ok <==> first.Done?
      ensures var logs := CreateIn(old(queue.jobs.logs), JOB_STREAM, Dispatcher.GROUP, first);
              queue.jobs.logs == if ok then CreateIn(logs, JOB_STREAM, HEARTBEAT_GROUP, second) else logs
    {
      ok := queue.RegisterConsumerGroup(Dispatcher.GROUP, first);
      if !ok {
        return;
      }
      var _ := queue.RegisterConsumerGroup(HEARTBEAT_GROUP, second);
    }

    method ProcessHeartbeats(read: Outcome, lost: set<nat>)
      requires Valid()
      modifies this, heartbeats
      ensures Valid()
      ensures var log := LogOf(old(heartbeats.logs), HEARTBEAT_STREAM);
              var (after, folded) := Tick(log, old(workers), 100, lost);
              if read.Done? && HEARTBEAT_GROUP in log.groups
              then workers == folded && heartbeats.logs == old(heartbeats.logs)[HEARTBEAT_STREAM := after]
              else && workers == old(workers)
                   && heartbeats.logs == ReadIn(old(heartbeats.logs), HEARTBEAT_STREAM, HEARTBEAT_GROUP, 100, read)
      ensures var log, after := LogOf(old(heartbeats.logs), HEARTBEAT_STREAM), LogOf(heartbeats.logs, HEARTBEAT_STREAM);
              read.Done? && HEARTBEAT_GROUP in log.groups ==>
                var before, next := log.groups[HEARTBEAT_GROUP], NextCursor(log, HEARTBEAT_GROUP, 100);
                && HEARTBEAT_GROUP in after.groups && after.groups[HEARTBEAT_GROUP].cursor == next
                && forall id: nat :: id in after.groups[HEARTBEAT_GROUP].pending <==>
                     || id in before.pending
                     || (before.cursor <= id < next && (!Accepted(log.entries[id]) || id in lost))
    {
      hide Fold, AckAccepted, Bodies, Ack, Reply, Deliver;
      ghost var was := workers;
      var streams := heartbeats.XReadGroup(HEARTBEAT_STREAM, HEARTBEAT_GROUP, 100, read);
      if streams.Failure? {
        return;
      }
      var messages, i := streams.messages, 0;
      ghost var taken := heartbeats.logs;
      BatchStart(taken[HEARTBEAT_STREAM], was, messages, lost);
      while i < |messages|
        invariant 0 <= i <= |messages|
        invariant Keyed(workers) && heartbeats.Valid()
        invariant workers == Fold(was, Bodies(messages[..i]))
        invariant heartbeats.logs ==
                  taken[HEARTBEAT_STREAM := AckAccepted(taken[HEARTBEAT_STREAM], messages[..i], lost)]
      {
        BatchStep(taken[HEARTBEAT_STREAM], was, messages, i, lost);
        var message := messages[i];
        i := i + 1;
        if message.body.None? {
          continue;
        }
        var heartbeat := message.body.value;
        if !heartbeat.Validate() {
          continue;
        }
        workers := workers[heartbeat.workerId := heartbeat];
        var outcome := if message.id in lost then Failed else Done;
        var _ := heartbeats.XAck(HEARTBEAT_STREAM, HEARTBEAT_GROUP, message.id, outcome);
      }
      assert messages[..i] == messages;
      ghost var log := LogOf(old(heartbeats.logs), HEARTBEAT_STREAM);
      TickLeavesPending(log, was, 100, lost);
    }

    method SelectWorker(now: int) returns (best: Option<Heartbeat>)
      requires Valid()
      ensures IsChoice(best, Healthy(workers, now))
      ensures best.None? <==> forall id | id in workers :: workers[id].timestamp * SECOND + 15 * SECOND < now
      ensures best.Some? ==>
                && best.value.workerId in workers && workers[best.value.workerId] == best.value
                && now <= best.value.timestamp * SECOND + 15 * SECOND
                && forall id | id in workers && now <= workers[id].timestamp * SECOND + 15 * SECOND ::
                     NotBusier(best.value, workers[id])
    {
      var candidates: seq<Heartbeat> := [];
      var left := workers.Keys;
      while left != {}
        invariant left <= workers.Keys
        invariant forall id | id in workers && id !in left && workers[id].IsHealthy(now) :: workers[id] in candidates
        invariant forall i | 0 <= i < |candidates| ::
                    && candidates[i].workerId in workers && candidates[i].workerId !in left
                    && candidates[i].IsHealthy(now) && workers[candidates[i].workerId] == candidates[i]
        invariant forall i, j | 0 <= i < j < |candidates| :: candidates[i].workerId != candidates[j].workerId
        decreases |left|
      {
        var id :| id in left;
        left := left - {id};
        if workers[id].IsHealthy(now) {
          candidates := candidates + [workers[id]];
        }
      }
      if candidates == [] {
        ChoiceIsLeastBusy(None, workers, now);
        return None;
      }
      best := SelectLowestLoadWorker(candidates);
      ghost var k: nat :| FirstMinimum(candidates, k) && candidates[k] == best.value;
      MinimumIsChoice(candidates, Healthy(workers, now), k);
      ChoiceIsLeastBusy(best, workers, now);
    }

    /** One dispatch; `choice` is the worker that was selected, if there was a job to place. */
    method DispatchOneJob(now: int, f: Dispatcher.Fates)
      returns (ok: bool, ghost choice: Option<Heartbeat>)
      requires Valid()
      modifies queue.jobs
      ensures Valid()
      ensures var (logs, verdict) := Dispatcher.DispatchOnce(old(queue.jobs.logs), IdOf(choice), f);
              && queue.jobs.logs == logs
              && (ok <==> !verdict.QueueFailure? && !verdict.Refused?)
              && (verdict.Requeued? || verdict.Refused? || verdict.Dispatched? ==>
                    IsChoice(choice, Healthy(workers, now)))
    {
      hide Dispatcher.DispatchOnce, Reply, ReadIn, AddTo, AckIn, Parsed, IsChoice, Healthy, Keyed, ValidLogs;
      choice := None;
      ghost var before := queue.jobs.logs;
      DispatchFollowsReply(before, None, f);
      var reply := queue.DequeueJobs(Dispatcher.GROUP, "dispatcher-1", 1, f.read);
      if reply.QueueError? {
        return false, None;
      }
      if reply.NoJobs? || |reply.jobs| == 0 {
        return true, None;
      }
      var queuedJob := reply.jobs[0];
      var worker := SelectWorker(now);
      choice := worker;
      DispatchFollowsReply(before, IdOf(choice), f);
      if worker.None? {
        var _ := queue.EnqueueJob(queuedJob.job, f.requeue);
        return true, choice;
      }
      var workerStream := Dispatcher.WorkerStream(worker.value.workerId);
      var sent := queue.EnqueueJobToStream(workerStream, queuedJob.job, f.forward);
      if !sent {
        var _ := queue.EnqueueJob(queuedJob.job, f.requeue);
        return false, choice;
      }
      var _ := queue.AckJob(Dispatcher.GROUP, queuedJob.id, f.ack);
      return true, choice;
    }
  }

  // --- Runs of the heartbeat listener ---

  datatype HeartbeatEvent = Send(body: Option<Heartbeat>) | Listen(count: int)

  datatype Listener = Listener(log: Log<Heartbeat>, workers: Workers)

  /** A heartbeat is published, or one tick reads a batch whose XACKs all get through. */
  function Hear(l: Listener, e: HeartbeatEvent): (r: Listener)
    requires l.log.Valid()
    ensures r.log.Valid()
  {
    match e
    case Send(body) => l.(log := Append(l.log, body))
    case Listen(count) => var (log, workers) := Tick(l.log, l.workers, count, {}); Listener(log, workers)
  }

  function HearAll(start: Log<Heartbeat>, events: seq<HeartbeatEvent>): (r: Listener)
    requires start.Valid()
    ensures r.log.Valid()
  {
    if events == [] then Listener(start, map[]) else
    Hear(HearAll(start, events[..|events| - 1]), events[|events| - 1])
  }

  lemma {:induction false} FoldConcat(workers: Workers, a: seq<Option<Heartbeat>>, b: seq<Option<Heartbeat>>)
    ensures Fold(workers, a + b) == Fold(Fold(workers, a), b)
  {
    if b == [] {
      assert a + b == a;
    } else {
      FoldConcat(workers, a, b[..|b| - 1]);
      assert (a + b)[..|a + b| - 1] == a + b[..|b| - 1];
    }
  }

  /** The map holds the heartbeats handed out so far, folded in log order, and what is pending
      is exactly what did not parse or was invalid. */
  ghost predicate Folded(l: Listener) {
    && l.log.Valid() && HEARTBEAT_GROUP in l.log.groups
    && var group := l.log.groups[HEARTBEAT_GROUP];
       && l.workers == Fold(map[], l.log.entries[..group.cursor])
       && forall id: nat :: id in group.pending <==> id < group.cursor && !Accepted(l.log.entries[id])
  }

  lemma ListeningFoldsWorkers(l: Listener, count: int)
    requires Folded(l)
    ensures var r := Hear(l, Listen(count));
            r.workers == Fold(map[], l.log.entries[..NextCursor(l.log, HEARTBEAT_GROUP, count)])
  {
    var from, end := l.log.groups[HEARTBEAT_GROUP].cursor, NextCursor(l.log, HEARTBEAT_GROUP, count);
    var entries := l.log.entries;
    assert Bodies(Reply(l.log, HEARTBEAT_GROUP, count)) == entries[from..end];
    hide Reply, Bodies, Fold;
    assert entries[..from] + entries[from..end] == entries[..end];
    FoldConcat(map[], entries[..from], entries[from..end]);
  }

  lemma ListeningFolds(l: Listener, count: int)
    requires Folded(l)
    ensures Folded(Hear(l, Listen(count)))
  {
    ListeningFoldsWorkers(l, count);
    TickLeavesPending(l.log, l.workers, count, {});
    hide Fold, NextCursor, Reply, Bodies;
  }

  /** Nothing was read for the group yet, if it exists; XGROUP CREATE at 0 leaves it so, whatever
      was published before. */
  ghost predicate Unread(log: Log<Heartbeat>) {
    log.Valid() && (HEARTBEAT_GROUP in log.groups ==> log.groups[HEARTBEAT_GROUP] == Group(0, {}))
  }

  /** However the heartbeats are cut into batches, the state of the listener is a function of
      the log and of how far it was read: the last valid heartbeat of each worker, in log order
      (`FoldKeepsTheLatest`), with exactly the others left pending. */
  lemma {:induction false} BatchingDoesNotMatter(start: Log<Heartbeat>, events: seq<HeartbeatEvent>)
    requires Unread(start) && HEARTBEAT_GROUP in start.groups
    ensures Folded(HearAll(start, events))
  {
    if events == [] {
    } else {
      var init, e := events[..|events| - 1], events[|events| - 1];
      BatchingDoesNotMatter(start, init);
      var l := HearAll(start, init);
      match e {
        case Listen(count) => ListeningFolds(l, count);
        case Send(body) =>
          var cursor := l.log.groups[HEARTBEAT_GROUP].cursor;
          assert (l.log.entries + [body])[..cursor] == l.log.entries[..cursor];
      }
    }
  }

  lemma {:induction false} WithoutItsGroupNothingIsHeard(start: Log<Heartbeat>, events: seq<HeartbeatEvent>)
    requires start.Valid() && HEARTBEAT_GROUP !in start.groups
    ensures HearAll(start, events).workers == map[]
    ensures HearAll(start, events).log.groups == start.groups
  {
    if events == [] {
    } else {
      WithoutItsGroupNothingIsHeard(start, events[..|events| - 1]);
    }
  }

  /** A heartbeat that is sent and then read is heard. */
  lemma SentAndRead(start: Log<Heartbeat>, heartbeat: Heartbeat)
    requires Unread(start) && HEARTBEAT_GROUP in start.groups && heartbeat.Validate()
    ensures heartbeat.workerId in HearAll(start, [Send(Some(heartbeat)), Listen(0)]).workers
  {
    var first, events := [Send(Some(heartbeat))], [Send(Some(heartbeat)), Listen(0)];
    assert first[..0] == [] && HearAll(start, []) == Listener(start, map[]);
    var sent := HearAll(start, first);
    assert sent.log == Append(start, Some(heartbeat));
    assert events[..1] == first;
    var l := HearAll(start, events);
    BatchingDoesNotMatter(start, events);
    assert l == Hear(sent, Listen(0));
    hide HearAll, Hear, Fold;
    var entries := l.log.entries;
    assert entries[..|entries|] == entries;
    FoldKeepsTheLatest(entries, heartbeat.workerId);
    assert IsLatest(entries, heartbeat.workerId, |entries| - 1);
  }

  /** Workers become known, in some course of events, exactly if the group exists on the stream
      of the heartbeats. As wired, nobody creates it there (see `Scheduler.Start`). */
  lemma {:induction false} WorkersAreHeardThroughTheGroup(start: Log<Heartbeat>)
    requires Unread(start)
    ensures (exists events :: HearAll(start, events).workers != map[]) <==> HEARTBEAT_GROUP in start.groups
  {
    if HEARTBEAT_GROUP in start.groups {
      var heartbeat := Heartbeat("w", 0.0, 0, 1, 0);
      SentAndRead(start, heartbeat);
      var events := [Send(Some(heartbeat)), Listen(0)];
      assert HearAll(start, events).workers != map[];
    } else {
      forall events ensures HearAll(start, events).workers == map[] {
        WithoutItsGroupNothingIsHeard(start, events);
      }
    }
  }
}
