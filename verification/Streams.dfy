/** One Redis stream: an append-only log read by consumer groups, as the queue uses it
    (XADD, XGROUP CREATE, XREADGROUP with `>`, XACK). A message is identified by its
    position in the log; a message whose `data` field is missing or does not parse is `None`. */
module Streams {
  import opened Common

  datatype Group = Group(cursor: nat, pending: set<nat>)

  datatype Message<+T> = Message(id: nat, body: Option<T>)

  datatype Log<T> = Log(entries: seq<Option<T>>, groups: map<string, Group>)
  {
    ghost predicate Valid() {
      forall g | g in groups ::
        && groups[g].cursor <= |entries|
        && forall id | id in groups[g].pending :: id < groups[g].cursor
    }

    /** The messages `group` has not been given yet. */
    function Undelivered(group: string): seq<Option<T>>
      requires group in groups && groups[group].cursor <= |entries|
    {
      entries[groups[group].cursor..]
    }
  }

  function EmptyLog<T>(): Log<T> { Log([], map[]) }

  function Append<T>(log: Log<T>, body: Option<T>): Log<T> {
    log.(entries := log.entries + [body])
  }

  /** XGROUP CREATE ... 0: a group that already exists is left alone (BUSYGROUP). */
  function CreateGroup<T>(log: Log<T>, group: string): Log<T> {
    if group in log.groups then log else log.(groups := log.groups[group := Group(0, {})])
  }

  /** How many of `available` messages a read returns; no COUNT is sent when count is not positive. */
  function Limit(count: int, available: nat): nat {
    if 0 < count < available then count else available
  }

  function Numbered<T>(entries: seq<Option<T>>, from: nat, to: nat): (r: seq<Message<T>>)
    requires from <= to <= |entries|
  {
    seq(to - from, k requires 0 <= k < to - from => Message(from + k, entries[from + k]))
  }

  function Range(lo: nat, hi: nat): (r: set<nat>)
    ensures forall id :: id in r <==> lo <= id < hi
    decreases hi
  {
    if hi <= lo then {} else Range(lo, hi - 1) + {hi - 1}
  }

  /** Where the cursor of `group` stands after a read of at most `count` messages. */
  function NextCursor<T>(log: Log<T>, group: string, count: int): (next: nat)
    requires group in log.groups && log.groups[group].cursor <= |log.entries|
    ensures log.groups[group].cursor <= next <= |log.entries|
  {
    log.groups[group].cursor + Limit(count, |log.entries| - log.groups[group].cursor)
  }

  /** The messages XREADGROUP answers with. */
  function Reply<T>(log: Log<T>, group: string, count: int): seq<Message<T>>
    requires group in log.groups && log.groups[group].cursor <= |log.entries|
  {
    Numbered(log.entries, log.groups[group].cursor, NextCursor(log, group, count))
  }

  /** The log after XREADGROUP: what was answered is pending for the group. */
  function Deliver<T>(log: Log<T>, group: string, count: int): Log<T>
    requires group in log.groups && log.groups[group].cursor <= |log.entries|
  {
    var next := NextCursor(log, group, count);
    var taken := Range(log.groups[group].cursor, next);
    log.(groups := log.groups[group := Group(next, log.groups[group].pending + taken)])
  }

  /** The log after XACK, which ignores unknown groups and ids that are not pending. */
  function Ack<T>(log: Log<T>, group: string, id: nat): Log<T> {
    if group !in log.groups then log else
    log.(groups := log.groups[group := log.groups[group].(pending := log.groups[group].pending - {id})])
  }

  // --- Runs ---

  datatype Op<+T> =
    | Add(body: Option<T>)
    | Create(group: string)
    | Read(group: string, count: int)
    | Acknowledge(group: string, id: nat)

  function Apply<T>(log: Log<T>, op: Op<T>): (r: Log<T>)
    requires log.Valid()
    ensures r.Valid()
  {
    match op
    case Add(body) => Append(log, body)
    case Create(group) => CreateGroup(log, group)
    case Read(group, count) => if group in log.groups then Deliver(log, group, count) else log
    case Acknowledge(group, id) => Ack(log, group, id)
  }

  function Run<T>(ops: seq<Op<T>>): (r: Log<T>)
    ensures r.Valid()
  {
    if ops == [] then EmptyLog() else Apply(Run(ops[..|ops| - 1]), ops[|ops| - 1])
  }

  /** What an operation answers to `group`. */
  function Answer<T>(log: Log<T>, op: Op<T>, group: string): seq<Message<T>>
    requires log.Valid()
  {
    if op.Read? && op.group == group && group in log.groups then Reply(log, group, op.count) else []
  }

  /** The id for which an operation makes XACK answer 1 to `group`. */
  function AckAnswer<T>(log: Log<T>, op: Op<T>, group: string): seq<nat> {
    if op.Acknowledge? && op.group == group && group in log.groups && op.id in log.groups[group].pending
    then [op.id] else []
  }

  /** Everything `group` was ever answered, in the order of the answers. */
  function Delivered<T>(ops: seq<Op<T>>, group: string): seq<Message<T>> {
    if ops == [] then [] else
    Delivered(ops[..|ops| - 1], group) + Answer(Run(ops[..|ops| - 1]), ops[|ops| - 1], group)
  }

  /** The ids for which XACK answered 1 to `group`, in the order of the answers. */
  function Acked<T>(ops: seq<Op<T>>, group: string): seq<nat> {
    if ops == [] then [] else
    Acked(ops[..|ops| - 1], group) + AckAnswer(Run(ops[..|ops| - 1]), ops[|ops| - 1], group)
  }

  ghost predicate Distinct(ids: seq<nat>) {
    forall i, j | 0 <= i < j < |ids| :: ids[i] != ids[j]
  }

  /** A group that was given `delivered` and acknowledged `acked`: the former is a prefix of the
      log in order, and every position of that prefix is either pending or in `acked` once. */
  ghost predicate Accounted<T>(log: Log<T>, group: string, delivered: seq<Message<T>>, acked: seq<nat>) {
    if group !in log.groups then delivered == [] && acked == [] else
    var cursor, pending := log.groups[group].cursor, log.groups[group].pending;
    && cursor <= |log.entries|
    && delivered == Numbered(log.entries, 0, cursor)
    && Distinct(acked)
    && (forall id :: id in acked ==> id < cursor && id !in pending)
    && (forall id: nat :: id < cursor ==> id in pending || id in acked)
  }

  lemma StepAccounted<T>(log: Log<T>, op: Op<T>, group: string, delivered: seq<Message<T>>, acked: seq<nat>)
    requires log.Valid() && Accounted(log, group, delivered, acked)
    ensures Accounted(Apply(log, op), group,
                      delivered + Answer(log, op, group), acked + AckAnswer(log, op, group))
  {
    if group in log.groups {
      var cursor := log.groups[group].cursor;
      match op {
        case Add(body) =>
          assert Numbered(log.entries, 0, cursor) == Numbered(Apply(log, op).entries, 0, cursor);
        case Read(g, count) =>
          if g == group {
            var to := NextCursor(log, group, count);
            assert Numbered(log.entries, 0, cursor) + Numbered(log.entries, cursor, to) == Numbered(log.entries, 0, to);
          }
        case Create(g) =>
        case Acknowledge(g, id) =>
      }
    } else {
      assert Numbered(log.entries, 0, 0) == [];
    }
  }

  /** Whatever is done to a stream, a group has been given exactly a prefix of the log, in
      order and each message once, and every message given is either pending or was
      acknowledged, exactly once and never both. */
  lemma {:induction false} GroupSemantics<T>(ops: seq<Op<T>>, group: string)
    ensures Accounted(Run(ops), group, Delivered(ops, group), Acked(ops, group))
  {
    if ops == [] {
    } else {
      var init, op := ops[..|ops| - 1], ops[|ops| - 1];
      GroupSemantics(init, group);
      StepAccounted(Run(init), op, group, Delivered(init, group), Acked(init, group));
    }
  }

  /** The operations that `group` could notice: the appends and its own. */
  function Projected<T>(ops: seq<Op<T>>, group: string): seq<Op<T>> {
    if ops == [] then [] else
    var last := ops[|ops| - 1];
    Projected(ops[..|ops| - 1], group) + (if last.Add? || last.group == group then [last] else [])
  }

  /** Two logs that `group` cannot tell apart. */
  ghost predicate SameFor<T>(a: Log<T>, b: Log<T>, group: string) {
    && a.entries == b.entries
    && (group in a.groups <==> group in b.groups)
    && (group in a.groups ==> a.groups[group] == b.groups[group])
  }

  lemma StepSameFor<T>(a: Log<T>, b: Log<T>, op: Op<T>, group: string)
    requires a.Valid() && b.Valid() && SameFor(a, b, group)
    ensures op.Add? || op.group == group ==>
              && SameFor(Apply(a, op), Apply(b, op), group)
              && Answer(a, op, group) == Answer(b, op, group)
              && AckAnswer(a, op, group) == AckAnswer(b, op, group)
    ensures !op.Add? && op.group != group ==>
              SameFor(Apply(a, op), b, group) && Answer(a, op, group) == [] && AckAnswer(a, op, group) == []
  {
  }

  /** Groups do not affect each other: what a group sees over a whole run, whoever else reads
      or acknowledges, is what it sees when the others are left out. */
  lemma {:induction false} GroupsAreIndependent<T>(ops: seq<Op<T>>, group: string)
    ensures SameFor(Run(ops), Run(Projected(ops, group)), group)
    ensures Delivered(ops, group) == Delivered(Projected(ops, group), group)
    ensures Acked(ops, group) == Acked(Projected(ops, group), group)
  {
    if ops == [] {
    } else {
      var init, op := ops[..|ops| - 1], ops[|ops| - 1];
      GroupsAreIndependent(init, group);
      var own := Projected(init, group);
      StepSameFor(Run(init), Run(own), op, group);
      if op.Add? || op.group == group {
        assert (own + [op])[..|own|] == own;
      } else {
        assert Projected(ops, group) == own;
      }
    }
  }

  ghost predicate CreatedIn<T>(ops: seq<Op<T>>, group: string) {
    exists i | 0 <= i < |ops| :: ops[i] == Create(group)
  }

  /** A group exists exactly if somebody created it; reading does not. Before that, or without it,
      nothing is delivered. */
  lemma {:induction false} GroupsAreCreated<T>(ops: seq<Op<T>>, group: string)
    ensures group in Run(ops).groups <==> CreatedIn(ops, group)
    ensures !CreatedIn(ops, group) ==> Delivered(ops, group) == []
  {
    if ops == [] {
    } else {
      var init, op := ops[..|ops| - 1], ops[|ops| - 1];
      GroupsAreCreated(init, group);
      assert CreatedIn(ops, group) <==> CreatedIn(init, group) || op == Create(group) by {
        assert ops == init + [op];
        if op == Create(group) {
          assert ops[|ops| - 1] == Create(group);
        }
        if i :| 0 <= i < |init| && init[i] == Create(group) {
          assert ops[i] == Create(group);
        }
      }
    }
  }

  /** Broadcast: all groups that have caught up with the log were given the same whole log.
      So k workers that read one stream under k group names, if these exist, each run every job. */
  lemma {:induction false} CaughtUpGroupsSeeEverything<T>(ops: seq<Op<T>>, groups: set<string>)
    requires forall g | g in groups :: g in Run(ops).groups && Run(ops).groups[g].cursor == |Run(ops).entries|
    ensures forall g | g in groups :: Delivered(ops, g) == Numbered(Run(ops).entries, 0, |Run(ops).entries|)
  {
    forall g | g in groups
      ensures Delivered(ops, g) == Numbered(Run(ops).entries, 0, |Run(ops).entries|)
    {
      GroupSemantics(ops, g);
    }
  }

  /** A consumer that only learns the ids of messages it could parse acknowledges no others. */
  ghost predicate AcksOnlyParsed<T>(ops: seq<Op<T>>, group: string) {
    forall i | 0 <= i < |ops| && ops[i].Acknowledge? && ops[i].group == group ::
      exists m :: m in Delivered(ops[..i], group) && m.id == ops[i].id && m.body.Some?
  }

  lemma AcksOnlyParsedBefore<T>(ops: seq<Op<T>>, group: string)
    requires AcksOnlyParsed(ops, group) && ops != []
    ensures AcksOnlyParsed(ops[..|ops| - 1], group)
    ensures var op := ops[|ops| - 1];
            op.Acknowledge? && op.group == group ==>
              op.id < |Run(ops[..|ops| - 1]).entries| && Run(ops[..|ops| - 1]).entries[op.id].Some?
  {
    var init := ops[..|ops| - 1];
    forall i | 0 <= i < |init| && init[i].Acknowledge? && init[i].group == group
      ensures exists m :: m in Delivered(init[..i], group) && m.id == init[i].id && m.body.Some?
    {
      assert init[..i] == ops[..i];
    }
    GroupSemantics(init, group);
  }

  /** Only XACK takes a message out of the pending set. */
  lemma StepKeepsPending<T>(log: Log<T>, op: Op<T>, group: string, id: nat)
    requires log.Valid()
    requires group in log.groups && id < log.groups[group].cursor ==> id in log.groups[group].pending
    requires op.Acknowledge? && op.group == group ==> op.id != id
    ensures var r := Apply(log, op);
            group in r.groups && id < r.groups[group].cursor ==> id in r.groups[group].pending
  {
  }

  /** Messages that do not parse stay pending for good. */
  lemma {:induction false} MalformedStaysPending<T>(ops: seq<Op<T>>, group: string, id: nat)
    requires AcksOnlyParsed(ops, group)
    requires id < |Run(ops).entries| && Run(ops).entries[id].None?
    ensures var log := Run(ops);
            group in log.groups && id < log.groups[group].cursor ==> id in log.groups[group].pending
  {
    if ops == [] {
    } else {
      var init, op := ops[..|ops| - 1], ops[|ops| - 1];
      var before := Run(init);
      AcksOnlyParsedBefore(ops, group);
      assert before.entries <= Run(ops).entries;
      if id < |before.entries| {
        MalformedStaysPending(init, group, id);
      }
      hide Apply, AcksOnlyParsed;
      StepKeepsPending(before, op, group, id);
    }
  }

  // --- The keyspace of one kind of stream ---

  type Logs<T> = map<string, Log<T>>

  /** A stream that was never written is empty. */
  function LogOf<T>(logs: Logs<T>, name: string): Log<T> {
    if name in logs then logs[name] else EmptyLog()
  }

  /** XADD, which creates the stream when it is missing. */
  function AddTo<T>(logs: Logs<T>, name: string, body: Option<T>, outcome: Outcome): Logs<T> {
    if outcome.Applied() then logs[name := Append(LogOf(logs, name), body)] else logs
  }

  /** XACK on a stream by name. */
  function AckIn<T>(logs: Logs<T>, name: string, group: string, id: nat, outcome: Outcome): Logs<T> {
    if outcome.Applied() && name in logs then logs[name := Ack(logs[name], group, id)] else logs
  }

  /** XGROUP CREATE with MKSTREAM on a stream by name. */
  function CreateIn<T>(logs: Logs<T>, name: string, group: string, outcome: Outcome): Logs<T> {
    if outcome.Applied() then logs[name := CreateGroup(LogOf(logs, name), group)] else logs
  }

  /** XREADGROUP on a stream by name: nothing happens without the group. When the reply is lost,
      the messages are the group's all the same. */
  function ReadIn<T>(logs: Logs<T>, name: string, group: string, count: int, outcome: Outcome): Logs<T>
    requires ValidLogs(logs)
  {
    if outcome.Applied() && group in LogOf(logs, name).groups
    then logs[name := Deliver(LogOf(logs, name), group, count)] else logs
  }

  ghost predicate ValidLogs<T>(logs: Logs<T>) {
    forall name | name in logs :: logs[name].Valid()
  }

  /** XREADGROUP also fails when the group does not exist (NOGROUP). */
  datatype ReadReply<+T> = Failure | Messages(messages: seq<Message<T>>)

  /** The streams of one Redis server that carry messages of type T. */
  class StreamStore<T> {
    var logs: Logs<T>

    ghost predicate Valid() reads this { ValidLogs(logs) }

    constructor ()
      ensures Valid() && logs == map[]
    {
      logs := map[];
    }

    method XAdd(stream: string, body: Option<T>, outcome: Outcome) returns (ok: bool)
      requires Valid()
      modifies this
      ensures Valid()
      ensures logs == AddTo(old(logs), stream, body, outcome)
      ensures ok <==> outcome.Done?
    {
      if outcome.Applied() {
        var log := if stream in logs then logs[stream] else EmptyLog();
        logs := logs[stream := log.(entries := log.entries + [body])];
      }
      ok := outcome.Done?;
    }

    /** That the group exists already (BUSYGROUP) is no failure. */
    method XGroupCreateMkStream(stream: string, group: string, outcome: Outcome) returns (ok: bool)
      requires Valid()
      modifies this
      ensures Valid()
      ensures logs == CreateIn(old(logs), stream, group, outcome)
      ensures ok <==> outcome.Done?
    {
      ok := outcome.Done?;
      if !outcome.Applied() {
        return;
      }
      var log := if stream in logs then logs[stream] else EmptyLog();
      if group !in log.groups {
        log := log.(groups := log.groups[group := Group(0, {})]);
      }
      logs := logs[stream := log];
    }

    method XReadGroup(stream: string, group: string, count: int, outcome: Outcome) returns (reply: ReadReply<T>)
      requires Valid()
      modifies this
      ensures Valid()
      ensures logs == ReadIn(old(logs), stream, group, count, outcome)
      ensures reply.Failure? <==> !outcome.Done? || group !in LogOf(old(logs), stream).groups
      ensures reply.Messages? ==> reply.messages == Reply(LogOf(old(logs), stream), group, count)
    {
      var log := if stream in logs then logs[stream] else EmptyLog();
      if !outcome.Applied() || group !in log.groups {
        return Failure;
      }
      var messages, pending, cursor := [], log.groups[group].pending, log.groups[group].cursor;
      ghost var start, next := cursor, NextCursor(log, group, count);
      while cursor < |log.entries| && (count <= 0 || |messages| < count)
        invariant start <= cursor <= next
        invariant messages == Numbered(log.entries, start, cursor)
        invariant pending == log.groups[group].pending + Range(start, cursor)
      {
        messages := messages + [Message(cursor, log.entries[cursor])];
        pending := pending + {cursor};
        cursor := cursor + 1;
      }
      logs := logs[stream := log.(groups := log.groups[group := Group(cursor, pending)])];
      reply := if outcome.Done? then Messages(messages) else Failure;
    }

    method XAck(stream: string, group: string, id: nat, outcome: Outcome) returns (ok: bool)
      requires Valid()
      modifies this
      ensures Valid()
      ensures logs == AckIn(old(logs), stream, group, id, outcome)
      ensures ok <==> outcome.Done?
    {
      ok := outcome.Done?;
      if outcome.Applied() && stream in logs && group in logs[stream].groups {
        var log := logs[stream];
        var g := log.groups[group];
        logs := logs[stream := log.(groups := log.groups[group := g.(pending := g.pending - {id})])];
      }
    }

    method XLen(stream: string, outcome: Outcome) returns (n: nat, ok: bool)
      ensures n == if outcome.Done? then |LogOf(logs, stream).entries| else 0
      ensures ok <==> outcome.Done?
    {
      n, ok := if outcome.Done? && stream in logs then |logs[stream].entries| else 0, outcome.Done?;
    }

    /** XREAD after the message whose id is `last`; 0 stands before the first message, and the
        message at position p has the id p + 1. */
    method XRead(stream: string, last: nat, count: int, outcome: Outcome)
      returns (messages: seq<Message<T>>, ok: bool)
      ensures var entries := LogOf(logs, stream).entries;
              var from := if last <= |entries| then last else |entries|;
              messages == if outcome.Done? then Numbered(entries, from, from + Limit(count, |entries| - from)) else []
      ensures ok <==> outcome.Done?
    {
      if !outcome.Done? {
        return [], false;
      }
      ok := true;
      var entries := if stream in logs then logs[stream].entries else [];
      var from := if last <= |entries| then last else |entries|;
      messages := Numbered(entries, from, from + Limit(count, |entries| - from));
    }
  }
}
