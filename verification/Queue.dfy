/** The job queue over Redis streams: jobs, results and dead letters. */
module Queue {
  import opened Common
  import opened Streams

  datatype Job = Job(
    invocationId: string,
    functionId: string,
    versionId: string,
    imageURI: string,
    payload: string,
    retryCount: int,
    maxRetries: int)

  /** `attempt` is the retry count of the job that was run: the field the result handler says
      it would use. `messageId` is not part of the stored data; `ReadResults` fills it in. */
  datatype JobResult = JobResult(
    invocationId: string,
    functionId: string,
    versionId: string,
    status: string,
    exitCode: int,
    durationMs: int,
    attempt: int,
    error: string,
    messageId: nat)

  datatype DeadLetter = DeadLetter(job: Job, error: string)

  datatype QueuedJob = QueuedJob(id: nat, job: Job, claim: string)

  datatype DequeueReply = QueueError | NoJobs | Jobs(jobs: seq<QueuedJob>)

  const JOB_STREAM: string := "nimbusrun:jobs"
  const RESULT_STREAM: string := "nimbusrun:results"

  /** The messages that parse, in order. */
  function Parsed<T>(messages: seq<Message<T>>): (r: seq<Message<T>>)
    ensures forall m | m in r :: m.body.Some?
  {
    if messages == [] then [] else
    var last := messages[|messages| - 1];
    Parsed(messages[..|messages| - 1]) + (if last.body.Some? then [last] else [])
  }

  lemma {:induction false} ParsedConcat<T>(a: seq<Message<T>>, b: seq<Message<T>>)
    ensures Parsed(a + b) == Parsed(a) + Parsed(b)
  {
    if b == [] {
      assert a + b == a;
    } else {
      var all, init, last := a + b, b[..|b| - 1], b[|b| - 1];
      ParsedConcat(a, init);
      assert all[..|all| - 1] == a + init && all[|all| - 1] == last;
      var tail := if last.body.Some? then [last] else [];
      assert Parsed(all) == Parsed(a + init) + tail;
      assert Parsed(b) == Parsed(init) + tail;
    }
  }

  function AsQueued(messages: seq<Message<Job>>, claim: string): seq<QueuedJob>
    requires forall m | m in messages :: m.body.Some?
  {
    seq(|messages|, i requires 0 <= i < |messages| => QueuedJob(messages[i].id, messages[i].body.value, claim))
  }

  function AsResults(messages: seq<Message<JobResult>>): seq<JobResult>
    requires forall m | m in messages :: m.body.Some?
  {
    seq(|messages|, i requires 0 <= i < |messages| => messages[i].body.value.(messageId := messages[i].id + 1))
  }

  /** The same result, whatever message it was read from. */
  predicate SameResult(a: JobResult, b: JobResult) { a.(messageId := 0) == b.(messageId := 0) }

  /** What is found behind `last` are stored results, each with the id of its own message (the
      message at position p has the id p + 1), and these ids increase. */
  ghost predicate Answers(entries: seq<Option<JobResult>>, last: nat, found: seq<JobResult>) {
    && (forall i | 0 <= i < |found| ::
          && last < found[i].messageId <= |entries| && entries[found[i].messageId - 1].Some?
          && SameResult(found[i], entries[found[i].messageId - 1].value))
    && (forall i, j | 0 <= i < j < |found| :: found[i].messageId < found[j].messageId)
  }

  class RedisStreamQueue {
    const jobs: StreamStore<Job>
    const results: StreamStore<JobResult>
    const dead: StreamStore<DeadLetter>
    const jobStream: string
    const resultStream: string

    ghost predicate Valid() reads jobs, results, dead {
      jobs.Valid() && results.Valid() && dead.Valid()
    }

    constructor (jobs: StreamStore<Job>, results: StreamStore<JobResult>, dead: StreamStore<DeadLetter>,
                 jobStream: string, resultStream: string)
      ensures this.jobs == jobs && this.results == results && this.dead == dead
      ensures this.jobStream == jobStream && this.resultStream == resultStream
    {
      this.jobs, this.results, this.dead := jobs, results, dead;
      this.jobStream, this.resultStream := jobStream, resultStream;
    }

    method EnqueueJob(job: Job, outcome: Outcome) returns (ok: bool)
      requires jobs.Valid()
      modifies jobs
      ensures jobs.Valid()
      ensures jobs.logs == AddTo(old(jobs.logs), jobStream, Some(job), outcome)
      ensures ok <==> outcome.Done?
    {
      ok := jobs.XAdd(jobStream, Some(job), outcome);
    }

    method EnqueueJobToStream(stream: string, job: Job, outcome: Outcome) returns (ok: bool)
      requires jobs.Valid()
      modifies jobs
      ensures jobs.Valid()
      ensures jobs.logs == AddTo(old(jobs.logs), stream, Some(job), outcome)
      ensures ok <==> outcome.Done?
    {
      ok := jobs.XAdd(stream, Some(job), outcome);
    }

    /** Whatever the group is for, it is created on the job stream. */
    method RegisterConsumerGroup(group: string, outcome: Outcome) returns (ok: bool)
      requires jobs.Valid()
      modifies jobs
      ensures jobs.Valid()
      ensures jobs.logs == CreateIn(old(jobs.logs), jobStream, group, outcome)
      ensures ok <==> outcome.Done?
      ensures outcome.Failed? ==> jobs.logs == old(jobs.logs)
      ensures outcome.Applied() ==>
                var before, after := LogOf(old(jobs.logs), jobStream), LogOf(jobs.logs, jobStream);
                && after.entries == before.entries
                && after.groups == before.groups[group :=
                     if group in before.groups then before.groups[group] else Group(0, {})]
      ensures forall name | name != jobStream :: LogOf(jobs.logs, name) == LogOf(old(jobs.logs), name)
    {
      ok := jobs.XGroupCreateMkStream(jobStream, group, outcome);
    }

    /** Reads up to `count` new messages for the group and returns the jobs among them; a message
        that does not parse is skipped, and like the others it is now pending. */
    method DequeueJobs(group: string, consumer: string, count: int, outcome: Outcome) returns (reply: DequeueReply)
      requires jobs.Valid()
      modifies jobs
      ensures jobs.Valid()
      ensures jobs.logs == ReadIn(old(jobs.logs), jobStream, group, count, outcome)
      ensures var log := LogOf(old(jobs.logs), jobStream);
              reply == if !outcome.Done? || group !in log.groups then QueueError
                       else if Reply(log, group, count) == [] then NoJobs
                       else Jobs(AsQueued(Parsed(Reply(log, group, count)), consumer))
      ensures reply.Jobs? ==> forall i | 0 <= i < |reply.jobs| :: reply.jobs[i].claim == consumer
    {
      var streams := jobs.XReadGroup(jobStream, group, count, outcome);
      if streams.Failure? {
        return QueueError;
      }
      var messages := streams.messages;
      if messages == [] {
        return NoJobs;
      }
      var queued: seq<QueuedJob>, i := [], 0;
      while i < |messages|
        invariant 0 <= i <= |messages|
        invariant queued == AsQueued(Parsed(messages[..i]), consumer)
      {
        assert messages[..i + 1][..i] == messages[..i];
        var message := messages[i];
        if message.body.Some? {
          queued := queued + [QueuedJob(message.id, message.body.value, consumer)];
        }
        i := i + 1;
      }
      assert messages[..i] == messages;
      reply := Jobs(queued);
    }

    method AckJob(group: string, id: nat, outcome: Outcome) returns (ok: bool)
      requires jobs.Valid()
      modifies jobs
      ensures jobs.Valid()
      ensures jobs.logs == AckIn(old(jobs.logs), jobStream, group, id, outcome)
      ensures ok <==> outcome.Done?
    {
      ok := jobs.XAck(jobStream, group, id, outcome);
    }

    method GetQueueDepth(outcome: Outcome) returns (depth: nat, ok: bool)
      ensures depth == if outcome.Done? then |LogOf(jobs.logs, jobStream).entries| else 0
      ensures ok <==> outcome.Done?
    {
      depth, ok := jobs.XLen(jobStream, outcome);
    }

    method EnqueueDLQ(job: Job, error: string, outcome: Outcome) returns (ok: bool)
      requires dead.Valid()
      modifies dead
      ensures dead.Valid()
      ensures dead.logs == AddTo(old(dead.logs), jobStream + ":dlq", Some(DeadLetter(job, error)), outcome)
      ensures ok <==> outcome.Done?
    {
      ok := dead.XAdd(jobStream + ":dlq", Some(DeadLetter(job, error)), outcome);
    }

    /** Reads up to `count` messages after the one identified by `last` and returns the results
        among them, each with its message id. */
    method ReadResults(last: nat, count: int, outcome: Outcome) returns (found: seq<JobResult>, ok: bool)
      ensures found == if outcome.Done?
                       then AsResults(Page(LogOf(results.logs, resultStream).entries, last, count)) else []
      ensures ok <==> outcome.Done?
      ensures Answers(LogOf(results.logs, resultStream).entries, last, found)
    {
      ResultsOfNone(LogOf(results.logs, resultStream).entries, last, count);
      hide Answers, Parsed, AsResults, Numbered, Limit;
      var messages, reached := results.XRead(resultStream, last, count, outcome);
      if !reached {
        return [], false;
      }
      var i := 0;
      found, ok := [], true;
      assert messages[..0] == [];
      while i < |messages|
        invariant 0 <= i <= |messages|
        invariant found == AsResults(Parsed(messages[..i]))
      {
        ResultsStep(messages, i);
        var message := messages[i];
        if message.body.Some? {
          found := found + [message.body.value.(messageId := message.id + 1)];
        }
        i := i + 1;
      }
      assert messages[..i] == messages;
    }
  }

  lemma ResultsOfNone(entries: seq<Option<JobResult>>, last: nat, count: int)
    ensures AsResults(Parsed([])) == []
    ensures Answers(entries, last, AsResults(Page(entries, last, count))) && Answers(entries, last, [])
  {
    AnswersPage(entries, last, count);
    hide Answers;
  }

  lemma ResultsStep(messages: seq<Message<JobResult>>, i: nat)
    requires i < |messages|
    ensures var message := messages[i];
            AsResults(Parsed(messages[..i + 1])) ==
            AsResults(Parsed(messages[..i])) +
            (if message.body.Some? then [message.body.value.(messageId := message.id + 1)] else [])
  {
    assert messages[..i + 1][..i] == messages[..i];
  }

  // --- Paging through a log ---

  /** The parsed messages that one bounded read after `last` returns. */
  function Page<T>(entries: seq<Option<T>>, last: nat, count: int): seq<Message<T>> {
    var from := if last <= |entries| then last else |entries|;
    Parsed(Numbered(entries, from, from + Limit(count, |entries| - from)))
  }

  /** The `last` a reader passes next: the message id of the last result it was given. */
  function NextLast<T>(page: seq<Message<T>>, last: nat): nat {
    if page == [] then last else page[|page| - 1].id + 1
  }

  /** Where a reader that starts before the first message stands after k reads. */
  function LastAfter<T>(entries: seq<Option<T>>, count: int, k: nat): nat {
    if k == 0 then 0 else
    var last := LastAfter(entries, count, k - 1);
    NextLast(Page(entries, last, count), last)
  }

  /** Everything that reader was given by its first k reads. */
  function Collected<T>(entries: seq<Option<T>>, count: int, k: nat): seq<Message<T>> {
    if k == 0 then [] else
    Collected(entries, count, k - 1) + Page(entries, LastAfter(entries, count, k - 1), count)
  }

  function ParsedUpTo<T>(entries: seq<Option<T>>, p: nat): seq<Message<T>>
    requires p <= |entries|
  {
    Parsed(Numbered(entries, 0, p))
  }

  lemma ParsedStep<T>(entries: seq<Option<T>>, from: nat, end: nat)
    requires from < end <= |entries|
    ensures Parsed(Numbered(entries, from, end)) ==
            Parsed(Numbered(entries, from, end - 1)) +
            (if entries[end - 1].Some? then [Message(end - 1, entries[end - 1])] else [])
  {
    var slice := Numbered(entries, from, end);
    assert slice[..|slice| - 1] == Numbered(entries, from, end - 1);
  }

  /** A parsed slice ends with its last message that parses; what follows it does not. */
  lemma {:induction false} ParsedSlice<T>(entries: seq<Option<T>>, from: nat, end: nat)
    requires from <= end <= |entries|
    ensures var page := Parsed(Numbered(entries, from, end));
            var next := NextLast(page, from);
            && from <= next <= end
            && (page != [] ==> from < next && entries[next - 1].Some?)
            && (forall p | next <= p < end :: entries[p].None?)
            && page == Parsed(Numbered(entries, from, next))
    decreases end
  {
    hide Parsed, Numbered;
    if from == end {
      ParsedNothing(entries, from);
    } else {
      ParsedSlice(entries, from, end - 1);
      ParsedStep(entries, from, end);
    }
  }

  lemma ParsedNothing<T>(entries: seq<Option<T>>, p: nat)
    requires p <= |entries|
    ensures Parsed(Numbered(entries, p, p)) == []
  {
  }

  lemma ParsedBetween<T>(entries: seq<Option<T>>, p: nat, end: nat)
    requires p <= end <= |entries|
    ensures ParsedUpTo(entries, end) == ParsedUpTo(entries, p) + Parsed(Numbered(entries, p, end))
  {
    assert Numbered(entries, 0, end) == Numbered(entries, 0, p) + Numbered(entries, p, end);
    ParsedConcat(Numbered(entries, 0, p), Numbered(entries, p, end));
  }

  lemma OnePage<T>(entries: seq<Option<T>>, last: nat, count: int)
    requires last <= |entries|
    ensures last <= NextLast(Page(entries, last, count), last) <= |entries|
    ensures ParsedUpTo(entries, NextLast(Page(entries, last, count), last))
            == ParsedUpTo(entries, last) + Page(entries, last, count)
  {
    hide Parsed, Numbered, ParsedUpTo;
    ParsedSlice(entries, last, last + Limit(count, |entries| - last));
    ParsedBetween(entries, last, NextLast(Page(entries, last, count), last));
  }

  lemma {:induction false} PagingInvariant<T>(entries: seq<Option<T>>, count: int, k: nat)
    ensures LastAfter(entries, count, k) <= |entries|
    ensures Collected(entries, count, k) == ParsedUpTo(entries, LastAfter(entries, count, k))
  {
    hide Page, Parsed, NextLast;
    ParsedNothing(entries, 0);
    if k == 0 {
    } else {
      PagingInvariant(entries, count, k - 1);
      OnePage(entries, LastAfter(entries, count, k - 1), count);
    }
  }

  /** `count` consecutive messages that do not parse, before one that does. */
  ghost predicate StallsAt<T>(entries: seq<Option<T>>, count: int, p: nat) {
    && 0 < count && p + count <= |entries|
    && (forall i | p <= i < p + count :: entries[i].None?)
    && exists i :: p + count <= i < |entries| && entries[i].Some?
  }

  lemma StalledRead<T>(entries: seq<Option<T>>, count: int, p: nat, last: nat)
    requires StallsAt(entries, count, p) && last <= p
    ensures NextLast(Page(entries, last, count), last) <= p
  {
    ParsedSlice(entries, last, last + Limit(count, |entries| - last));
  }

  lemma {:induction false} StalledReader<T>(entries: seq<Option<T>>, count: int, p: nat, k: nat)
    requires StallsAt(entries, count, p)
    ensures LastAfter(entries, count, k) <= p
  {
    hide Page, NextLast;
    if k == 0 {
    } else {
      StalledReader(entries, count, p, k - 1);
      StalledRead(entries, count, p, LastAfter(entries, count, k - 1));
    }
  }

  lemma ParsedNone<T>(entries: seq<Option<T>>, p: nat)
    requires p <= |entries|
    ensures NothingAfter(entries, p) <==> ParsedUpTo(entries, p) == ParsedUpTo(entries, |entries|)
  {
    ParsedBetween(entries, p, |entries|);
    ParsedSlice(entries, p, |entries|);
  }

  ghost predicate NothingAfter<T>(entries: seq<Option<T>>, p: nat) {
    forall i | p <= i < |entries| :: entries[i].None?
  }

  /** One read either advances or there is nothing left to find, unless the reader stalls. */
  lemma ReadAdvances<T>(entries: seq<Option<T>>, count: int, last: nat)
    requires last <= |entries| && !StallsAt(entries, count, last)
    ensures last <= NextLast(Page(entries, last, count), last) <= |entries|
    ensures NextLast(Page(entries, last, count), last) == last ==> NothingAfter(entries, last)
  {
    ParsedSlice(entries, last, last + Limit(count, |entries| - last));
  }

  lemma {:induction false} ReaderAdvances<T>(entries: seq<Option<T>>, count: int, k: nat)
    requires forall p: nat :: !StallsAt(entries, count, p)
    ensures LastAfter(entries, count, k) <= |entries|
    ensures k <= LastAfter(entries, count, k) || NothingAfter(entries, LastAfter(entries, count, k))
  {
    hide Page, NextLast;
    if k == 0 {
    } else {
      ReaderAdvances(entries, count, k - 1);
      ReadAdvances(entries, count, LastAfter(entries, count, k - 1));
    }
  }

  /** Reading page after page gives the results of a fixed log in order and once each; it ends
      up with all of them exactly when no `count` consecutive malformed messages precede a
      result, and then after at most as many reads as there are messages. */
  lemma PagingIsComplete<T>(entries: seq<Option<T>>, count: int)
    ensures (exists k: nat :: Collected(entries, count, k) == ParsedUpTo(entries, |entries|))
            <==> forall p: nat :: !StallsAt(entries, count, p)
    ensures (forall p: nat :: !StallsAt(entries, count, p)) ==>
              forall k: nat :: |entries| <= k ==> Collected(entries, count, k) == ParsedUpTo(entries, |entries|)
  {
    hide Collected, ParsedUpTo, StallsAt;
    forall k: nat, p: nat | StallsAt(entries, count, p)
      ensures Collected(entries, count, k) != ParsedUpTo(entries, |entries|)
    {
      StalledIsIncomplete(entries, count, p, k);
    }
    if forall p: nat :: !StallsAt(entries, count, p) {
      forall k: nat | |entries| <= k
        ensures Collected(entries, count, k) == ParsedUpTo(entries, |entries|)
      {
        UnstalledIsComplete(entries, count, k);
      }
      var n: nat := |entries|;
      assert Collected(entries, count, n) == ParsedUpTo(entries, |entries|);
      assert exists k: nat :: Collected(entries, count, k) == ParsedUpTo(entries, |entries|);
    }
  }

  lemma UnstalledIsComplete<T>(entries: seq<Option<T>>, count: int, k: nat)
    requires (forall p: nat :: !StallsAt(entries, count, p)) && |entries| <= k
    ensures Collected(entries, count, k) == ParsedUpTo(entries, |entries|)
  {
    PagingInvariant(entries, count, k);
    ReaderAdvances(entries, count, k);
    ParsedNone(entries, LastAfter(entries, count, k));
  }

  lemma StalledIsIncomplete<T>(entries: seq<Option<T>>, count: int, p: nat, k: nat)
    requires StallsAt(entries, count, p)
    ensures Collected(entries, count, k) != ParsedUpTo(entries, |entries|)
  {
    PagingInvariant(entries, count, k);
    StalledReader(entries, count, p, k);
    ParsedNone(entries, LastAfter(entries, count, k));
    var i :| p + count <= i < |entries| && entries[i].Some?;
    assert !NothingAfter(entries, LastAfter(entries, count, k));
  }

  // --- Paging by the answers of ReadResults ---

  /** The messages are messages of the log that parse, in order, from one position to another. */
  ghost predicate InOrder<T>(entries: seq<Option<T>>, from: nat, end: nat, page: seq<Message<T>>) {
    && (forall i | 0 <= i < |page| ::
          from <= page[i].id < end <= |entries| && entries[page[i].id].Some? && page[i].body == entries[page[i].id])
    && (forall i, j | 0 <= i < j < |page| :: page[i].id < page[j].id)
  }

  lemma {:induction false} ParsedInOrder<T>(entries: seq<Option<T>>, from: nat, end: nat)
    requires from <= end <= |entries|
    ensures InOrder(entries, from, end, Parsed(Numbered(entries, from, end)))
    decreases end
  {
    hide Parsed, Numbered;
    if from == end {
      ParsedNothing(entries, from);
    } else {
      ParsedInOrder(entries, from, end - 1);
      ParsedStep(entries, from, end);
    }
  }

  lemma InOrderAnswers(entries: seq<Option<JobResult>>, last: nat, from: nat, end: nat, page: seq<Message<JobResult>>)
    requires last <= from && InOrder(entries, from, end, page)
    requires forall m | m in page :: m.body.Some?
    ensures Answers(entries, last, AsResults(page))
  {
    var found := AsResults(page);
    forall i | 0 <= i < |found|
      ensures last < found[i].messageId <= |entries| && entries[found[i].messageId - 1].Some?
      ensures SameResult(found[i], entries[found[i].messageId - 1].value)
    {
      assert found[i].messageId == page[i].id + 1;
    }
    forall i, j | 0 <= i < j < |found| ensures found[i].messageId < found[j].messageId {
      assert page[i].id < page[j].id;
    }
  }

  lemma ResultsAnswer(entries: seq<Option<JobResult>>, last: nat, from: nat, end: nat)
    requires last <= from <= end <= |entries|
    ensures Answers(entries, last, AsResults(Parsed(Numbered(entries, from, end))))
  {
    ParsedInOrder(entries, from, end);
    InOrderAnswers(entries, last, from, end, Parsed(Numbered(entries, from, end)));
  }

  lemma AnswersPage(entries: seq<Option<JobResult>>, last: nat, count: int)
    ensures Answers(entries, last, AsResults(Page(entries, last, count))) && Answers(entries, last, [])
  {
    if last <= |entries| {
      ResultsAnswer(entries, last, last, last + Limit(count, |entries| - last));
    } else {
      ParsedNothing(entries, |entries|);
    }
  }

  /** The `last` a reader takes from the answer it was given. */
  function NextId(found: seq<JobResult>, last: nat): nat {
    if found == [] then last else found[|found| - 1].messageId
  }

  /** Where a reader stands after k calls of ReadResults, from the beginning. */
  function IdAfter(entries: seq<Option<JobResult>>, count: int, k: nat): nat {
    if k == 0 then 0 else
    var last := IdAfter(entries, count, k - 1);
    NextId(AsResults(Page(entries, last, count)), last)
  }

  /** All that these calls answered. */
  function Gathered(entries: seq<Option<JobResult>>, count: int, k: nat): seq<JobResult> {
    if k == 0 then [] else
    Gathered(entries, count, k - 1) + AsResults(Page(entries, IdAfter(entries, count, k - 1), count))
  }

  /** The results in a log. */
  function Stored(entries: seq<Option<JobResult>>): seq<JobResult> {
    if entries == [] then [] else
    var last := entries[|entries| - 1];
    Stored(entries[..|entries| - 1]) + (if last.Some? then [last.value] else [])
  }

  ghost predicate SameResults(a: seq<JobResult>, b: seq<JobResult>) {
    |a| == |b| && forall i | 0 <= i < |a| :: SameResult(a[i], b[i])
  }

  lemma {:induction false} GatheredIsCollected(entries: seq<Option<JobResult>>, count: int, k: nat)
    ensures IdAfter(entries, count, k) == LastAfter(entries, count, k)
    ensures forall m | m in Collected(entries, count, k) :: m.body.Some?
    ensures Gathered(entries, count, k) == AsResults(Collected(entries, count, k))
  {
    hide Page;
    if k == 0 {
    } else {
      GatheredIsCollected(entries, count, k - 1);
      var before, last := Collected(entries, count, k - 1), LastAfter(entries, count, k - 1);
      PageParsed(entries, last, count);
      var page := Page(entries, last, count);
      assert AsResults(before + page) == AsResults(before) + AsResults(page);
    }
  }

  lemma PageParsed<T>(entries: seq<Option<T>>, last: nat, count: int)
    ensures forall m | m in Page(entries, last, count) :: m.body.Some?
  {
  }

  lemma {:induction false} StoredIsParsed(entries: seq<Option<JobResult>>, p: nat)
    requires p <= |entries|
    ensures SameResults(AsResults(ParsedUpTo(entries, p)), Stored(entries[..p]))
  {
    hide Parsed, Numbered;
    if p == 0 {
      ParsedNothing(entries, 0);
    } else {
      StoredIsParsed(entries, p - 1);
      ParsedStep(entries, 0, p);
      assert entries[..p][..p - 1] == entries[..p - 1];
    }
  }

  /** A reader has gathered all results of the log exactly if it collected all parsed messages. */
  lemma GatheredAll(entries: seq<Option<JobResult>>, count: int, k: nat)
    ensures SameResults(Gathered(entries, count, k), Stored(entries))
            <==> Collected(entries, count, k) == ParsedUpTo(entries, |entries|)
  {
    hide Page, Collected, Gathered, ParsedUpTo;
    GatheredIsCollected(entries, count, k);
    StoredIsParsed(entries, |entries|);
    assert entries[..|entries|] == entries;
    PagingInvariant(entries, count, k);
    ParsedBetween(entries, LastAfter(entries, count, k), |entries|);
  }

  /** Calling ReadResults again and again, each time from the last id it answered, gives the results
      of a fixed log under increasing ids, so each once and in order; and it gives all of them
      exactly when no `count` consecutive malformed messages precede a result. */
  lemma {:induction false} AnswersAreComplete(entries: seq<Option<JobResult>>, count: int)
    ensures forall k: nat :: Answers(entries, 0, Gathered(entries, count, k))
    ensures (exists k: nat :: SameResults(Gathered(entries, count, k), Stored(entries)))
            <==> forall p: nat :: !StallsAt(entries, count, p)
    ensures (forall p: nat :: !StallsAt(entries, count, p)) ==>
              forall k: nat :: |entries| <= k ==> SameResults(Gathered(entries, count, k), Stored(entries))
  {
    PagingIsComplete(entries, count);
    hide Collected, Gathered, ParsedUpTo, StallsAt, SameResults, Stored;
    forall k: nat
      ensures SameResults(Gathered(entries, count, k), Stored(entries))
              <==> Collected(entries, count, k) == ParsedUpTo(entries, |entries|)
      ensures Answers(entries, 0, Gathered(entries, count, k))
    {
      GatheredAll(entries, count, k);
      GatheredAnswers(entries, count, k);
    }
    if forall p: nat :: !StallsAt(entries, count, p) {
      var n: nat := |entries|;
      assert Collected(entries, count, n) == ParsedUpTo(entries, |entries|);
      assert exists k: nat :: SameResults(Gathered(entries, count, k), Stored(entries));
    } else {
      assert forall k: nat :: Collected(entries, count, k) != ParsedUpTo(entries, |entries|);
    }
  }

  lemma GatheredAnswers(entries: seq<Option<JobResult>>, count: int, k: nat)
    ensures Answers(entries, 0, Gathered(entries, count, k))
  {
    GatheredIsCollected(entries, count, k);
    PagingInvariant(entries, count, k);
    hide Collected, Gathered, Answers;
    ResultsAnswer(entries, 0, 0, LastAfter(entries, count, k));
  }
}
