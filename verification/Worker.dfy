/** The worker: it takes jobs from a stream, runs them, publishes results and acknowledges. */
module Worker {
  import opened Common
  import opened Streams
  import opened Queue

  /** What running a container gave; the container itself is foreign. */
  datatype Execution = Execution(exitCode: int, durationMs: int)

  /** The published result always claims success, and it has no field for an error. */
  function ResultOf(job: Job, execution: Execution): JobResult {
    JobResult(job.invocationId, job.functionId, job.versionId, "SUCCESS",
              execution.exitCode, execution.durationMs, job.retryCount, "", 0)
  }

  /** `readable` says whether the published JSON can be decoded as a result; the number it
      carries as timestamp is not what the reader's time field accepts. */
  datatype Fate = Fate(read: Outcome, execution: Execution, readable: bool, publish: Outcome, ack: Outcome)

  /** The streams after one poll: a job leaves one result, and every message that was read is
      acknowledged, parsed or not. */
  function PollOnce(jobs: Logs<Job>, results: Logs<JobResult>, queueName: string, worker: string, fate: Fate)
    : (Logs<Job>, Logs<JobResult>)
    requires ValidLogs(jobs)
  {
    var log := LogOf(jobs, queueName);
    var read := ReadIn(jobs, queueName, worker, 1, fate.read);
    if !fate.read.Done? || worker !in log.groups then (read, results) else
    var id := log.groups[worker].cursor;
    if id == |log.entries| then (read, results) else
    (AckIn(read, queueName, worker, id, fate.ack),
     if log.entries[id].None? then results else
     AddTo(results, RESULT_STREAM,
           if fate.readable then Some(ResultOf(log.entries[id].value, fate.execution)) else None, fate.publish))
  }

  /** What a poll leaves of the message that it reads: one result, if that could be published, and
      the acknowledgement, whether or not it could. */
  lemma PollLeaves(jobs: Logs<Job>, results: Logs<JobResult>, queueName: string, worker: string, fate: Fate)
    requires ValidLogs(jobs) && fate.read.Done?
    ensures var log := LogOf(jobs, queueName);
            worker in log.groups && log.groups[worker].cursor < |log.entries| ==>
              var (after, published) := PollOnce(jobs, results, queueName, worker, fate);
              var id, stored := log.groups[worker].cursor, LogOf(results, RESULT_STREAM).entries;
              && Acknowledges(log, LogOf(after, queueName), worker, id, fate.ack)
              && if log.entries[id].None? || fate.publish.Failed? then published == results else
                 LogOf(published, RESULT_STREAM).entries == stored + [Reported(log.entries[id].value, fate)]
  {
  }

  ghost predicate Acknowledges(before: Log<Job>, after: Log<Job>, worker: string, id: nat, ack: Outcome)
    requires worker in before.groups
  {
    && after.entries == before.entries && worker in after.groups && after.groups[worker].cursor == id + 1
    && after.groups[worker].pending ==
       if ack.Failed? then before.groups[worker].pending + {id} else before.groups[worker].pending - {id}
  }

  /** The result as it is read from the stream. */
  ghost function Reported(job: Job, fate: Fate): Option<JobResult> {
    if !fate.readable then None else
    Some(JobResult(job.invocationId, job.functionId, job.versionId, "SUCCESS",
                   fate.execution.exitCode, fate.execution.durationMs, job.retryCount, "", 0))
  }

  class Service {
    const jobs: StreamStore<Job>
    const results: StreamStore<JobResult>
    const workerId: string
    const queueName: string

    ghost predicate Valid() reads jobs, results {
      jobs.Valid() && results.Valid() && (jobs as object) != results
    }

    constructor (jobs: StreamStore<Job>, results: StreamStore<JobResult>, workerId: string, queueName: string)
      requires jobs.Valid() && results.Valid() && (jobs as object) != results
      ensures this.jobs == jobs && this.results == results && this.workerId == workerId && this.queueName == queueName
      ensures Valid()
    {
      this.jobs, this.results, this.workerId, this.queueName := jobs, results, workerId, queueName;
    }

    method ProcessNextJob(fate: Fate)
      requires Valid()
      modifies jobs, results
      ensures Valid()
      ensures (jobs.logs, results.logs) == PollOnce(old(jobs.logs), old(results.logs), queueName, workerId, fate)
      ensures var log := LogOf(old(jobs.logs), queueName);
              fate.read.Done? && workerId in log.groups && log.groups[workerId].cursor < |log.entries| ==>
                var id, stored := log.groups[workerId].cursor, LogOf(old(results.logs), RESULT_STREAM).entries;
                && Acknowledges(log, LogOf(jobs.logs, queueName), workerId, id, fate.ack)
                && if log.entries[id].None? || fate.publish.Failed? then results.logs == old(results.logs) else
                   LogOf(results.logs, RESULT_STREAM).entries == stored + [Reported(log.entries[id].value, fate)]
    {
      if fate.read.Done? {
        PollLeaves(jobs.logs, results.logs, queueName, workerId, fate);
      }
      hide Acknowledges, Reported;
      var streams := jobs.XReadGroup(queueName, workerId, 1, fate.read);
      if streams.Failure? {
        return;
      }
      var messages, i := streams.messages, 0;
      ghost var read, published := jobs.logs, results.logs;
      assert |messages| <= 1;
      while i < |messages|
        invariant 0 <= i <= |messages| && Valid()
        invariant i == 0 ==> jobs.logs == read && results.logs == published
        invariant i == 1 ==>
                    && jobs.logs == AckIn(read, queueName, workerId, messages[0].id, fate.ack)
                    && results.logs == if messages[0].body.None? then published else
                         AddTo(published, RESULT_STREAM,
                               if fate.readable then Some(ResultOf(messages[0].body.value, fate.execution)) else None,
                               fate.publish)
      {
        var message := messages[i];
        i := i + 1;
        if message.body.None? {
          var _ := jobs.XAck(queueName, workerId, message.id, fate.ack);
          continue;
        }
        var result := ResultOf(message.body.value, fate.execution);
        var _ := results.XAdd(RESULT_STREAM, if fate.readable then Some(result) else None, fate.publish);
        var _ := jobs.XAck(queueName, workerId, message.id, fate.ack);
      }
    }
  }
}
