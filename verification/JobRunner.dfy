/**
  The loop that claims a few jobs, runs them and records what happened. What a handler does is a
  parameter: it returns, fails, or fails in a way that trying again will not mend.
 */
module JobRunner {
  import opened Wrappers
  import opened JobQueue

  datatype Behaviour = Returns | Throws(message: string) | ThrowsPermanent(message: string)

  /**
    What the world does while a batch runs: how each handler behaves, when its job is reported on, what the
    other workers have made of the table by then, and the words in which the database refuses a completion.
   */
  datatype World = World(
    behaviour: Job -> Behaviour, reportedAt: Job -> Instant, others: (Job, seq<JobRow>) -> seq<JobRow>, refusal: string)

  /** The others go through the same table, with its checks. */
  ghost predicate Orderly(world: World) {
    forall job, rows :: TableHolds(rows) ==> TableHolds(world.others(job, rows))
  }

  function NoHandler(name: string): string {
    "No handler registered for \"" + name + "\""
  }

  function Failing(rows: seq<JobRow>, job: Job, error: string, permanent: bool, at: Instant): (seq<JobRow>, bool) {
    (AfterFail(rows, job, error, permanent, at), FailAllowed(rows, job, permanent))
  }

  /** The table after one job, and whether its report went in; one that does not throws, out of the batch. */
  function Report(rows: seq<JobRow>, job: Job, handlers: set<string>, world: World): (seq<JobRow>, bool) {
    var found, at := world.others(job, rows), world.reportedAt(job);
    if job.name !in handlers then Failing(found, job, NoHandler(job.name), true, at)
    else match world.behaviour(job)
      case Returns =>
        if CompleteAllowed(found, job.id) then (AfterComplete(found, job.id, at), true)
        else Failing(found, job, world.refusal, false, at)
      case Throws(message) => Failing(found, job, message, false, at)
      case ThrowsPermanent(message) => Failing(found, job, message, true, at)
  }

  /** The table after a batch, and how many of its jobs were reported on. */
  function Batch(rows: seq<JobRow>, jobs: seq<Job>, handlers: set<string>, world: World): (seq<JobRow>, nat)
    decreases |jobs|
  {
    if jobs == [] then (rows, 0)
    else
      var (after, reported) := Report(rows, jobs[0], handlers, world);
      if !reported then (after, 0)
      else
        var (end, more) := Batch(after, jobs[1..], handlers, world);
        (end, more + 1)
  }

  /** Each job as its row has it. */
  ghost predicate HandedFrom(rows: seq<JobRow>, jobs: seq<Job>) {
    forall k :: 0 <= k < |jobs| ==> jobs[k].id < |rows| && jobs[k] == rows[jobs[k].id].Handed(jobs[k].id)
  }

  lemma {:induction false} BatchFrom(rows: seq<JobRow>, jobs: seq<Job>, k: nat, handlers: set<string>, world: World)
    requires k < |jobs|
    ensures var (after, reported) := Report(rows, jobs[k], handlers, world);
            Batch(rows, jobs[k..], handlers, world) ==
              if !reported then (after, 0)
              else (Batch(after, jobs[k + 1..], handlers, world).0, Batch(after, jobs[k + 1..], handlers, world).1 + 1)
  {
    assert jobs[k..][0] == jobs[k] && jobs[k..][1..] == jobs[k + 1..];
  }

  lemma {:induction false} NoneLeft(rows: seq<JobRow>, jobs: seq<Job>, handlers: set<string>, world: World)
    ensures Batch(rows, jobs[|jobs|..], handlers, world) == (rows, 0)
  {
    assert jobs[|jobs|..] == [];
  }

  class JobRunner {
    const queue: PostgresJobQueue
    var handlers: set<string>

    constructor (queue: PostgresJobQueue)
      ensures this.queue == queue && handlers == {}
    {
      this.queue := queue;
      handlers := {};
    }

    method Register(name: string)
      modifies this
      ensures handlers == old(handlers) + {name}
    {
      handlers := handlers + {name};
    }

    method RunOne(job: Job, world: World) returns (reported: bool)
      requires queue.Valid() && Orderly(world)
      modifies queue
      ensures queue.Valid()
      ensures (queue.jobs, reported) == Report(old(queue.jobs), job, handlers, world)
    {
      queue.jobs := world.others(job, queue.jobs);
      var at, outcome := world.reportedAt(job), FailOutcome.Retrying;
      if job.name !in handlers {
        outcome := queue.Fail(job, NoHandler(job.name), true, at);
        return outcome != FailRefused;
      }
      match world.behaviour(job) {
        case Returns =>
          var done := queue.Complete(job.id, at);
          if !done {
            outcome := queue.Fail(job, world.refusal, false, at);
          }
        case Throws(message) =>
          outcome := queue.Fail(job, message, false, at);
        case ThrowsPermanent(message) =>
          outcome := queue.Fail(job, message, true, at);
      }
      return outcome != FailRefused;
    }

    /**
      One batch, claimed past the rows that other workers have locked: nothing is returned when a report threw,
      and the rest of the batch is left as it is.
     */
    method RunOnce(worker: Worker, batchSize: nat, leaseSeconds: int, now: Instant, locked: set<JobId>, world: World)
      returns (attempted: Option<nat>, ghost claimed: seq<Job>)
      requires queue.Valid() && Orderly(world)
      modifies queue
      ensures queue.Valid()
      ensures BestOf(IdsOf(claimed), old(queue.jobs), batchSize, now, locked) && |claimed| == |IdsOf(claimed)|
      ensures var marked := MarkClaimed(old(queue.jobs), IdsOf(claimed), worker, now, now + leaseSeconds * 1000);
              var (end, reported) := Batch(marked, claimed, handlers, world);
              HandedFrom(marked, claimed) && queue.jobs == end && attempted == if reported == |claimed| then Some(reported) else None
    {
      var jobs := queue.Claim(worker, batchSize, leaseSeconds, now, locked);
      claimed := jobs;
      var reported := RunBatch(jobs, world);
      attempted := if reported == |jobs| then Some(reported) else None;
    }

    method RunBatch(jobs: seq<Job>, world: World) returns (count: nat)
      requires queue.Valid() && Orderly(world)
      modifies queue
      ensures queue.Valid()
      ensures (queue.jobs, count) == Batch(old(queue.jobs), jobs, handlers, world)
    {
      count := 0;
      ghost var whole := Batch(queue.jobs, jobs, handlers, world);
      assert jobs[0..] == jobs;
      while count < |jobs|
        invariant count <= |jobs| && queue.Valid()
        invariant whole.0 == Batch(queue.jobs, jobs[count..], handlers, world).0
        invariant whole.1 == Batch(queue.jobs, jobs[count..], handlers, world).1 + count
      {
        BatchFrom(queue.jobs, jobs, count, handlers, world);
        var reported := RunOne(jobs[count], world);
        if !reported {
          return;
        }
        count := count + 1;
      }
      NoneLeft(queue.jobs, jobs, handlers, world);
    }
  }

  /**
    A report throws exactly when the job is completed already, by somebody else, and this is its last
    failure; a completion that is refused is reported as a failure, and that goes in.
   */
  lemma ThrowsIffCompletedMeanwhile(rows: seq<JobRow>, job: Job, handlers: set<string>, world: World)
    requires TableHolds(rows) && Orderly(world)
    ensures var found := world.others(job, rows);
            var lastFailure := job.name !in handlers || world.behaviour(job).ThrowsPermanent?
                               || (world.behaviour(job).Throws? && job.attempts >= job.maxAttempts);
            Report(rows, job, handlers, world).1 <==>
              !(lastFailure && job.id < |found| && found[job.id].completedAt.Some?)
  {}

  /** Reports up to the first that throws go in; after it nothing more is reported on. */
  lemma {:induction false} StopsAtFirstThrow(rows: seq<JobRow>, jobs: seq<Job>, handlers: set<string>, world: World)
    ensures var (end, n) := Batch(rows, jobs, handlers, world);
            && n <= |jobs| && Batch(rows, jobs[..n], handlers, world).1 == n
            && (n == |jobs| ==> end == Batch(rows, jobs[..n], handlers, world).0)
            && (n < |jobs| ==> Report(Batch(rows, jobs[..n], handlers, world).0, jobs[n], handlers, world) == (end, false))
    decreases |jobs|
  {
    if jobs != [] {
      var (after, reported) := Report(rows, jobs[0], handlers, world);
      if reported {
        StopsAtFirstThrow(after, jobs[1..], handlers, world);
        var n := Batch(rows, jobs, handlers, world).1;
        assert jobs[..n][1..] == jobs[1..][..n - 1];
      } else {
        assert jobs[..0] == [];
      }
    }
  }

  // ----- A batch nobody comes between -----

  /** The row of a job that was just claimed, after it has been run. */
  function Settled(row: JobRow, id: JobId, handlers: set<string>, world: World): JobRow {
    var job, at := row.Handed(id), world.reportedAt(row.Handed(id));
    if row.name !in handlers then row.Fail(NoHandler(row.name), at)
    else match world.behaviour(job)
      case Returns => row.Complete(at)
      case Throws(message) =>
        if row.attempts >= row.maxAttempts then row.Fail(message, at) else row.Retry(message, RetryAt(job, at))
      case ThrowsPermanent(message) => row.Fail(message, at)
  }

  ghost predicate JustClaimed(rows: seq<JobRow>, jobs: seq<Job>) {
    && HandedFrom(rows, jobs)
    && (forall k :: 0 <= k < |jobs| ==> rows[jobs[k].id].Live())
    && (forall k, m :: 0 <= k < m < |jobs| ==> jobs[k].id != jobs[m].id)
  }

  lemma OneReport(rows: seq<JobRow>, job: Job, handlers: set<string>, world: World)
    requires job.id < |rows| && rows[job.id].Live() && job == rows[job.id].Handed(job.id) && world.others(job, rows) == rows
    ensures Report(rows, job, handlers, world) == (rows[job.id := Settled(rows[job.id], job.id, handlers, world)], true)
  {}

  /**
    With no other worker at the table, every job of a batch is reported on as its own handler decides,
    whatever the others in the batch did, and no other row moves.
   */
  lemma {:induction false} UndisturbedBatch(rows: seq<JobRow>, jobs: seq<Job>, handlers: set<string>, world: World)
    requires JustClaimed(rows, jobs) && forall job, seen :: world.others(job, seen) == seen
    ensures var (end, n) := Batch(rows, jobs, handlers, world);
            && n == |jobs| && |end| == |rows|
            && forall i :: 0 <= i < |rows| ==>
                 end[i] == if i in IdsOf(jobs) then Settled(rows[i], i, handlers, world) else rows[i]
    decreases |jobs|
  {
    if jobs != [] {
      var job, rest := jobs[0], jobs[1..];
      OneReport(rows, job, handlers, world);
      var after := rows[job.id := Settled(rows[job.id], job.id, handlers, world)];
      forall k | 0 <= k < |rest| ensures rest[k] == jobs[k + 1] && rest[k].id != job.id {}
      UndisturbedBatch(after, rest, handlers, world);
      assert IdsOf(jobs) == {job.id} + IdsOf(rest) by {
        assert jobs[0] == job;
        forall k | 0 <= k < |rest| ensures jobs[k + 1] == rest[k] {}
      }
    }
  }

  lemma ClaimedBatch(rows: seq<JobRow>, jobs: seq<Job>, locked: set<JobId>, worker: Worker, now: Instant, lease: Instant)
    requires IdsOf(jobs) <= Eligible(rows, now, locked) && |jobs| == |IdsOf(jobs)|
    requires HandedFrom(MarkClaimed(rows, IdsOf(jobs), worker, now, lease), jobs)
    ensures JustClaimed(MarkClaimed(rows, IdsOf(jobs), worker, now, lease), jobs)
  {
    DistinctIds(jobs);
    forall k | 0 <= k < |jobs| ensures rows[jobs[k].id].Live() {
      assert jobs[k].id in IdsOf(jobs);
    }
    forall k, m | 0 <= k < m < |jobs| ensures jobs[k].id != jobs[m].id {
      assert jobs[..m][k] == jobs[k];
    }
  }

  /** So what `RunOnce` claims and runs undisturbed ends as its handlers decide, and nothing else in the table changes. */
  lemma {:induction false} UndisturbedRun(rows: seq<JobRow>, claimed: seq<Job>, worker: Worker, batchSize: nat, now: Instant,
                                          lease: Instant, locked: set<JobId>, handlers: set<string>, world: World)
    requires BestOf(IdsOf(claimed), rows, batchSize, now, locked) && |claimed| == |IdsOf(claimed)|
    requires HandedFrom(MarkClaimed(rows, IdsOf(claimed), worker, now, lease), claimed)
    requires forall job, seen :: world.others(job, seen) == seen
    ensures var ids := IdsOf(claimed);
            var (end, n) := Batch(MarkClaimed(rows, ids, worker, now, lease), claimed, handlers, world);
            && n == |claimed| && |end| == |rows|
            && forall i :: 0 <= i < |rows| ==>
                 end[i] == if i in ids then Settled(rows[i].Claim(worker, now, lease), i, handlers, world) else rows[i]
  {
    ClaimedBatch(rows, claimed, locked, worker, now, lease);
    UndisturbedBatch(MarkClaimed(rows, IdsOf(claimed), worker, now, lease), claimed, handlers, world);
  }

  /** As many ids as jobs: no job was handed over twice. */
  lemma {:induction false} DistinctIds(jobs: seq<Job>)
    requires |IdsOf(jobs)| == |jobs|
    ensures forall k :: 0 <= k < |jobs| ==> jobs[k].id !in IdsOf(jobs[..k])
  {
    if jobs != [] {
      var init, last := jobs[..|jobs| - 1], jobs[|jobs| - 1];
      assert jobs == init + [last];
      IdsOfAppended(init, last);
      AtMostAsMany(init);
      DistinctIds(init);
      forall k | 0 <= k < |jobs| ensures jobs[k].id !in IdsOf(jobs[..k]) {
        if k < |init| { assert jobs[..k] == init[..k] && jobs[k] == init[k]; } else { assert jobs[..k] == init; }
      }
    }
  }

  lemma {:induction false} AtMostAsMany(jobs: seq<Job>)
    ensures |IdsOf(jobs)| <= |jobs|
  {
    if jobs != [] {
      assert jobs == jobs[..|jobs| - 1] + [jobs[|jobs| - 1]];
      IdsOfAppended(jobs[..|jobs| - 1], jobs[|jobs| - 1]);
      AtMostAsMany(jobs[..|jobs| - 1]);
    }
  }

  /** How a job ends: done if its handler returned; failed for good if it had none, said so, or was at its last try; else to be tried again. */
  lemma SettledIs(row: JobRow, id: JobId, handlers: set<string>, world: World)
    requires row.Live()
    ensures var job, after := row.Handed(id), Settled(row, id, handlers, world);
            var known, what, at := row.name in handlers, world.behaviour(job), world.reportedAt(job);
            && (after.completedAt.Some? <==> known && what.Returns?)
            && (after.failedAt.Some? <==> !known || what.ThrowsPermanent? || (what.Throws? && row.attempts >= row.maxAttempts))
            && (after.completedAt.Some? ==> after.completedAt == Some(at)) && (after.failedAt.Some? ==> after.failedAt == Some(at))
            && (!known ==> after.lastError == Some(FirstChars("No handler registered for \"" + row.name + "\"", 2000)))
            && (known && what.Throws? ==> after.lastError == Some(FirstChars(what.message, 2000)))
            && (known && what.ThrowsPermanent? ==> after.lastError == Some(FirstChars(what.message, 2000)))
            && after.claimedAt.None? && after.claimedBy.None? && after.leaseUntil.None? && after.attempts == row.attempts
            && (after.Live() ==> after.runAt == RetryAt(job, at))
  {}

  /** What is reported, whatever the others have made of the row: a completion that the table refuses is a failure, in its words. */
  lemma ReportIs(rows: seq<JobRow>, job: Job, handlers: set<string>, world: World)
    requires job.id < |world.others(job, rows)|
    ensures var found, at := world.others(job, rows), world.reportedAt(job);
            var known, what := job.name in handlers, world.behaviour(job);
            var (after, reported) := Report(rows, job, handlers, world);
            var done := known && what.Returns? && found[job.id].failedAt.None?;
            var error := if !known then "No handler registered for \"" + job.name + "\""
                         else match what case Returns => world.refusal case Throws(m) => m case ThrowsPermanent(m) => m;
            var last := !known || what.ThrowsPermanent? || job.attempts >= job.maxAttempts;
            && |after| == |found| && (forall i :: 0 <= i < |found| && i != job.id ==> after[i] == found[i])
            && (done ==> reported && after[job.id].completedAt == Some(at))
            && (!done && reported ==> after[job.id].lastError == Some(if |error| <= 2000 then error else error[..2000]))
            && (!done && reported && last ==> after[job.id].failedAt == Some(at))
            && (!done && reported && !last ==> after[job.id].failedAt == found[job.id].failedAt)
            && (!reported ==> after == found)
  {}
}
