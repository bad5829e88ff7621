/**
  The job table and the statements that run against it. One method of `PostgresJobQueue` is one
  SQL statement, so it is atomic; a row is identified by its place in the table.
 */
module JobQueue {
  import opened Wrappers
  import Listing

  /** Milliseconds. */
  type Instant = int
  type JobId = nat
  type Worker = string

  /** Identifies a job that may not be live twice: its kind, and the numbers of what it is about. */
  datatype NaturalKey = NaturalKey(kind: string, parts: seq<int>)

  datatype JobRequest = JobRequest(
    name: string, payload: map<string, string>, runAt: Option<Instant>, priority: Option<int>,
    maxAttempts: Option<int>, uniqueKey: Option<NaturalKey>)

  /** A job as it is handed to a worker. */
  datatype Job = Job(id: JobId, name: string, payload: map<string, string>, attempts: int, maxAttempts: int, runAt: Instant)

  datatype JobRow = JobRow(
    name: string, payload: map<string, string>, runAt: Instant, priority: int, attempts: int, maxAttempts: int,
    claimedAt: Option<Instant>, claimedBy: Option<Worker>, leaseUntil: Option<Instant>,
    completedAt: Option<Instant>, failedAt: Option<Instant>, lastError: Option<string>,
    uniqueKey: Option<NaturalKey>)
  {
    predicate Live() {
      completedAt.None? && failedAt.None?
    }

    /** A comparison with NULL is not true. */
    predicate Lapsed(now: Instant) {
      leaseUntil.Some? && leaseUntil.value < now
    }

    predicate Pending(now: Instant) {
      Live() && (claimedAt.None? || Lapsed(now))
    }

    predicate Running(now: Instant) {
      Live() && claimedAt.Some? && leaseUntil.Some? && leaseUntil.value >= now
    }

    predicate Runnable(now: Instant) {
      Pending(now) && runAt <= now
    }

    predicate Unclaimed() {
      claimedAt.None? && claimedBy.None? && leaseUntil.None?
    }

    predicate Claimed() {
      claimedAt.Some? && claimedBy.Some? && leaseUntil.Some?
    }

    /** The table's CHECK constraints. */
    predicate ChecksHold() {
      && attempts >= 0 && maxAttempts > 0
      && HasText(name)
      && (Unclaimed() || Claimed())
      && (completedAt.None? || failedAt.None?)
    }

    function Unclaim(): JobRow {
      this.(claimedAt := None, claimedBy := None, leaseUntil := None)
    }

    function Claim(worker: Worker, now: Instant, lease: Instant): JobRow {
      this.(claimedAt := Some(now), claimedBy := Some(worker), leaseUntil := Some(lease), attempts := attempts + 1)
    }

    function Complete(now: Instant): JobRow {
      Unclaim().(completedAt := Some(now))
    }

    function Fail(error: string, now: Instant): JobRow {
      Unclaim().(failedAt := Some(now), lastError := Some(FirstChars(error, 2000)))
    }

    function Retry(error: string, retryAt: Instant): JobRow {
      Unclaim().(runAt := retryAt, lastError := Some(FirstChars(error, 2000)))
    }

    function Release(now: Instant): JobRow {
      if Live() && claimedAt.Some? && Lapsed(now) then Unclaim() else this
    }

    /** ORDER BY priority DESC, run_at. */
    predicate Before(other: JobRow) {
      priority > other.priority || (priority == other.priority && runAt < other.runAt)
    }

    function Handed(id: JobId): Job {
      Job(id, name, payload, attempts, maxAttempts, runAt)
    }
  }

  predicate HasText(name: string) {
    exists i :: 0 <= i < |name| && name[i] != ' '
  }

  function FirstChars(s: string, n: nat): string {
    if |s| <= n then s else s[..n]
  }

  function Or<T>(o: Option<T>, default: T): T {
    if o.Some? then o.value else default
  }

  function PowerOfTwo(n: nat): nat {
    if n == 0 then 1 else 2 * PowerOfTwo(n - 1)
  }

  function BackoffSeconds(attempts: nat): nat {
    var doubled := PowerOfTwo(if attempts < 16 then attempts else 16);
    if doubled < 300 then doubled else 300
  }

  /** The wait doubles up to the eighth attempt and is five minutes from the ninth on; it never shrinks. */
  lemma BackoffIsCapped(attempts: nat)
    ensures attempts <= 8 ==> BackoffSeconds(attempts) == PowerOfTwo(attempts)
    ensures attempts > 8 ==> BackoffSeconds(attempts) == 300
    ensures BackoffSeconds(attempts) <= BackoffSeconds(attempts + 1) <= 300
  {
    PowersGrow(8, if attempts < 16 then attempts else 16);
    PowersGrow(9, if attempts < 16 then attempts else 16);
    PowersGrow(if attempts < 8 then attempts else 8, 8);
    assert PowerOfTwo(8) == 256 && PowerOfTwo(9) == 512 by {
      assert PowerOfTwo(4) == 16;
      assert PowerOfTwo(6) == 64;
    }
    if attempts + 1 <= 8 { PowersGrow(attempts + 1, 8); }
  }

  lemma {:induction false} PowersGrow(m: nat, n: nat)
    ensures m <= n ==> PowerOfTwo(m) <= PowerOfTwo(n)
  {
    if m < n { PowersGrow(m, n - 1); }
  }

  function NewRow(request: JobRequest, now: Instant): JobRow {
    JobRow(request.name, request.payload, Or(request.runAt, now), Or(request.priority, 0),
           0, Or(request.maxAttempts, 5), None, None, None, None, None, None, request.uniqueKey)
  }

  /** Some live row has this key, which the index on keys of live rows forbids twice. */
  predicate KeyTaken(jobs: seq<JobRow>, key: Option<NaturalKey>) {
    key.Some? && exists i :: 0 <= i < |jobs| && jobs[i].Live() && jobs[i].uniqueKey == key
  }

  datatype EnqueueOutcome = Inserted(id: JobId) | AlreadyLive | Refused

  function EnqueueOutcomeOf(jobs: seq<JobRow>, request: JobRequest, now: Instant): EnqueueOutcome {
    if !NewRow(request, now).ChecksHold() then Refused
    else if KeyTaken(jobs, request.uniqueKey) then AlreadyLive
    else Inserted(|jobs|)
  }

  function AfterEnqueue(jobs: seq<JobRow>, request: JobRequest, now: Instant): seq<JobRow> {
    if EnqueueOutcomeOf(jobs, request, now).Inserted? then jobs + [NewRow(request, now)] else jobs
  }

  /** What the table guarantees whatever is run against it. */
  ghost predicate TableHolds(jobs: seq<JobRow>) {
    && (forall i :: 0 <= i < |jobs| ==> jobs[i].ChecksHold())
    && (forall i, j :: 0 <= i < j < |jobs| && jobs[i].Live() && jobs[j].Live() && jobs[i].uniqueKey.Some?
          ==> jobs[i].uniqueKey != jobs[j].uniqueKey)
  }

  function MarkClaimed(jobs: seq<JobRow>, ids: set<JobId>, worker: Worker, now: Instant, lease: Instant): seq<JobRow> {
    seq(|jobs|, i requires 0 <= i < |jobs| => if i in ids then jobs[i].Claim(worker, now, lease) else jobs[i])
  }

  function Eligible(jobs: seq<JobRow>, now: Instant, locked: set<JobId>): set<JobId> {
    set i | 0 <= i < |jobs| && jobs[i].Runnable(now) && i !in locked
  }

  /** As many as the limit allows, and none left behind that ought to have come first. */
  ghost predicate BestOf(ids: set<JobId>, jobs: seq<JobRow>, limit: nat, now: Instant, locked: set<JobId>) {
    var eligible := Eligible(jobs, now, locked);
    && ids <= eligible
    && |ids| == (if limit < |eligible| then limit else |eligible|)
    && (forall i, j :: i in ids && j in eligible && j !in ids ==> !jobs[j].Before(jobs[i]))
  }

  ghost function IdsOf(claimed: seq<Job>): set<JobId> {
    set k | 0 <= k < |claimed| :: claimed[k].id
  }

  predicate Exhausted(job: Job, permanent: bool) {
    permanent || job.attempts >= job.maxAttempts
  }

  function RetryAt(job: Job, now: Instant): Instant {
    now + BackoffSeconds(if job.attempts < 0 then 0 else job.attempts) * 1000
  }

  /** The UPDATE of one row: nothing for an unknown id, and refused when a CHECK would break. */
  predicate CompleteAllowed(jobs: seq<JobRow>, id: JobId) {
    id < |jobs| ==> jobs[id].failedAt.None?
  }

  function AfterComplete(jobs: seq<JobRow>, id: JobId, now: Instant): seq<JobRow> {
    if id < |jobs| && CompleteAllowed(jobs, id) then jobs[id := jobs[id].Complete(now)] else jobs
  }

  predicate FailAllowed(jobs: seq<JobRow>, job: Job, permanent: bool) {
    job.id < |jobs| && Exhausted(job, permanent) ==> jobs[job.id].completedAt.None?
  }

  function AfterFail(jobs: seq<JobRow>, job: Job, error: string, permanent: bool, now: Instant): seq<JobRow> {
    if job.id >= |jobs| || !FailAllowed(jobs, job, permanent) then jobs
    else jobs[job.id := if Exhausted(job, permanent) then jobs[job.id].Fail(error, now)
                        else jobs[job.id].Retry(error, RetryAt(job, now))]
  }

  function AfterRelease(jobs: seq<JobRow>, now: Instant): seq<JobRow> {
    seq(|jobs|, i requires 0 <= i < |jobs| => jobs[i].Release(now))
  }

  function Count(jobs: seq<JobRow>, counted: JobRow -> bool): nat {
    if jobs == [] then 0
    else Count(jobs[..|jobs| - 1], counted) + if counted(jobs[|jobs| - 1]) then 1 else 0
  }

  datatype FailOutcome = Retrying | Failed | FailRefused

  class PostgresJobQueue {
    var jobs: seq<JobRow>

    ghost predicate Valid()
      reads this
    {
      TableHolds(jobs)
    }

    constructor ()
      ensures Valid() && jobs == []
    {
      jobs := [];
    }

    method Enqueue(request: JobRequest, now: Instant) returns (outcome: EnqueueOutcome)
      requires Valid()
      modifies this
      ensures Valid()
      ensures outcome == EnqueueOutcomeOf(old(jobs), request, now)
      ensures jobs == AfterEnqueue(old(jobs), request, now)
    {
      var row := NewRow(request, now);
      if !row.ChecksHold() {
        return Refused;
      }
      if KeyTaken(jobs, request.uniqueKey) {
        return AlreadyLive;
      }
      outcome := Inserted(|jobs|);
      jobs := jobs + [row];
    }

    /** Rows another transaction holds locked are stepped over. */
    method Claim(worker: Worker, limit: nat, leaseSeconds: int, now: Instant, locked: set<JobId>)
      returns (claimed: seq<Job>)
      requires Valid()
      modifies this
      ensures Valid()
      ensures BestOf(IdsOf(claimed), old(jobs), limit, now, locked)
      ensures |claimed| == |IdsOf(claimed)|
      ensures jobs == MarkClaimed(old(jobs), IdsOf(claimed), worker, now, now + leaseSeconds * 1000)
      ensures forall k :: 0 <= k < |claimed| ==>
        claimed[k].id < |jobs| && claimed[k] == jobs[claimed[k].id].Handed(claimed[k].id)
    {
      var chosen := Select(limit, now, locked);
      SubsetTableHolds(jobs, MarkClaimed(jobs, chosen, worker, now, now + leaseSeconds * 1000));
      jobs := MarkClaimed(jobs, chosen, worker, now, now + leaseSeconds * 1000);
      claimed := HandOver(chosen);
    }

    method HandOver(chosen: set<JobId>) returns (claimed: seq<Job>)
      requires forall id :: id in chosen ==> id < |jobs|
      ensures IdsOf(claimed) == chosen && |claimed| == |chosen|
      ensures forall k :: 0 <= k < |claimed| ==>
        claimed[k].id < |jobs| && claimed[k] == jobs[claimed[k].id].Handed(claimed[k].id)
    {
      claimed := [];
      var left := chosen;
      while left != {}
        invariant left <= chosen && IdsOf(claimed) + left == chosen && |claimed| + |left| == |chosen|
        invariant forall k :: 0 <= k < |claimed| ==>
          claimed[k].id < |jobs| && claimed[k] == jobs[claimed[k].id].Handed(claimed[k].id)
        decreases left
      {
        var id :| id in left;
        var job := jobs[id].Handed(id);
        OneMoreHanded(claimed, job, left);
        claimed := claimed + [job];
        left := left - {id};
      }
    }

    method Select(limit: nat, now: Instant, locked: set<JobId>) returns (chosen: set<JobId>)
      ensures BestOf(chosen, jobs, limit, now, locked)
    {
      chosen := {};
      ghost var eligible := Eligible(jobs, now, locked);
      while |chosen| < limit
        invariant chosen <= eligible && |chosen| <= limit
        invariant forall i, j :: i in chosen && j in eligible && j !in chosen ==> !jobs[j].Before(jobs[i])
      {
        var next := First(now, locked, chosen);
        if next.None? {
          assert chosen == eligible;
          return;
        }
        chosen := chosen + {next.value};
      }
      Listing.SmallerSet(chosen, eligible);
    }

    method First(now: Instant, locked: set<JobId>, taken: set<JobId>) returns (best: Option<JobId>)
      ensures best.None? ==> Eligible(jobs, now, locked) <= taken
      ensures best.Some? ==> best.value in Eligible(jobs, now, locked) && best.value !in taken
      ensures best.Some? ==> forall j :: j in Eligible(jobs, now, locked) && j !in taken ==>
        !jobs[j].Before(jobs[best.value])
    {
      best := None;
      for i := 0 to |jobs|
        invariant best.None? ==> forall j :: 0 <= j < i && j in Eligible(jobs, now, locked) ==> j in taken
        invariant best.Some? ==> best.value < i && best.value in Eligible(jobs, now, locked) && best.value !in taken
        invariant best.Some? ==> forall j :: 0 <= j < i && j in Eligible(jobs, now, locked) && j !in taken ==>
          !jobs[j].Before(jobs[best.value])
      {
        if jobs[i].Runnable(now) && i !in locked && i !in taken
          && (best.None? || jobs[i].Before(jobs[best.value])) {
          best := Some(i);
        }
      }
    }

    /** False when the database refuses the update and the call throws. */
    method Complete(id: JobId, now: Instant) returns (done: bool)
      requires Valid()
      modifies this
      ensures Valid()
      ensures done == CompleteAllowed(old(jobs), id)
      ensures jobs == AfterComplete(old(jobs), id, now)
    {
      if id >= |jobs| {
        return true;
      }
      if jobs[id].failedAt.Some? {
        return false;
      }
      jobs := jobs[id := jobs[id].Complete(now)];
      done := true;
    }

    method Fail(job: Job, error: string, permanent: bool, now: Instant) returns (outcome: FailOutcome)
      requires Valid()
      modifies this
      ensures Valid()
      ensures outcome == if !FailAllowed(old(jobs), job, permanent) then FailRefused
                         else if Exhausted(job, permanent) then Failed else Retrying
      ensures jobs == AfterFail(old(jobs), job, error, permanent, now)
    {
      var exhausted := permanent || job.attempts >= job.maxAttempts;
      if exhausted {
        if job.id < |jobs| {
          if jobs[job.id].completedAt.Some? {
            return FailRefused;
          }
          jobs := jobs[job.id := jobs[job.id].Fail(error, now)];
        }
        return Failed;
      }
      if job.id < |jobs| {
        jobs := jobs[job.id := jobs[job.id].Retry(error, RetryAt(job, now))];
      }
      return Retrying;
    }

    method ReleaseExpiredClaims(now: Instant) returns (released: nat)
      requires Valid()
      modifies this
      ensures Valid()
      ensures jobs == AfterRelease(old(jobs), now)
      ensures released == Count(old(jobs), (row: JobRow) => row.Release(now) != row)
    {
      released := CountLapsed(now);
      SubsetTableHolds(jobs, AfterRelease(jobs, now));
      jobs := AfterRelease(jobs, now);
    }

    method CountLapsed(now: Instant) returns (lapsed: nat)
      ensures lapsed == Count(jobs, (row: JobRow) => row.Release(now) != row)
    {
      lapsed := 0;
      for i := 0 to |jobs|
        invariant lapsed == Count(jobs[..i], (row: JobRow) => row.Release(now) != row)
      {
        assert jobs[..i + 1][..i] == jobs[..i];
        if jobs[i].Live() && jobs[i].claimedAt.Some? && jobs[i].Lapsed(now) {
          lapsed := lapsed + 1;
        }
      }
      assert jobs[..|jobs|] == jobs;
    }

    method Counts(now: Instant) returns (pending: nat, running: nat, failed: nat)
      requires Valid()
      ensures pending + running == Count(jobs, (row: JobRow) => row.Live())
      ensures pending == Count(jobs, (row: JobRow) => row.Pending(now))
      ensures running == Count(jobs, (row: JobRow) => row.Running(now))
      ensures failed == Count(jobs, (row: JobRow) => row.failedAt.Some?)
    {
      pending, running, failed := 0, 0, 0;
      for i := 0 to |jobs|
        invariant pending + running == Count(jobs[..i], (row: JobRow) => row.Live())
        invariant pending == Count(jobs[..i], (row: JobRow) => row.Pending(now))
        invariant running == Count(jobs[..i], (row: JobRow) => row.Running(now))
        invariant failed == Count(jobs[..i], (row: JobRow) => row.failedAt.Some?)
      {
        assert jobs[..i + 1][..i] == jobs[..i];
        pending := pending + if jobs[i].Pending(now) then 1 else 0;
        running := running + if jobs[i].Running(now) then 1 else 0;
        failed := failed + if jobs[i].failedAt.Some? then 1 else 0;
      }
      assert jobs[..|jobs|] == jobs;
    }
  }

  /** Changing rows without touching their keys or bringing any back to life keeps the table sound. */
  lemma SubsetTableHolds(jobs: seq<JobRow>, changed: seq<JobRow>)
    requires TableHolds(jobs) && |changed| == |jobs|
    requires forall i :: 0 <= i < |jobs| ==>
      changed[i].ChecksHold() && changed[i].uniqueKey == jobs[i].uniqueKey && (changed[i].Live() ==> jobs[i].Live())
    ensures TableHolds(changed)
  {}

  lemma OneMoreHanded(claimed: seq<Job>, job: Job, left: set<JobId>)
    requires job.id in left
    ensures IdsOf(claimed + [job]) + (left - {job.id}) == IdsOf(claimed) + left && |left - {job.id}| == |left| - 1
  {
    IdsOfAppended(claimed, job);
    assert left == {job.id} + (left - {job.id});
  }

  lemma IdsOfAppended(claimed: seq<Job>, job: Job)
    ensures IdsOf(claimed + [job]) == IdsOf(claimed) + {job.id}
  {
    var all := claimed + [job];
    forall id ensures id in IdsOf(all) <==> id in IdsOf(claimed) + {job.id} {
      if id in IdsOf(claimed) {
        var k :| 0 <= k < |claimed| && claimed[k].id == id;
        assert all[k].id == id;
      }
      if id == job.id {
        assert all[|claimed|].id == id;
      }
    }
  }

  /** Tidying up lapsed claims changes nothing about what can be claimed, then or later. */
  lemma ReleaseKeepsRunnable(jobs: seq<JobRow>, now: Instant, later: Instant, locked: set<JobId>)
    requires now <= later
    ensures Eligible(AfterRelease(jobs, now), later, locked) == Eligible(jobs, later, locked)
  {}
}
