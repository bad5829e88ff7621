/**
  Any number of workers against one job table: they claim, report, crash, and time passes.
  Beside each row its history is kept, so that what a run did can be compared with what the row says.
 */
module QueueRuns {
  import opened Wrappers
  import opened JobQueue

  /** A claim that some worker has been given and has not reported on yet. */
  datatype Hold = Hold(worker: Worker, job: Job, lease: Instant)

  /** A row, the claims on it still open, and what has become of the others. */
  datatype Life = Life(row: JobRow, holds: set<Hold>, claims: nat, retried: set<int>, retries: nat, lost: nat)

  datatype System = System(lives: seq<Life>, now: Instant)

  datatype Step =
    | Enqueue(request: JobRequest)
    | Claim(worker: Worker, ids: set<JobId>, leaseSeconds: nat)
    | Complete(hold: Hold)
    | Fail(hold: Hold, error: string, permanent: bool)
    | Abandon(hold: Hold)  // the worker died, or its loop threw before it could report
    | Release
    | Tick(to: Instant)

  function Rows(s: System): seq<JobRow> {
    seq(|s.lives|, i requires 0 <= i < |s.lives| => s.lives[i].row)
  }

  ghost predicate Holding(s: System, hold: Hold) {
    hold.job.id < |s.lives| && hold in s.lives[hold.job.id].holds
  }

  ghost predicate Enabled(s: System, step: Step) {
    match step
    case Enqueue(_) => true
    case Claim(_, ids, _) => ids <= Eligible(Rows(s), s.now, {})
    case Complete(hold) => Holding(s, hold)
    case Fail(hold, _, _) => Holding(s, hold)
    case Abandon(hold) => Holding(s, hold)
    case Release => true
    case Tick(to) => s.now <= to
  }

  function ClaimLife(l: Life, id: JobId, worker: Worker, now: Instant, lease: Instant): Life {
    var row := l.row.Claim(worker, now, lease);
    l.(row := row, holds := l.holds + {Hold(worker, row.Handed(id), lease)}, claims := l.claims + 1)
  }

  /** Refused once the row has failed: then the worker still has the job in hand, and reports a failure next. */
  function CompleteLife(l: Life, hold: Hold, now: Instant): Life {
    if l.row.failedAt.Some? then l
    else l.(row := l.row.Complete(now), holds := l.holds - {hold})
  }

  /** Refused when a spent job has been completed by somebody else: the call throws and the worker lets go. */
  function FailLife(l: Life, hold: Hold, error: string, permanent: bool, now: Instant): Life {
    var rest := l.(holds := l.holds - {hold});
    if Exhausted(hold.job, permanent) then
      if l.row.completedAt.Some? then rest.(lost := l.lost + 1) else rest.(row := l.row.Fail(error, now))
    else
      rest.(row := l.row.Retry(error, RetryAt(hold.job, now)),
            retried := l.retried + {hold.job.attempts}, retries := l.retries + 1)
  }

  function Next(s: System, step: Step): System
    requires Enabled(s, step)
  {
    match step
    case Enqueue(request) =>
      if EnqueueOutcomeOf(Rows(s), request, s.now).Inserted? then
        s.(lives := s.lives + [Life(NewRow(request, s.now), {}, 0, {}, 0, 0)])
      else s
    case Claim(worker, ids, leaseSeconds) =>
      s.(lives := seq(|s.lives|, i requires 0 <= i < |s.lives| =>
        if i in ids then ClaimLife(s.lives[i], i, worker, s.now, s.now + leaseSeconds * 1000) else s.lives[i]))
    case Complete(hold) =>
      s.(lives := s.lives[hold.job.id := CompleteLife(s.lives[hold.job.id], hold, s.now)])
    case Fail(hold, error, permanent) =>
      s.(lives := s.lives[hold.job.id := FailLife(s.lives[hold.job.id], hold, error, permanent, s.now)])
    case Abandon(hold) =>
      var l := s.lives[hold.job.id];
      s.(lives := s.lives[hold.job.id := l.(holds := l.holds - {hold}, lost := l.lost + 1)])
    case Release =>
      s.(lives := seq(|s.lives|, i requires 0 <= i < |s.lives| => s.lives[i].(row := s.lives[i].row.Release(s.now))))
    case Tick(to) => s.(now := to)
  }

  /** The queue's statement of that name, run against the table. */
  function AfterStatement(rows: seq<JobRow>, step: Step, now: Instant): seq<JobRow> {
    match step
    case Enqueue(request) => AfterEnqueue(rows, request, now)
    case Claim(worker, ids, leaseSeconds) => MarkClaimed(rows, ids, worker, now, now + leaseSeconds * 1000)
    case Complete(hold) => AfterComplete(rows, hold.job.id, now)
    case Fail(hold, error, permanent) => AfterFail(rows, hold.job, error, permanent, now)
    case Abandon(_) => rows
    case Release => AfterRelease(rows, now)
    case Tick(_) => rows
  }

  /** A step does to the table what the statement does. */
  lemma StepIsStatement(s: System, step: Step)
    requires Enabled(s, step)
    ensures Rows(Next(s, step)) == AfterStatement(Rows(s), step, s.now)
  {}

  ghost predicate Legal(s: System, steps: seq<Step>)
    decreases |steps|
  {
    steps != [] ==> Enabled(s, steps[0]) && Legal(Next(s, steps[0]), steps[1..])
  }

  ghost function Run(s: System, steps: seq<Step>): System
    requires Legal(s, steps)
    decreases |steps|
  {
    if steps == [] then s else Run(Next(s, steps[0]), steps[1..])
  }

  function Empty(now: Instant): System {
    System([], now)
  }

  // ----- What every run keeps, whatever the workers and the clock do -----

  ghost predicate LifeHolds(l: Life, id: JobId) {
    && l.row.attempts == l.claims
    && (!l.row.Live() ==> l.row.Unclaimed())
    && (forall h :: h in l.holds ==>
          && h.job.id == id && h.job.maxAttempts == l.row.maxAttempts
          && 1 <= h.job.attempts <= l.row.attempts && h.job.attempts !in l.retried)
    && (forall g, h :: g in l.holds && h in l.holds && g.job.attempts == h.job.attempts ==> g == h)
    && (forall a :: a in l.retried ==> 1 <= a < l.row.maxAttempts && a <= l.row.attempts)
    && |l.retried| == l.retries
  }

  ghost predicate Sound(s: System) {
    && TableHolds(Rows(s))
    && forall i :: 0 <= i < |s.lives| ==> LifeHolds(s.lives[i], i)
  }

  lemma ClaimKeepsLife(l: Life, id: JobId, worker: Worker, now: Instant, lease: Instant)
    requires LifeHolds(l, id) && l.row.ChecksHold() && l.row.Runnable(now)
    ensures LifeHolds(ClaimLife(l, id, worker, now, lease), id)
    ensures ClaimLife(l, id, worker, now, lease).row.ChecksHold()
  {}

  lemma CompleteKeepsLife(l: Life, hold: Hold, now: Instant)
    requires LifeHolds(l, hold.job.id) && l.row.ChecksHold() && hold in l.holds
    ensures LifeHolds(CompleteLife(l, hold, now), hold.job.id)
  {}

  lemma FailKeepsLife(l: Life, hold: Hold, error: string, permanent: bool, now: Instant)
    requires LifeHolds(l, hold.job.id) && l.row.ChecksHold() && hold in l.holds
    ensures LifeHolds(FailLife(l, hold, error, permanent, now), hold.job.id)
  {}

  lemma ClaimKeepsTable(rows: seq<JobRow>, worker: Worker, ids: set<JobId>, now: Instant, lease: Instant)
    requires TableHolds(rows) && ids <= Eligible(rows, now, {})
    ensures TableHolds(MarkClaimed(rows, ids, worker, now, lease))
  {
    SubsetTableHolds(rows, MarkClaimed(rows, ids, worker, now, lease));
  }

  lemma CompleteKeepsTable(rows: seq<JobRow>, id: JobId, now: Instant)
    requires TableHolds(rows)
    ensures TableHolds(AfterComplete(rows, id, now))
  {
    SubsetTableHolds(rows, AfterComplete(rows, id, now));
  }

  lemma FailKeepsTable(rows: seq<JobRow>, job: Job, error: string, permanent: bool, now: Instant)
    requires TableHolds(rows)
    ensures TableHolds(AfterFail(rows, job, error, permanent, now))
  {
    SubsetTableHolds(rows, AfterFail(rows, job, error, permanent, now));
  }

  lemma EnqueueKeepsTable(rows: seq<JobRow>, request: JobRequest, now: Instant)
    requires TableHolds(rows)
    ensures TableHolds(AfterEnqueue(rows, request, now))
  {}

  lemma StatementKeepsTable(rows: seq<JobRow>, step: Step, now: Instant)
    requires TableHolds(rows) && (step.Claim? ==> step.ids <= Eligible(rows, now, {}))
    ensures TableHolds(AfterStatement(rows, step, now))
  {
    match step
    case Enqueue(request) => EnqueueKeepsTable(rows, request, now);
    case Claim(worker, ids, leaseSeconds) => ClaimKeepsTable(rows, worker, ids, now, now + leaseSeconds * 1000);
    case Complete(hold) => CompleteKeepsTable(rows, hold.job.id, now);
    case Fail(hold, error, permanent) => FailKeepsTable(rows, hold.job, error, permanent, now);
    case Release => SubsetTableHolds(rows, AfterRelease(rows, now));
    case _ =>
  }

  /** What became of one job. */
  lemma LifeAfter(s: System, step: Step, i: JobId)
    requires Enabled(s, step) && i < |s.lives|
    ensures i < |Next(s, step).lives|
    ensures var l := s.lives[i];
            Next(s, step).lives[i] ==
              match step
              case Enqueue(_) => l
              case Claim(worker, ids, leaseSeconds) => if i in ids then ClaimLife(l, i, worker, s.now, s.now + leaseSeconds * 1000) else l
              case Complete(hold) => if i == hold.job.id then CompleteLife(l, hold, s.now) else l
              case Fail(hold, error, permanent) => if i == hold.job.id then FailLife(l, hold, error, permanent, s.now) else l
              case Abandon(hold) => if i == hold.job.id then l.(holds := l.holds - {hold}, lost := l.lost + 1) else l
              case Release => l.(row := l.row.Release(s.now))
              case Tick(_) => l
  {}

  lemma OtherStepsKeepLife(l: Life, id: JobId, hold: Hold, now: Instant)
    requires LifeHolds(l, id)
    ensures LifeHolds(l.(holds := l.holds - {hold}, lost := l.lost + 1), id) && LifeHolds(l.(row := l.row.Release(now)), id)
  {}

  lemma StepKeepsLife(s: System, step: Step, i: JobId)
    requires Sound(s) && Enabled(s, step) && i < |s.lives|
    ensures i < |Next(s, step).lives| && LifeHolds(Next(s, step).lives[i], i)
  {
    var l := s.lives[i];
    assert Rows(s)[i] == l.row && LifeHolds(l, i);
    LifeAfter(s, step, i);
    match step
    case Claim(worker, ids, leaseSeconds) =>
      if i in ids { ClaimKeepsLife(l, i, worker, s.now, s.now + leaseSeconds * 1000); }
    case Complete(hold) => if i == hold.job.id { CompleteKeepsLife(l, hold, s.now); }
    case Fail(hold, error, permanent) => if i == hold.job.id { FailKeepsLife(l, hold, error, permanent, s.now); }
    case Abandon(hold) => OtherStepsKeepLife(l, i, hold, s.now);
    case Release => OtherStepsKeepLife(l, i, Hold("", l.row.Handed(i), 0), s.now);
    case _ =>
  }

  lemma StepKeepsSound(s: System, step: Step)
    requires Sound(s) && Enabled(s, step)
    ensures Sound(Next(s, step))
  {
    StepIsStatement(s, step);
    StatementKeepsTable(Rows(s), step, s.now);
    var t := Next(s, step);
    forall i | 0 <= i < |t.lives| ensures LifeHolds(t.lives[i], i) {
      if i < |s.lives| { StepKeepsLife(s, step, i); }
    }
  }

  lemma {:induction false} RunKeepsSound(s: System, steps: seq<Step>)
    requires Sound(s) && Legal(s, steps)
    ensures Sound(Run(s, steps))
    decreases |steps|
  {
    if steps != [] {
      StepKeepsSound(s, steps[0]);
      RunKeepsSound(Next(s, steps[0]), steps[1..]);
    }
  }

  lemma {:induction false} BelowCount(a: set<int>, max: nat)
    requires max > 0 && forall x :: x in a ==> 1 <= x < max
    ensures |a| <= max - 1
  {
    if max == 1 {
      assert forall x :: x !in a;
      assert a == {};
    } else {
      BelowCount(a - {max - 1}, max - 1);
    }
  }

  /**
    However the run went: either all three claim columns are set or none is, a job never has
    both outcomes, `attempts` is the number of times it was claimed, and fewer reports than
    `maxAttempts` ended in another try.
   */
  lemma {:induction false} EveryRunIsSound(start: Instant, steps: seq<Step>, i: JobId)
    requires Legal(Empty(start), steps) && i < |Run(Empty(start), steps).lives|
    ensures var l := Run(Empty(start), steps).lives[i];
            && (l.row.Unclaimed() || (l.row.Claimed() && l.row.Live()))
            && !(l.row.completedAt.Some? && l.row.failedAt.Some?)
            && l.row.attempts == l.claims
            && l.retries <= l.row.maxAttempts - 1
  {
    RunKeepsSound(Empty(start), steps);
    var s := Run(Empty(start), steps);
    assert Rows(s)[i] == s.lives[i].row;
    BelowCount(s.lives[i].retried, s.lives[i].row.maxAttempts);
  }

  ghost predicate StaysFinished(before: Life, after: Life) {
    && (after.row.completedAt.Some? <==> before.row.completedAt.Some?)
    && after.row.failedAt.Some? == before.row.failedAt.Some?
    && after.claims == before.claims && after.row.attempts == before.row.attempts
    && after.holds <= before.holds
  }

  lemma StepLeavesFinished(s: System, step: Step, i: JobId)
    requires Sound(s) && Enabled(s, step) && i < |s.lives| && !s.lives[i].row.Live()
    ensures i < |Next(s, step).lives| && StaysFinished(s.lives[i], Next(s, step).lives[i])
  {
    assert Rows(s)[i] == s.lives[i].row;
  }

  /** A finished job stays finished the same way, and nobody is handed it again. */
  lemma {:induction false} FinishedStaysFinished(s: System, steps: seq<Step>, i: JobId)
    requires Sound(s) && Legal(s, steps) && i < |s.lives| && !s.lives[i].row.Live()
    ensures i < |Run(s, steps).lives| && StaysFinished(s.lives[i], Run(s, steps).lives[i])
    decreases |steps|
  {
    if steps != [] {
      StepKeepsSound(s, steps[0]);
      StepLeavesFinished(s, steps[0], i);
      FinishedStaysFinished(Next(s, steps[0]), steps[1..], i);
    }
  }
}
