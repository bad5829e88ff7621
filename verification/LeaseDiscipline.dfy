/**
  What the queue promises when a lease outlasts every job, the assumption written beside
  WORKER_LEASE_SECONDS: no claim is still open when its lease has passed.
 */
module LeaseDiscipline {
  import opened Wrappers
  import opened JobQueue
  import opened QueueRuns
  import opened Rounding

  ghost predicate InTime(s: System) {
    forall i, h :: 0 <= i < |s.lives| && h in s.lives[i].holds ==> s.now <= h.lease
  }

  ghost predicate AlwaysInTime(s: System, steps: seq<Step>)
    requires Legal(s, steps)
    decreases |steps|
  {
    InTime(s) && (steps != [] ==> AlwaysInTime(Next(s, steps[0]), steps[1..]))
  }

  /** One holder at most, and the row says who; every try past the last allowed one was paid for by a lost one. */
  ghost predicate Exclusive(l: Life, now: Instant) {
    && (forall g, h :: g in l.holds && h in l.holds ==> g == h)
    && (forall h :: h in l.holds ==>
          && l.row.Live() && l.row.claimedAt.Some? && l.row.claimedBy == Some(h.worker)
          && l.row.leaseUntil == Some(h.lease) && l.row.attempts == h.job.attempts && l.row.runAt <= now)
    && l.row.attempts <= l.row.maxAttempts + l.lost
    && (l.row.Live() && l.holds == {} ==> l.row.attempts < l.row.maxAttempts + l.lost)
  }

  ghost predicate AllExclusive(s: System) {
    forall i :: 0 <= i < |s.lives| ==> Exclusive(s.lives[i], s.now)
  }

  /** A job in hand can be claimed a second time exactly when its lease has run out, and then two workers have it. */
  lemma ReclaimableIffLapsed(s: System, hold: Hold)
    requires Sound(s) && AllExclusive(s) && Holding(s, hold)
    ensures Enabled(s, Claim("another", {hold.job.id}, 1)) <==> hold.lease < s.now
    ensures hold.lease < s.now ==> |Next(s, Claim("another", {hold.job.id}, 1)).lives[hold.job.id].holds| == 2
  {
    var id := hold.job.id;
    LapsedIsEligible(s, hold);
    assert {id} <= Eligible(Rows(s), s.now, {}) <==> id in Eligible(Rows(s), s.now, {});
    if hold.lease < s.now {
      ClaimedLife(s, id);
      SecondHold(s.lives[id], hold, "another", s.now, s.now + 1000);
    }
  }

  lemma LapsedIsEligible(s: System, hold: Hold)
    requires Sound(s) && AllExclusive(s) && Holding(s, hold)
    ensures hold.job.id in Eligible(Rows(s), s.now, {}) <==> hold.lease < s.now
    ensures LifeHolds(s.lives[hold.job.id], hold.job.id) && Exclusive(s.lives[hold.job.id], s.now)
  {
    assert Rows(s)[hold.job.id] == s.lives[hold.job.id].row && Exclusive(s.lives[hold.job.id], s.now);
  }

  lemma ClaimedLife(s: System, id: JobId)
    requires id < |s.lives| && Enabled(s, Claim("another", {id}, 1))
    ensures Next(s, Claim("another", {id}, 1)).lives[id] == ClaimLife(s.lives[id], id, "another", s.now, s.now + 1000)
  {}

  lemma SecondHold(l: Life, hold: Hold, worker: Worker, now: Instant, lease: Instant)
    requires LifeHolds(l, hold.job.id) && Exclusive(l, now) && hold in l.holds
    ensures |ClaimLife(l, hold.job.id, worker, now, lease).holds| == 2
  {
    var second := Hold(worker, l.row.Claim(worker, now, lease).Handed(hold.job.id), lease);
    assert second.job.attempts == hold.job.attempts + 1;
    assert l.holds == {hold};
  }

  lemma ClaimKeepsExclusive(s: System, step: Step, i: nat)
    requires Sound(s) && AllExclusive(s) && InTime(s) && Enabled(s, step) && step.Claim? && i < |s.lives|
    ensures Exclusive(Next(s, step).lives[i], Next(s, step).now)
  {
    assert Rows(s)[i] == s.lives[i].row && Exclusive(s.lives[i], s.now) && LifeHolds(s.lives[i], i);
    if i in step.ids {
      assert s.lives[i].holds == {};
    }
  }

  lemma ReportKeepsExclusive(s: System, step: Step, i: nat)
    requires Sound(s) && AllExclusive(s) && InTime(s) && Enabled(s, step) && i < |s.lives|
    requires step.Complete? || step.Fail? || step.Abandon?
    ensures Exclusive(Next(s, step).lives[i], Next(s, step).now)
  {
    assert Exclusive(s.lives[i], s.now) && LifeHolds(s.lives[i], i);
    if i == step.hold.job.id {
      assert s.lives[i].holds == {step.hold};
    }
  }

  lemma StepKeepsExclusive(s: System, step: Step)
    requires Sound(s) && AllExclusive(s) && InTime(s) && Enabled(s, step)
    ensures AllExclusive(Next(s, step))
  {
    var t := Next(s, step);
    forall i | 0 <= i < |t.lives| ensures Exclusive(t.lives[i], t.now) {
      if i < |s.lives| {
        if step.Claim? {
          ClaimKeepsExclusive(s, step, i);
        } else if step.Complete? || step.Fail? || step.Abandon? {
          ReportKeepsExclusive(s, step, i);
        } else {
          assert Exclusive(s.lives[i], s.now) && LifeHolds(s.lives[i], i);
        }
      }
    }
  }

  lemma {:induction false} RunKeepsExclusive(s: System, steps: seq<Step>)
    requires Sound(s) && AllExclusive(s) && Legal(s, steps) && AlwaysInTime(s, steps)
    ensures AllExclusive(Run(s, steps)) && InTime(Run(s, steps))
    decreases |steps|
  {
    if steps != [] {
      StepKeepsSound(s, steps[0]);
      StepKeepsExclusive(s, steps[0]);
      RunKeepsExclusive(Next(s, steps[0]), steps[1..]);
    }
  }

  /**
    In every run in which each claim is closed within its lease: at most one worker has a job in
    hand, the row names that worker, and no job is tried more often than allowed plus once for
    every claim that was lost, so never more often when no worker dies.
   */
  lemma {:induction false} DisciplinedRuns(start: Instant, steps: seq<Step>, i: JobId)
    requires Legal(Empty(start), steps) && AlwaysInTime(Empty(start), steps)
    requires i < |Run(Empty(start), steps).lives|
    ensures var l := Run(Empty(start), steps).lives[i];
            && (forall g, h :: g in l.holds && h in l.holds ==> g == h)
            && (forall h :: h in l.holds ==> l.row.Live() && l.row.claimedBy == Some(h.worker))
            && l.row.attempts <= l.row.maxAttempts + l.lost
  {
    RunKeepsExclusive(Empty(start), steps);
    assert Exclusive(Run(Empty(start), steps).lives[i], Run(Empty(start), steps).now);
  }

  // ----- Exactly when a job is tried too often -----

  predicate ClaimsIt(step: Step, i: JobId) {
    step.Claim? && i in step.ids
  }

  /** The worker that had the job for the last time allowed died with it. */
  predicate LosesLastTry(step: Step, i: JobId) {
    step.Abandon? && step.hold.job.id == i && step.hold.job.attempts >= step.hold.job.maxAttempts
  }

  ghost predicate ClaimedIn(steps: seq<Step>, i: JobId) {
    exists m :: 0 <= m < |steps| && ClaimsIt(steps[m], i)
  }

  ghost predicate LostThenClaimed(steps: seq<Step>, i: JobId) {
    exists k, m :: 0 <= k < m < |steps| && LosesLastTry(steps[k], i) && ClaimsIt(steps[m], i)
  }

  lemma StepAddsTries(s: System, step: Step, i: JobId)
    requires Enabled(s, step) && i < |s.lives|
    ensures i < |Next(s, step).lives|
    ensures var before, after := s.lives[i].row, Next(s, step).lives[i].row;
            after.maxAttempts == before.maxAttempts && after.attempts == before.attempts + if ClaimsIt(step, i) then 1 else 0
  {
    assert Rows(s)[i] == s.lives[i].row;
  }

  lemma {:induction false} TriesOnlyGrow(s: System, steps: seq<Step>, i: JobId)
    requires Legal(s, steps) && i < |s.lives|
    ensures i < |Run(s, steps).lives|
    ensures var before, after := s.lives[i].row, Run(s, steps).lives[i].row;
            && after.maxAttempts == before.maxAttempts
            && after.attempts >= before.attempts + if ClaimedIn(steps, i) then 1 else 0
    decreases |steps|
  {
    if steps != [] {
      StepAddsTries(s, steps[0], i);
      TriesOnlyGrow(Next(s, steps[0]), steps[1..], i);
      if ClaimedIn(steps, i) && !ClaimsIt(steps[0], i) {
        var m :| 0 <= m < |steps| && ClaimsIt(steps[m], i);
        assert ClaimsIt(steps[1..][m - 1], i);
      }
    }
  }

  lemma {:induction false} LostLastTryIsOneTooMany(s: System, steps: seq<Step>, i: JobId, k: nat, m: nat)
    requires Sound(s) && AllExclusive(s) && Legal(s, steps) && AlwaysInTime(s, steps) && i < |Run(s, steps).lives|
    requires k < m < |steps| && LosesLastTry(steps[k], i) && ClaimsIt(steps[m], i)
    ensures Run(s, steps).lives[i].row.attempts > Run(s, steps).lives[i].row.maxAttempts
    decreases |steps|
  {
    var next, rest := Next(s, steps[0]), steps[1..];
    if k == 0 {
      assert Exclusive(s.lives[i], s.now) && LifeHolds(s.lives[i], i);
      StepAddsTries(s, steps[0], i);
      assert ClaimsIt(rest[m - 1], i);
      TriesOnlyGrow(next, rest, i);
    } else {
      StepKeepsSound(s, steps[0]);
      StepKeepsExclusive(s, steps[0]);
      LostLastTryIsOneTooMany(next, rest, i, k - 1, m - 1);
    }
  }

  /** Within its tries, and if they are used up while nobody has it, then because a worker died with the last of them. */
  ghost predicate LifeWithinTries(l: Life, lost: bool) {
    l.row.attempts <= l.row.maxAttempts && (l.row.Live() && l.holds == {} && l.row.attempts >= l.row.maxAttempts ==> lost)
  }

  ghost predicate WithinTries(s: System, i: JobId, lost: bool) {
    i < |s.lives| ==> LifeWithinTries(s.lives[i], lost)
  }

  lemma ClaimStaysWithinTries(l: Life, id: JobId, worker: Worker, now: Instant, lease: Instant, lost: bool)
    requires LifeWithinTries(l, lost) && l.row.Live() && l.holds == {} && !lost
    ensures LifeWithinTries(ClaimLife(l, id, worker, now, lease), lost)
  {
    assert Hold(worker, l.row.Claim(worker, now, lease).Handed(id), lease) in ClaimLife(l, id, worker, now, lease).holds;
  }

  lemma FailStaysWithinTries(l: Life, hold: Hold, error: string, permanent: bool, now: Instant, lost: bool)
    requires LifeWithinTries(l, lost) && l.row.attempts == hold.job.attempts && l.row.maxAttempts == hold.job.maxAttempts
    ensures LifeWithinTries(FailLife(l, hold, error, permanent, now), lost)
  {}

  lemma StepStaysWithinTries(s: System, step: Step, i: JobId, lost: bool)
    requires Sound(s) && AllExclusive(s) && InTime(s) && Enabled(s, step) && WithinTries(s, i, lost)
    requires !(lost && ClaimsIt(step, i))
    ensures WithinTries(Next(s, step), i, lost || LosesLastTry(step, i))
  {
    if i < |s.lives| {
      var l := s.lives[i];
      assert Rows(s)[i] == l.row && Exclusive(l, s.now) && LifeHolds(l, i);
      LifeAfter(s, step, i);
      match step
      case Claim(worker, ids, leaseSeconds) =>
        if i in ids { ClaimStaysWithinTries(l, i, worker, s.now, s.now + leaseSeconds * 1000, lost); }
      case Fail(hold, error, permanent) =>
        if i == hold.job.id { FailStaysWithinTries(l, hold, error, permanent, s.now, lost); }
      case _ =>
    }
  }

  lemma {:induction false} OneTooManyMeansLost(s: System, steps: seq<Step>, i: JobId, lost: bool)
    requires Sound(s) && AllExclusive(s) && Legal(s, steps) && AlwaysInTime(s, steps) && WithinTries(s, i, lost)
    requires i < |Run(s, steps).lives| && Run(s, steps).lives[i].row.attempts > Run(s, steps).lives[i].row.maxAttempts
    ensures (lost && ClaimedIn(steps, i)) || LostThenClaimed(steps, i)
    decreases |steps|
  {
    if steps != [] && !(lost && ClaimsIt(steps[0], i)) {
      var rest := steps[1..];
      StepKeepsSound(s, steps[0]);
      StepKeepsExclusive(s, steps[0]);
      StepStaysWithinTries(s, steps[0], i, lost);
      OneTooManyMeansLost(Next(s, steps[0]), rest, i, lost || LosesLastTry(steps[0], i));
      OneStepEarlier(steps, i);
    }
  }

  lemma OneStepEarlier(steps: seq<Step>, i: JobId)
    requires steps != []
    ensures LostThenClaimed(steps[1..], i) ==> LostThenClaimed(steps, i)
    ensures ClaimedIn(steps[1..], i) ==> ClaimedIn(steps, i) && (LosesLastTry(steps[0], i) ==> LostThenClaimed(steps, i))
  {
    var rest := steps[1..];
    if LostThenClaimed(rest, i) {
      var k, m :| 0 <= k < m < |rest| && LosesLastTry(rest[k], i) && ClaimsIt(rest[m], i);
      assert LosesLastTry(steps[k + 1], i) && ClaimsIt(steps[m + 1], i);
    }
    if ClaimedIn(rest, i) {
      var m :| 0 <= m < |rest| && ClaimsIt(rest[m], i);
      assert ClaimsIt(steps[m + 1], i);
    }
  }

  /**
    When each claim is closed within its lease, a job is tried more often than `maxAttempts` exactly if a
    worker died holding it for the last time allowed and somebody claimed it after that.
   */
  lemma {:induction false} TriedTooOftenIff(start: Instant, steps: seq<Step>, i: JobId)
    requires Legal(Empty(start), steps) && AlwaysInTime(Empty(start), steps)
    requires i < |Run(Empty(start), steps).lives|
    ensures var row := Run(Empty(start), steps).lives[i].row;
            row.attempts > row.maxAttempts <==> LostThenClaimed(steps, i)
  {
    var row := Run(Empty(start), steps).lives[i].row;
    if row.attempts > row.maxAttempts {
      OneTooManyMeansLost(Empty(start), steps, i, false);
    }
    if LostThenClaimed(steps, i) {
      var k, m :| 0 <= k < m < |steps| && LosesLastTry(steps[k], i) && ClaimsIt(steps[m], i);
      LostLastTryIsOneTooMany(Empty(start), steps, i, k, m);
    }
  }

  /** Reports are never refused: the job being reported on is still live. */
  lemma ReportsAreAccepted(s: System, hold: Hold, permanent: bool)
    requires Sound(s) && AllExclusive(s) && Holding(s, hold)
    ensures CompleteAllowed(Rows(s), hold.job.id) && FailAllowed(Rows(s), hold.job, permanent)
  {
    assert Exclusive(s.lives[hold.job.id], s.now);
  }

  // ----- A finite queue drains -----

  /** Tries a live job still has. */
  function TriesLeft(l: Life): int {
    if l.row.Live() then l.row.maxAttempts + l.lost - l.row.attempts else 0
  }

  function Budget(s: System): int {
    Sum(TriesEach(s.lives))
  }

  function ClaimsMade(s: System): int {
    Sum(ClaimsEach(s.lives))
  }

  function Spent(l: Life): int {
    l.claims + TriesLeft(l)
  }

  function SpentEach(lives: seq<Life>): seq<int> {
    seq(|lives|, i requires 0 <= i < |lives| => Spent(lives[i]))
  }

  function ClaimsEach(lives: seq<Life>): seq<int> {
    seq(|lives|, i requires 0 <= i < |lives| => lives[i].claims)
  }

  function TriesEach(lives: seq<Life>): seq<int> {
    seq(|lives|, i requires 0 <= i < |lives| => TriesLeft(lives[i]))
  }

  lemma {:induction false} SumOfSpent(lives: seq<Life>)
    ensures Sum(SpentEach(lives)) == Sum(ClaimsEach(lives)) + Sum(TriesEach(lives))
  {
    if lives != [] {
      var k := |lives| - 1;
      SumOfSpent(lives[..k]);
      assert SpentEach(lives)[..k] == SpentEach(lives[..k]);
      assert ClaimsEach(lives)[..k] == ClaimsEach(lives[..k]);
      assert TriesEach(lives)[..k] == TriesEach(lives[..k]);
    }
  }

  /** A lost claim gives its job one more try; nothing else gives any. */
  lemma {:induction false} StepSpends(s: System, step: Step)
    requires Sound(s) && AllExclusive(s) && InTime(s) && Enabled(s, step) && !step.Enqueue?
    ensures ClaimsMade(Next(s, step)) + Budget(Next(s, step)) <= ClaimsMade(s) + Budget(s) + if step.Abandon? then 1 else 0
  {
    var after, lost := Next(s, step).lives, if step.Abandon? then step.hold.job.id else |s.lives|;
    assert |after| == |s.lives|;
    forall i | 0 <= i < |s.lives| ensures Spent(after[i]) <= Spent(s.lives[i]) + if i == lost then 1 else 0 {
      LifeSpends(s, step, i);
    }
    AllSpend(s.lives, after, lost);
  }

  lemma {:induction false} AllSpend(lives: seq<Life>, after: seq<Life>, lost: nat)
    requires |after| == |lives|
    requires forall i :: 0 <= i < |lives| ==> Spent(after[i]) <= Spent(lives[i]) + if i == lost then 1 else 0
    ensures Sum(ClaimsEach(after)) + Sum(TriesEach(after))
         <= Sum(ClaimsEach(lives)) + Sum(TriesEach(lives)) + if lost < |lives| then 1 else 0
  {
    SumOfSpent(lives);
    SumOfSpent(after);
    if lost < |lives| {
      SumButForOne(SpentEach(after), SpentEach(lives), lost);
    } else {
      SumIsMonotone(SpentEach(after), SpentEach(lives));
    }
  }

  lemma {:induction false} SumButForOne(a: seq<int>, b: seq<int>, at: nat)
    requires |a| == |b| && at < |b|
    requires forall i :: 0 <= i < |a| ==> a[i] <= b[i] + if i == at then 1 else 0
    ensures Sum(a) <= Sum(b) + 1
  {
    SumIsMonotone(a, b[at := b[at] + 1]);
    SumUpdate(b, at, b[at] + 1);
  }

  lemma LifeSpends(s: System, step: Step, i: JobId)
    requires Sound(s) && AllExclusive(s) && InTime(s) && Enabled(s, step) && i < |s.lives| && !step.Enqueue?
    ensures |Next(s, step).lives| == |s.lives|
    ensures Spent(Next(s, step).lives[i]) <= Spent(s.lives[i]) + if step.Abandon? && i == step.hold.job.id then 1 else 0
  {
    assert Rows(s)[i] == s.lives[i].row && Exclusive(s.lives[i], s.now) && LifeHolds(s.lives[i], i);
  }

  lemma BudgetIsNonNegative(s: System)
    requires AllExclusive(s)
    ensures Budget(s) >= 0
    ensures Budget(s) == 0 && (forall i :: 0 <= i < |s.lives| ==> s.lives[i].holds == {}) ==>
      forall i :: 0 <= i < |s.lives| ==> !s.lives[i].row.Live()
  {
    var tries := TriesEach(s.lives);
    forall i | 0 <= i < |tries| ensures tries[i] >= 0 {
      assert Exclusive(s.lives[i], s.now);
    }
    SumOfNaturals(tries);
    if Budget(s) == 0 {
      forall i | 0 <= i < |s.lives| && s.lives[i].holds == {} ensures !s.lives[i].row.Live() {
        assert Exclusive(s.lives[i], s.now) && tries[i] == 0;
      }
    }
  }

  lemma {:induction false} SumOfNaturals(s: seq<int>)
    requires forall i :: 0 <= i < |s| ==> s[i] >= 0
    ensures Sum(s) >= 0
    ensures Sum(s) == 0 ==> forall i :: 0 <= i < |s| ==> s[i] == 0
  {
    if s != [] {
      SumOfNaturals(s[..|s| - 1]);
      assert Sum(s) == 0 ==> forall i :: 0 <= i < |s| - 1 ==> s[..|s| - 1][i] == s[i];
    }
  }

  function Lost(steps: seq<Step>): nat {
    if steps == [] then 0 else (if steps[0].Abandon? then 1 else 0) + Lost(steps[1..])
  }

  /**
    Once no more work arrives, the claims still to come are at most the tries left over all live jobs and one
    for every claim lost on the way; when the tries are used up and nobody has a job in hand, none is live.
   */
  lemma {:induction false} FiniteQueueDrains(s: System, steps: seq<Step>)
    requires Sound(s) && AllExclusive(s) && Legal(s, steps) && AlwaysInTime(s, steps)
    requires forall k :: 0 <= k < |steps| ==> !steps[k].Enqueue?
    ensures ClaimsMade(Run(s, steps)) - ClaimsMade(s) <= Budget(s) - Budget(Run(s, steps)) + Lost(steps)
    ensures Budget(Run(s, steps)) >= 0
    ensures var t := Run(s, steps);
            Budget(t) == 0 && (forall i :: 0 <= i < |t.lives| ==> t.lives[i].holds == {}) ==>
              forall i :: 0 <= i < |t.lives| ==> !t.lives[i].row.Live()
    decreases |steps|
  {
    if steps == [] {
      BudgetIsNonNegative(s);
    } else {
      StepKeepsSound(s, steps[0]);
      StepKeepsExclusive(s, steps[0]);
      StepSpends(s, steps[0]);
      assert forall k :: 0 <= k < |steps[1..]| ==> steps[1..][k] == steps[k + 1];
      FiniteQueueDrains(Next(s, steps[0]), steps[1..]);
    }
  }

  /** Until then somebody can always make progress: a live job nobody has in hand comes due. */
  lemma LiveJobComesDue(s: System, i: JobId) returns (due: Instant)
    requires Sound(s) && i < |s.lives| && s.lives[i].row.Live()
    ensures s.now <= due
    ensures Enabled(s.(now := due), Claim("worker", {i}, 300))
  {
    var row := s.lives[i].row;
    assert Rows(s)[i] == row;
    due := s.now + (if row.runAt > s.now then row.runAt - s.now else 0)
      + (if row.leaseUntil.Some? && row.leaseUntil.value >= s.now then row.leaseUntil.value - s.now + 1 else 0);
    assert Rows(s.(now := due))[i] == row;
  }

  // ----- Why the assumption is needed -----

  lemma {:induction false} Extend(s: System, steps: seq<Step>, step: Step)
    requires Legal(s, steps) && Enabled(Run(s, steps), step)
    ensures Legal(s, steps + [step]) && Run(s, steps + [step]) == Next(Run(s, steps), step)
    ensures AlwaysInTime(s, steps) && InTime(Next(Run(s, steps), step)) ==> AlwaysInTime(s, steps + [step])
    decreases |steps|
  {
    if steps == [] {
      assert [] + [step] == [step] && [step][1..] == [];
    } else {
      Extend(Next(s, steps[0]), steps[1..], step);
      assert (steps + [step])[1..] == steps[1..] + [step];
    }
  }

  ghost predicate Leads(s: System, to: System) {
    exists steps :: Legal(s, steps) && Run(s, steps) == to
  }

  ghost predicate LeadsInTime(s: System, to: System) {
    exists steps :: Legal(s, steps) && AlwaysInTime(s, steps) && Run(s, steps) == to
  }

  lemma LeadsNowhere(s: System)
    ensures Leads(s, s) && (InTime(s) ==> LeadsInTime(s, s))
  {
    assert Legal(s, []) && Run(s, []) == s;
    assert InTime(s) ==> AlwaysInTime(s, []);
  }

  lemma LeadsOn(s: System, mid: System, step: Step, to: System)
    requires Leads(s, mid) && Enabled(mid, step) && Next(mid, step) == to
    ensures Leads(s, to)
    ensures LeadsInTime(s, mid) && InTime(to) ==> LeadsInTime(s, to)
  {
    var steps :| Legal(s, steps) && Run(s, steps) == mid;
    Extend(s, steps, step);
    if LeadsInTime(s, mid) && InTime(to) {
      var timely :| Legal(s, timely) && AlwaysInTime(s, timely) && Run(s, timely) == mid;
      Extend(s, timely, step);
    }
  }

  const ONE_TRY := JobRequest("invoice.extract", map[], None, None, Some(1), None)
  const FIRST_ROW := NewRow(ONE_TRY, 0)
  const FIRST_HOLD := Hold("first", FIRST_ROW.Claim("first", 0, 1000).Handed(0), 1000)

  function OneJob(row: JobRow, holds: set<Hold>, claims: nat, lost: nat, now: Instant): System {
    System([Life(row, holds, claims, {}, 0, lost)], now)
  }

  lemma Enqueues()
    ensures Next(Empty(0), Enqueue(ONE_TRY)) == OneJob(FIRST_ROW, {}, 0, 0, 0)
  {
    assert ONE_TRY.name[0] != ' ';
  }

  lemma Claims(row: JobRow, holds: set<Hold>, claims: nat, lost: nat, now: Instant, worker: Worker)
    requires row.Runnable(now)
    ensures var s := OneJob(row, holds, claims, lost, now);
            var claimed := row.Claim(worker, now, now + 1000);
            && Enabled(s, Claim(worker, {0}, 1))
            && Next(s, Claim(worker, {0}, 1))
               == OneJob(claimed, holds + {Hold(worker, claimed.Handed(0), now + 1000)}, claims + 1, lost, now)
  {
    var s := OneJob(row, holds, claims, lost, now);
    assert Rows(s)[0] == row;
  }

  lemma Dies(row: JobRow, hold: Hold, claims: nat, lost: nat, now: Instant)
    requires hold.job.id == 0
    ensures var s := OneJob(row, {hold}, claims, lost, now);
            Enabled(s, Abandon(hold)) && Next(s, Abandon(hold)) == OneJob(row, {}, claims, lost + 1, now)
  {
    assert {hold} - {hold} == {};
  }

  /** Enqueued, and handed to the first worker. */
  lemma FirstHasIt()
    ensures LeadsInTime(Empty(0), OneJob(FIRST_ROW.Claim("first", 0, 1000), {FIRST_HOLD}, 1, 0, 0))
  {
    var empty, enqueued := Empty(0), OneJob(FIRST_ROW, {}, 0, 0, 0);
    LeadsNowhere(empty);
    Enqueues();
    LeadsOn(empty, empty, Enqueue(ONE_TRY), enqueued);
    Claims(FIRST_ROW, {}, 0, 0, 0, "first");
    assert {} + {FIRST_HOLD} == {FIRST_HOLD};
    LeadsOn(empty, enqueued, Claim("first", {0}, 1), OneJob(FIRST_ROW.Claim("first", 0, 1000), {FIRST_HOLD}, 1, 0, 0));
  }

  /** A worker that takes longer than its lease: a second one is handed the same job while the first has it still. */
  lemma TwoHoldOneJob() returns (s: System)
    ensures Leads(Empty(0), s) && |s.lives| == 1 && |s.lives[0].holds| == 2 && s.lives[0].lost == 0
  {
    FirstHasIt();
    var claimed := FIRST_ROW.Claim("first", 0, 1000);
    var second := Hold("second", claimed.Claim("second", 1001, 2001).Handed(0), 2001);
    LeadsOn(Empty(0), OneJob(claimed, {FIRST_HOLD}, 1, 0, 0), Tick(1001), OneJob(claimed, {FIRST_HOLD}, 1, 0, 1001));
    Claims(claimed, {FIRST_HOLD}, 1, 0, 1001, "second");
    s := OneJob(claimed.Claim("second", 1001, 2001), {FIRST_HOLD} + {second}, 2, 0, 1001);
    LeadsOn(Empty(0), OneJob(claimed, {FIRST_HOLD}, 1, 0, 1001), Claim("second", {0}, 1), s);
    assert FIRST_HOLD.worker != second.worker;
  }

  lemma DiedAndWaited(held: System, dead: System, later: System)
    requires held == OneJob(FIRST_ROW.Claim("first", 0, 1000), {FIRST_HOLD}, 1, 0, 0)
    requires dead == OneJob(FIRST_ROW.Claim("first", 0, 1000), {}, 1, 1, 0) && later == dead.(now := 1001)
    ensures LeadsInTime(Empty(0), later)
  {
    FirstHasIt();
    Dies(FIRST_ROW.Claim("first", 0, 1000), FIRST_HOLD, 1, 0, 0);
    LeadsOn(Empty(0), held, Abandon(FIRST_HOLD), dead);
    LeadsOn(Empty(0), dead, Tick(1001), later);
  }

  /**
    `claim` never looks at `maxAttempts`: one worker dying with the job in hand is enough for a job
    allowed a single try to be tried twice, even when every report is in time.
   */
  lemma CrashExceedsMaxAttempts() returns (s: System)
    ensures LeadsInTime(Empty(0), s) && |s.lives| == 1
    ensures s.lives[0].row.attempts > s.lives[0].row.maxAttempts && s.lives[0].lost == 1
  {
    var claimed := FIRST_ROW.Claim("first", 0, 1000);
    var later := OneJob(claimed, {}, 1, 1, 1001);
    DiedAndWaited(OneJob(claimed, {FIRST_HOLD}, 1, 0, 0), OneJob(claimed, {}, 1, 1, 0), later);
    s := OneJob(claimed.Claim("second", 1001, 2001), {} + {Hold("second", claimed.Claim("second", 1001, 2001).Handed(0), 2001)}, 2, 1, 1001);
    Claims(claimed, {}, 1, 1, 1001, "second");
    LeadsOn(Empty(0), later, Claim("second", {0}, 1), s);
  }
}
