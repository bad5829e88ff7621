/**
  Daily sweeps that keep each other going: a worker enqueues one when it boots, and the handler of each
  enqueues the next as the last thing it does before its job is reported done.
 */
module SweepChain {
  import opened Wrappers
  import opened JobQueue
  import Q = QueueRuns
  import D = DailySweep
  import L = LeaseDiscipline

  /** The queue, and the claims whose handler has enqueued the next sweep. */
  datatype Chain = Chain(s: Q.System, passedOn: set<Q.Hold>)

  datatype Step =
    | Boot(after: Instant)
    | PassOn(hold: Q.Hold, after: Instant)
    | Other(step: Q.Step)

  predicate IsSweepAt(s: Q.System, i: JobId) {
    i < |s.lives| && D.IsSweep(s.lives[i].row.uniqueKey)
  }

  /** The clock is read while the handler runs; no sweep is enqueued elsewhere, nor reported done before it has passed on. */
  ghost predicate Enabled(c: Chain, step: Step) {
    match step
    case Boot(_) => true
    case PassOn(hold, after) => Q.Holding(c.s, hold) && IsSweepAt(c.s, hold.job.id) && hold.job.runAt <= after <= c.s.now
    case Other(step) =>
      && Q.Enabled(c.s, step)
      && (step.Enqueue? ==> !D.IsSweep(step.request.uniqueKey))
      && (step.Complete? && IsSweepAt(c.s, step.hold.job.id) ==> step.hold in c.passedOn)
  }

  /** What the step does to the queue. */
  function Plain(step: Step): Q.Step {
    match step
    case Boot(after) => Q.Enqueue(D.SweepRequest(after))
    case PassOn(_, after) => Q.Enqueue(D.SweepRequest(after))
    case Other(step) => step
  }

  function Next(c: Chain, step: Step): Chain
    requires Enabled(c, step)
  {
    Chain(Q.Next(c.s, Plain(step)), if step.PassOn? then c.passedOn + {step.hold} else c.passedOn)
  }

  ghost predicate Legal(c: Chain, steps: seq<Step>)
    decreases |steps|
  {
    steps != [] ==> Enabled(c, steps[0]) && Legal(Next(c, steps[0]), steps[1..])
  }

  ghost function Run(c: Chain, steps: seq<Step>): Chain
    requires Legal(c, steps)
    decreases |steps|
  {
    if steps == [] then c else Run(Next(c, steps[0]), steps[1..])
  }

  // ----- What every such run keeps -----

  function DayOf(row: JobRow): int
    requires D.IsSweep(row.uniqueKey) && |row.uniqueKey.value.parts| == 1
  {
    row.uniqueKey.value.parts[0]
  }

  ghost predicate OneDayEach(s: Q.System) {
    forall i :: 0 <= i < |s.lives| && IsSweepAt(s, i) ==> |s.lives[i].row.uniqueKey.value.parts| == 1
  }

  /** No sweep is handed over before its hour, first try or later. */
  ghost predicate NotBeforeItsHour(l: Q.Life, now: Instant)
    requires D.IsSweep(l.row.uniqueKey) && |l.row.uniqueKey.value.parts| == 1
  {
    var hour := D.RunOf(DayOf(l.row));
    hour <= l.row.runAt && forall h :: h in l.holds ==> hour <= h.job.runAt <= now
  }

  ghost predicate InTheirHour(s: Q.System)
    requires OneDayEach(s)
  {
    forall i :: 0 <= i < |s.lives| && IsSweepAt(s, i) ==> NotBeforeItsHour(s.lives[i], s.now)
  }

  /** There is a sweep of a later day. */
  ghost predicate Superseded(s: Q.System, i: JobId)
    requires OneDayEach(s) && IsSweepAt(s, i)
  {
    exists j :: 0 <= j < |s.lives| && IsSweepAt(s, j) && DayOf(s.lives[j].row) > DayOf(s.lives[i].row)
  }

  ghost predicate Handed(c: Chain)
    requires OneDayEach(c.s)
  {
    && (forall h :: h in c.passedOn && IsSweepAt(c.s, h.job.id) ==> Superseded(c.s, h.job.id))
    && (forall i :: 0 <= i < |c.s.lives| && IsSweepAt(c.s, i) && c.s.lives[i].row.completedAt.Some? ==> Superseded(c.s, i))
  }

  ghost predicate Kept(c: Chain) {
    && Q.Sound(c.s) && OneDayEach(c.s) && InTheirHour(c.s) && Handed(c)
    && forall h :: h in c.passedOn ==> h.job.id < |c.s.lives|
  }

  /** Rows stay, with their keys; one more is a sweep only if a sweep was asked for. */
  lemma KeysStay(s: Q.System, step: Q.Step)
    requires Q.Enabled(s, step)
    ensures var t := Q.Next(s, step);
            && |s.lives| <= |t.lives| <= |s.lives| + 1
            && (forall i :: 0 <= i < |s.lives| ==> t.lives[i].row.uniqueKey == s.lives[i].row.uniqueKey)
            && (|t.lives| > |s.lives| ==> step.Enqueue? && t.lives[|s.lives|] == Q.Life(NewRow(step.request, s.now), {}, 0, {}, 0, 0))
  {}

  lemma SupersededStays(s: Q.System, step: Q.Step, i: JobId)
    requires Q.Enabled(s, step) && OneDayEach(s) && OneDayEach(Q.Next(s, step)) && IsSweepAt(s, i) && Superseded(s, i)
    ensures IsSweepAt(Q.Next(s, step), i) && Superseded(Q.Next(s, step), i)
  {
    KeysStay(s, step);
    var j :| 0 <= j < |s.lives| && IsSweepAt(s, j) && DayOf(s.lives[j].row) > DayOf(s.lives[i].row);
    assert IsSweepAt(Q.Next(s, step), j);
  }

  lemma StaysOneDay(c: Chain, step: Step)
    requires OneDayEach(c.s) && Enabled(c, step)
    ensures OneDayEach(Next(c, step).s)
  {
    KeysStay(c.s, Plain(step));
    var t := Next(c, step).s;
    forall i | 0 <= i < |t.lives| && IsSweepAt(t, i) ensures |t.lives[i].row.uniqueKey.value.parts| == 1 {
      if i < |c.s.lives| { assert IsSweepAt(c.s, i); }
    }
  }

  lemma LifeStaysInItsHour(s: Q.System, step: Q.Step, i: JobId)
    requires Q.Sound(s) && Q.Enabled(s, step) && i < |s.lives|
    requires D.IsSweep(s.lives[i].row.uniqueKey) && |s.lives[i].row.uniqueKey.value.parts| == 1
    requires NotBeforeItsHour(s.lives[i], s.now)
    ensures Q.Next(s, step).lives[i].row.uniqueKey == s.lives[i].row.uniqueKey
    ensures NotBeforeItsHour(Q.Next(s, step).lives[i], Q.Next(s, step).now)
  {
    assert Q.Rows(s)[i] == s.lives[i].row && Q.LifeHolds(s.lives[i], i);
  }

  lemma NewSweepInItsHour(after: Instant, now: Instant)
    ensures var l := Q.Life(NewRow(D.SweepRequest(after), now), {}, 0, {}, 0, 0);
            && D.IsSweep(l.row.uniqueKey) && |l.row.uniqueKey.value.parts| == 1 && NotBeforeItsHour(l, now)
            && D.RunOf(DayOf(l.row)) > after
  {
    D.NextDailyRunIsLeast(after, 0);
  }

  lemma StaysInTheirHour(c: Chain, step: Step)
    requires Kept(c) && Enabled(c, step) && OneDayEach(Next(c, step).s)
    ensures InTheirHour(Next(c, step).s)
  {
    var s, t := c.s, Next(c, step).s;
    KeysStay(s, Plain(step));
    forall i | 0 <= i < |t.lives| && IsSweepAt(t, i) ensures NotBeforeItsHour(t.lives[i], t.now) {
      if i < |s.lives| {
        assert IsSweepAt(s, i);
        LifeStaysInItsHour(s, Plain(step), i);
      } else if !step.Other? {
        NewSweepInItsHour(step.after, s.now);
      }
    }
  }

  /** Once asked for, the sweep of that day is in the table, whoever put it there. */
  lemma EnqueuedIsThere(s: Q.System, after: Instant) returns (j: JobId)
    ensures var t := Q.Next(s, Q.Enqueue(D.SweepRequest(after)));
            j < |t.lives| && t.lives[j].row.uniqueKey == Some(D.SweepKey(D.NextDailyRun(after) / D.DAY))
  {
    assert D.DAILY_SWEEP[0] != ' ';
    var request := D.SweepRequest(after);
    if KeyTaken(Q.Rows(s), request.uniqueKey) {
      j :| 0 <= j < |Q.Rows(s)| && Q.Rows(s)[j].Live() && Q.Rows(s)[j].uniqueKey == request.uniqueKey;
    } else {
      j := |s.lives|;
    }
  }

  lemma PassingOnSupersedes(c: Chain, step: Step)
    requires Kept(c) && Enabled(c, step) && step.PassOn? && OneDayEach(Next(c, step).s)
    ensures IsSweepAt(Next(c, step).s, step.hold.job.id) && Superseded(Next(c, step).s, step.hold.job.id)
  {
    var i, t := step.hold.job.id, Next(c, step).s;
    KeysStay(c.s, Plain(step));
    assert NotBeforeItsHour(c.s.lives[i], c.s.now);
    NewSweepInItsHour(step.after, c.s.now);
    var j := EnqueuedIsThere(c.s, step.after);
    assert IsSweepAt(t, j) && DayOf(t.lives[j].row) > DayOf(t.lives[i].row);
  }

  lemma StaysHanded(c: Chain, step: Step)
    requires Kept(c) && Enabled(c, step) && OneDayEach(Next(c, step).s)
    ensures Handed(Next(c, step)) && forall h :: h in Next(c, step).passedOn ==> h.job.id < |Next(c, step).s.lives|
  {
    var after := Next(c, step);
    KeysStay(c.s, Plain(step));
    if step.PassOn? { PassingOnSupersedes(c, step); }
    forall h | h in after.passedOn && IsSweepAt(after.s, h.job.id) ensures Superseded(after.s, h.job.id) {
      if h in c.passedOn {
        assert IsSweepAt(c.s, h.job.id);
        SupersededStays(c.s, Plain(step), h.job.id);
      }
    }
    forall i | 0 <= i < |after.s.lives| && IsSweepAt(after.s, i) && after.s.lives[i].row.completedAt.Some?
      ensures Superseded(after.s, i)
    {
      CompletedPassedOn(c, step, i);
      SupersededStays(c.s, Plain(step), i);
    }
  }

  lemma CompletedPassedOn(c: Chain, step: Step, i: JobId)
    requires Kept(c) && Enabled(c, step) && IsSweepAt(Next(c, step).s, i) && Next(c, step).s.lives[i].row.completedAt.Some?
    ensures IsSweepAt(c.s, i) && Superseded(c.s, i)
  {
    KeysStay(c.s, Plain(step));
    if c.s.lives[i].row.completedAt.None? {
      assert step.Other? && step.step.Complete? && step.step.hold.job.id == i;
    }
  }

  lemma {:induction false} RunKeeps(c: Chain, steps: seq<Step>)
    requires Kept(c) && Legal(c, steps)
    ensures Kept(Run(c, steps))
    decreases |steps|
  {
    if steps != [] {
      Q.StepKeepsSound(c.s, Plain(steps[0]));
      StaysOneDay(c, steps[0]);
      StaysInTheirHour(c, steps[0]);
      StaysHanded(c, steps[0]);
      RunKeeps(Next(c, steps[0]), steps[1..]);
    }
  }

  // ----- The chain goes on -----

  /** A sweep than which none is for a later day. */
  ghost predicate Latest(s: Q.System, i: JobId)
    requires OneDayEach(s)
  {
    IsSweepAt(s, i) && forall j :: 0 <= j < |s.lives| && IsSweepAt(s, j) ==> DayOf(s.lives[j].row) <= DayOf(s.lives[i].row)
  }

  lemma {:induction false} SomeIsLatest(s: Q.System, i: JobId) returns (last: JobId)
    requires OneDayEach(s) && IsSweepAt(s, i)
    ensures Latest(s, last)
  {
    last := i;
    for j := 0 to |s.lives|
      invariant IsSweepAt(s, last)
      invariant forall k :: 0 <= k < j && IsSweepAt(s, k) ==> DayOf(s.lives[k].row) <= DayOf(s.lives[last].row)
    {
      if IsSweepAt(s, j) && DayOf(s.lives[j].row) > DayOf(s.lives[last].row) {
        last := j;
      }
    }
  }

  lemma {:induction false} BootedHasSweep(c: Chain, steps: seq<Step>, k: nat) returns (i: JobId)
    requires Legal(c, steps) && k < |steps| && steps[k].Boot?
    ensures IsSweepAt(Run(c, steps).s, i)
    decreases |steps|
  {
    if k == 0 {
      i := EnqueuedIsThere(c.s, steps[0].after);
      SweepsStay(Next(c, steps[0]), steps[1..], i);
    } else {
      i := BootedHasSweep(Next(c, steps[0]), steps[1..], k - 1);
    }
  }

  lemma {:induction false} SweepsStay(c: Chain, steps: seq<Step>, i: JobId)
    requires Legal(c, steps) && IsSweepAt(c.s, i)
    ensures IsSweepAt(Run(c, steps).s, i)
    decreases |steps|
  {
    if steps != [] {
      KeysStay(c.s, Plain(steps[0]));
      SweepsStay(Next(c, steps[0]), steps[1..], i);
    }
  }

  /**
    However the workers overlap, crash and take each other's jobs: once one has booted there is a sweep for a
    latest day, and it is still to run or running, or has failed for good. So a sweep is live unless the latest failed.
   */
  lemma {:induction false} ChainGoesOn(start: Instant, steps: seq<Step>, k: nat) returns (last: JobId)
    requires Legal(Chain(Q.Empty(start), {}), steps) && k < |steps| && steps[k].Boot?
    ensures var s := Run(Chain(Q.Empty(start), {}), steps).s;
            && OneDayEach(s) && Latest(s, last)
            && (s.lives[last].row.Live() || s.lives[last].row.failedAt.Some?)
            && ((forall i :: 0 <= i < |s.lives| && IsSweepAt(s, i) ==> !s.lives[i].row.Live()) ==>
                  forall i :: 0 <= i < |s.lives| && Latest(s, i) ==> s.lives[i].row.failedAt.Some?)
  {
    var c := Chain(Q.Empty(start), {});
    RunKeeps(c, steps);
    var i := BootedHasSweep(c, steps, k);
    last := SomeIsLatest(Run(c, steps).s, i);
  }

  function PlainSteps(steps: seq<Step>): seq<Q.Step> {
    seq(|steps|, k requires 0 <= k < |steps| => Plain(steps[k]))
  }

  /** All this is about runs of the queue: so what is proved of those holds here as well. */
  lemma {:induction false} ChainIsQueueRun(c: Chain, steps: seq<Step>)
    requires Legal(c, steps)
    ensures Q.Legal(c.s, PlainSteps(steps)) && Q.Run(c.s, PlainSteps(steps)) == Run(c, steps).s
    decreases |steps|
  {
    if steps != [] {
      assert PlainSteps(steps)[1..] == PlainSteps(steps[1..]);
      ChainIsQueueRun(Next(c, steps[0]), steps[1..]);
    }
  }

  // ----- And where it ends -----

  lemma {:induction false} OneStepMore(c: Chain, steps: seq<Step>, step: Step)
    requires Legal(c, steps) && Enabled(Run(c, steps), step)
    ensures Legal(c, steps + [step]) && Run(c, steps + [step]) == Next(Run(c, steps), step)
    decreases |steps|
  {
    if steps == [] {
      assert [] + [step] == [step] && [step][1..] == [];
    } else {
      OneStepMore(Next(c, steps[0]), steps[1..], step);
      assert (steps + [step])[1..] == steps[1..] + [step];
    }
  }

  /** A state some run reaches that began with a worker booting. */
  ghost predicate Reached(c: Chain) {
    exists steps: seq<Step> :: Legal(Chain(Q.Empty(0), {}), steps) && |steps| > 0 && steps[0].Boot? && Run(Chain(Q.Empty(0), {}), steps) == c
  }

  lemma ReachedNext(c: Chain, step: Step, after: Chain)
    requires Reached(c) && Enabled(c, step) && Next(c, step) == after
    ensures Reached(after)
  {
    var steps: seq<Step> :| Legal(Chain(Q.Empty(0), {}), steps) && |steps| > 0 && steps[0].Boot? && Run(Chain(Q.Empty(0), {}), steps) == c;
    OneStepMore(Chain(Q.Empty(0), {}), steps, step);
  }

  lemma BootedIsReached()
    ensures Reached(Chain(L.OneJob(D.FIRST_SWEEP, {}, 0, 0, 0), {}))
  {
    D.SweepPutOn();
    OneStepMore(Chain(Q.Empty(0), {}), [], Boot(0));
    assert [] + [Boot(0)] == [Boot(0)];
  }

  lemma TakenIsReached(waiting: Q.System, due: Q.System, taken: Q.System)
    requires waiting == L.OneJob(D.FIRST_SWEEP, {}, 0, 0, 0) && due == waiting.(now := D.RUN_AT)
    requires taken == L.OneJob(D.TAKEN_SWEEP, {D.SWEEP_HOLD}, 1, 0, D.RUN_AT)
    ensures Reached(Chain(taken, {}))
  {
    BootedIsReached();
    ReachedNext(Chain(waiting, {}), Other(Q.Tick(D.RUN_AT)), Chain(due, {}));
    D.SweepClaimed(due, taken);
    ReachedNext(Chain(due, {}), Other(Q.Claim("w", {0}, 1)), Chain(taken, {}));
  }

  /** A worker that has no handler for it fails the sweep for good, and until some worker boots there is none. */
  lemma ChainEnds() returns (c: Chain)
    ensures Reached(c) && IsSweepAt(c.s, 0) && forall i :: 0 <= i < |c.s.lives| && IsSweepAt(c.s, i) ==> !c.s.lives[i].row.Live()
  {
    var taken := Chain(L.OneJob(D.TAKEN_SWEEP, {D.SWEEP_HOLD}, 1, 0, D.RUN_AT), {});
    TakenIsReached(L.OneJob(D.FIRST_SWEEP, {}, 0, 0, 0), L.OneJob(D.FIRST_SWEEP, {}, 0, 0, D.RUN_AT), taken.s);
    var fails := Other(Q.Fail(D.SWEEP_HOLD, "no handler", true));
    c := Next(taken, fails);
    ReachedNext(taken, fails, c);
  }
}
