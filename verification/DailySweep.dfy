/** The daily sweep job, which enqueues its own successor. */
module DailySweep {
  import opened Wrappers
  import opened JobQueue
  import opened QueueRuns
  import L = LeaseDiscipline

  const DAY: int := 86_400_000
  /** 06:00 at UTC+4, in milliseconds after midnight UTC. */
  const RUN_AT: int := (6 - 4) * 3_600_000
  const DAILY_SWEEP := "schedule.daily"

  function RunOf(day: int): Instant {
    day * DAY + RUN_AT
  }

  function NextDailyRun(after: Instant): Instant {
    var candidate := RunOf(after / DAY);
    if candidate <= after then candidate + DAY else candidate
  }

  /** It is the first moment of that kind strictly after the given one. */
  lemma NextDailyRunIsLeast(after: Instant, run: Instant)
    ensures after < NextDailyRun(after) && NextDailyRun(after) % DAY == RUN_AT
    ensures NextDailyRun(after) == RunOf(NextDailyRun(after) / DAY)
    ensures run % DAY == RUN_AT && after < run ==> NextDailyRun(after) <= run
  {}

  function SweepKey(day: int): NaturalKey {
    NaturalKey(DAILY_SWEEP, [day])
  }

  function SweepRequest(after: Instant): JobRequest {
    var runAt := NextDailyRun(after);
    JobRequest(DAILY_SWEEP, map[], Some(runAt), Some(5), None, Some(SweepKey(runAt / DAY)))
  }

  method ScheduleNextDailySweep(queue: PostgresJobQueue, after: Instant, now: Instant)
    requires queue.Valid()
    modifies queue
    ensures queue.Valid()
    ensures queue.jobs == AfterEnqueue(old(queue.jobs), SweepRequest(after), now)
  {
    var runAt := NextDailyRun(after);
    var _ := queue.Enqueue(
      JobRequest(DAILY_SWEEP, map[], Some(runAt), Some(5), None, Some(SweepKey(runAt / DAY))), now);
  }

  predicate IsSweep(key: Option<NaturalKey>) {
    key.Some? && key.value.kind == DAILY_SWEEP
  }

  /**
    How sweeps are put on the queue: only as above, from a clock reading no later than now, and with
    no two o'clock passing between the reading and the insert.
   */
  ghost predicate Prompt(s: System, step: Step) {
    step.Enqueue? && IsSweep(step.request.uniqueKey) ==>
      exists after :: step.request == SweepRequest(after) && after <= s.now < NextDailyRun(after)
  }

  ghost predicate AlwaysPrompt(s: System, steps: seq<Step>)
    requires Legal(s, steps)
    decreases |steps|
  {
    steps != [] ==> Prompt(s, steps[0]) && AlwaysPrompt(Next(s, steps[0]), steps[1..])
  }

  /** A sweep whose hour has not come is still waiting, untouched. */
  ghost predicate Waiting(l: Life, now: Instant) {
    IsSweep(l.row.uniqueKey) ==>
      && |l.row.uniqueKey.value.parts| == 1
      && var run := RunOf(l.row.uniqueKey.value.parts[0]);
         now < run ==> l.row.Live() && l.row.Unclaimed() && l.row.runAt == run && l.holds == {}
  }

  ghost predicate OnePerDay(s: System) {
    && (forall i :: 0 <= i < |s.lives| ==> Waiting(s.lives[i], s.now))
    && (forall i, j :: 0 <= i < j < |s.lives| && IsSweep(s.lives[i].row.uniqueKey) ==>
          s.lives[i].row.uniqueKey != s.lives[j].row.uniqueKey)
  }

  lemma EnqueueKeepsOnePerDay(s: System, request: JobRequest)
    requires OnePerDay(s) && Prompt(s, Enqueue(request))
    ensures OnePerDay(Next(s, Enqueue(request)))
  {
    var t := Next(s, Enqueue(request));
    if IsSweep(request.uniqueKey) && |t.lives| > |s.lives| {
      var after :| request == SweepRequest(after) && after <= s.now < NextDailyRun(after);
      NextDailyRunIsLeast(after, 0);
      forall i | 0 <= i < |s.lives| ensures s.lives[i].row.uniqueKey != request.uniqueKey {
        assert Waiting(s.lives[i], s.now);
        assert Rows(s)[i] == s.lives[i].row;
      }
    }
  }

  lemma StepKeepsOnePerDay(s: System, step: Step)
    requires OnePerDay(s) && Enabled(s, step) && Prompt(s, step)
    ensures OnePerDay(Next(s, step))
  {
    if step.Enqueue? {
      EnqueueKeepsOnePerDay(s, step.request);
    } else {
      var t := Next(s, step);
      forall i | 0 <= i < |s.lives|
        ensures t.lives[i].row.uniqueKey == s.lives[i].row.uniqueKey && Waiting(t.lives[i], t.now)
      {
        assert Waiting(s.lives[i], s.now);
        assert Rows(s)[i] == s.lives[i].row;
      }
    }
  }

  lemma {:induction false} RunKeepsOnePerDay(s: System, steps: seq<Step>)
    requires OnePerDay(s) && Legal(s, steps) && AlwaysPrompt(s, steps)
    ensures OnePerDay(Run(s, steps))
    decreases |steps|
  {
    if steps != [] {
      StepKeepsOnePerDay(s, steps[0]);
      RunKeepsOnePerDay(Next(s, steps[0]), steps[1..]);
    }
  }

  /**
    However many workers boot, sweep, crash and take each other's jobs: no day is ever given a
    second sweep, finished ones counted, and none is touched before its hour.
   */
  lemma {:induction false} OneSweepPerDay(start: Instant, steps: seq<Step>, i: JobId, j: JobId, day: int)
    requires Legal(Empty(start), steps) && AlwaysPrompt(Empty(start), steps)
    requires var lives := Run(Empty(start), steps).lives;
             && i < |lives| && lives[i].row.uniqueKey == Some(SweepKey(day))
             && j < |lives| && lives[j].row.uniqueKey == Some(SweepKey(day))
    ensures i == j
    ensures var s := Run(Empty(start), steps);
            s.now < RunOf(day) ==> s.lives[i].row.Live() && s.lives[i].row.runAt == RunOf(day) && s.lives[i].holds == {}
  {
    RunKeepsOnePerDay(Empty(start), steps);
    assert Waiting(Run(Empty(start), steps).lives[i], Run(Empty(start), steps).now);
  }

  /**
    Why the clock reading must be fresh: a sweep put on the queue from a stale one gets a second row
    for its day exactly when that day's sweep is no longer live.
   */
  lemma StaleReadingDuplicates(s: System, after: Instant)
    ensures var day := NextDailyRun(after) / DAY;
            Next(s, Enqueue(SweepRequest(after))) != s <==>
              forall i :: 0 <= i < |s.lives| && s.lives[i].row.uniqueKey == Some(SweepKey(day)) ==>
                !s.lives[i].row.Live()
  {
    assert DAILY_SWEEP[0] != ' ';
    var t := Next(s, Enqueue(SweepRequest(after)));
    forall i | 0 <= i < |s.lives| ensures Rows(s)[i] == s.lives[i].row {}
    assert EnqueueOutcomeOf(Rows(s), SweepRequest(after), s.now).Inserted? <==> |t.lives| == |s.lives| + 1;
    assert |t.lives| == |s.lives| ==> t == s;
  }

  const FIRST_SWEEP := NewRow(SweepRequest(0), 0)
  const TAKEN_SWEEP := FIRST_SWEEP.Claim("w", RUN_AT, RUN_AT + 1000)
  const SWEEP_HOLD := Hold("w", TAKEN_SWEEP.Handed(0), RUN_AT + 1000)

  lemma SweepPutOn()
    ensures Next(Empty(0), Enqueue(SweepRequest(0))) == L.OneJob(FIRST_SWEEP, {}, 0, 0, 0)
  {
    assert DAILY_SWEEP[0] != ' ';
  }

  lemma SweepClaimed(s: System, taken: System)
    requires s == L.OneJob(FIRST_SWEEP, {}, 0, 0, RUN_AT) && taken == L.OneJob(TAKEN_SWEEP, {SWEEP_HOLD}, 1, 0, RUN_AT)
    ensures Enabled(s, Claim("w", {0}, 1)) && Next(s, Claim("w", {0}, 1)) == taken
  {
    L.Claims(FIRST_SWEEP, {}, 0, 0, RUN_AT, "w");
    assert {} + {SWEEP_HOLD} == {SWEEP_HOLD};
  }

  lemma SweepTaken(waiting: System, due: System, taken: System)
    requires waiting == L.OneJob(FIRST_SWEEP, {}, 0, 0, 0) && due == waiting.(now := RUN_AT)
    requires taken == L.OneJob(TAKEN_SWEEP, {SWEEP_HOLD}, 1, 0, RUN_AT)
    ensures L.Leads(Empty(0), taken)
  {
    L.LeadsNowhere(Empty(0));
    SweepPutOn();
    L.LeadsOn(Empty(0), Empty(0), Enqueue(SweepRequest(0)), waiting);
    L.LeadsOn(Empty(0), waiting, Tick(RUN_AT), due);
    SweepClaimed(due, taken);
    L.LeadsOn(Empty(0), due, Claim("w", {0}, 1), taken);
  }

  /** A clock read before two o'clock, and used after that day's sweep is done: the day has two. */
  lemma TwoSweepsOneDay() returns (s: System)
    ensures L.Leads(Empty(0), s)
    ensures |s.lives| == 2 && forall i :: 0 <= i < 2 ==> s.lives[i].row.uniqueKey == Some(SweepKey(0))
  {
    var taken := L.OneJob(TAKEN_SWEEP, {SWEEP_HOLD}, 1, 0, RUN_AT);
    SweepTaken(L.OneJob(FIRST_SWEEP, {}, 0, 0, 0), L.OneJob(FIRST_SWEEP, {}, 0, 0, RUN_AT), taken);
    var swept := Next(taken, Complete(SWEEP_HOLD));
    L.LeadsOn(Empty(0), taken, Complete(SWEEP_HOLD), swept);
    StaleReadingDuplicates(swept, 0);
    s := Next(swept, Enqueue(SweepRequest(0)));
    L.LeadsOn(Empty(0), swept, Enqueue(SweepRequest(0)), s);
  }

  /** The next sweep's job: two o'clock UTC of the first day on which that is still to come, before ordinary work. */
  lemma SweepJobIs(after: Instant, now: Instant, run: Instant)
    ensures var row := NewRow(SweepRequest(after), now);
            && row.name == "schedule.daily" && row.priority == 5 && row.maxAttempts == 5
            && row.runAt > after && row.runAt % 86_400_000 == 7_200_000 && row.runAt - after <= 86_400_000
            && row.uniqueKey == Some(NaturalKey("schedule.daily", [row.runAt / 86_400_000]))
            && (run > after && run % 86_400_000 == 7_200_000 ==> row.runAt <= run)
  {
    NextDailyRunIsLeast(after, run);
  }
}
