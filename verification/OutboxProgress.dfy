/**
  Which events get through, over any run of publishers that overlap, die and are written past: the
  healthy ones, exactly while a batch is not filled by failing ones that are older.
 */
module OutboxProgress {
  import opened Wrappers
  import opened Rounding
  import opened Outbox
  import opened OutboxRuns
  import L = Listing

  // ----- Events that always fail, and events that never do -----

  /** What a step tries fails exactly if it is sick. */
  ghost predicate StepAils(s: State, registrations: seq<Registration>, sick: set<EventId>, step: Step)
    requires Enabled(s, step)
  {
    step.Try? ==>
      var event := s.passes[step.worker].batch[s.passes[step.worker].done];
      ErrorOf(s.box, registrations, event, step.answers).Some? <==> event in sick
  }

  ghost predicate AlwaysAils(s: State, registrations: seq<Registration>, sick: set<EventId>, steps: seq<Step>)
    requires Legal(s, registrations, steps)
    decreases |steps|
  {
    steps != [] ==>
      && StepAils(s, registrations, sick, steps[0])
      && AlwaysAils(Next(s, registrations, steps[0]), registrations, sick, steps[1..])
  }

  /** What a pass has delivered is what was healthy of the batch as far as it has got. */
  ghost predicate Follows(p: Pass, rows: seq<Row>, sick: set<EventId>) {
    && p.done <= |p.batch| && InTable(rows, p.batch)
    && forall e :: e in p.delivered <==> e in p.batch[..p.done] && e !in sick
  }

  ghost predicate AllFollow(s: State, sick: set<EventId>) {
    forall w :: w in s.passes ==> Follows(s.passes[w], s.box.rows, sick)
  }

  lemma StepFollows(s: State, registrations: seq<Registration>, sick: set<EventId>, step: Step)
    requires AllFollow(s, sick) && Enabled(s, step) && StepAils(s, registrations, sick, step)
    ensures AllFollow(Next(s, registrations, step), sick)
  {
    var after := Next(s, registrations, step);
    forall w | w in after.passes ensures Follows(after.passes[w], after.box.rows, sick) {
      if step.Try? && w == step.worker {
        var p := s.passes[w];
        assert p.batch[..p.done + 1] == p.batch[..p.done] + [p.batch[p.done]];
      }
    }
  }

  lemma {:induction false} RunFollows(s: State, registrations: seq<Registration>, sick: set<EventId>, steps: seq<Step>)
    requires AllFollow(s, sick) && Legal(s, registrations, steps) && AlwaysAils(s, registrations, sick, steps)
    ensures AllFollow(Run(s, registrations, steps), sick)
    decreases |steps|
  {
    if steps != [] {
      StepFollows(s, registrations, sick, steps[0]);
      RunFollows(Next(s, registrations, steps[0]), registrations, sick, steps[1..]);
    }
  }

  predicate Published(rows: seq<Row>, e: EventId) {
    e < |rows| && rows[e].publishedAt.Some?
  }

  /**
    However the run went up to there, a pass that finishes publishes every healthy event of the batch it
    took, and publishes nothing else.
   */
  lemma {:induction false} FinishPublishesItsBatch(s: State, registrations: seq<Registration>, sick: set<EventId>, steps: seq<Step>,
                                                   worker: Worker, at: Instant, e: EventId)
    requires s.passes == map[] && Legal(s, registrations, steps) && AlwaysAils(s, registrations, sick, steps)
    requires Enabled(Run(s, registrations, steps), Finish(worker, at))
    ensures var t := Run(s, registrations, steps);
            Published(Next(t, registrations, Finish(worker, at)).box.rows, e)
            <==> Published(t.box.rows, e) || (e in t.passes[worker].batch && e !in sick)
  {
    RunFollows(s, registrations, sick, steps);
    var t := Run(s, registrations, steps);
    FinishPublishes(t, registrations, sick, worker, at, e);
  }

  lemma FinishPublishes(t: State, registrations: seq<Registration>, sick: set<EventId>, worker: Worker, at: Instant, e: EventId)
    requires AllFollow(t, sick) && Enabled(t, Finish(worker, at))
    ensures Published(Next(t, registrations, Finish(worker, at)).box.rows, e)
       <==> Published(t.box.rows, e) || (e in t.passes[worker].batch && e !in sick)
  {
    var p := t.passes[worker];
    assert Follows(p, t.box.rows, sick);
    assert p.batch[..p.done] == p.batch;
    if e in p.batch {
      var n :| 0 <= n < |p.batch| && p.batch[n] == e;
    }
  }

  /** No other step publishes anything. */
  lemma OthersPublishNothing(s: State, registrations: seq<Registration>, step: Step, e: EventId)
    requires Enabled(s, step) && !step.Finish?
    ensures Published(Next(s, registrations, step).box.rows, e) <==> Published(s.box.rows, e)
  {}

  lemma {:induction false} SickStayPending(s: State, registrations: seq<Registration>, sick: set<EventId>, steps: seq<Step>, e: EventId)
    requires AllFollow(s, sick) && Legal(s, registrations, steps) && AlwaysAils(s, registrations, sick, steps) && e in sick
    ensures Published(Run(s, registrations, steps).box.rows, e) <==> Published(s.box.rows, e)
    decreases |steps|
  {
    if steps != [] {
      StepFollows(s, registrations, sick, steps[0]);
      if steps[0].Finish? {
        FinishPublishes(s, registrations, sick, steps[0].worker, steps[0].at, e);
      } else {
        OthersPublishNothing(s, registrations, steps[0], e);
      }
      SickStayPending(Next(s, registrations, steps[0]), registrations, sick, steps[1..], e);
    }
  }

  lemma {:induction false} RunGrows(s: State, registrations: seq<Registration>, steps: seq<Step>)
    requires Legal(s, registrations, steps)
    ensures Grew(s.box, Run(s, registrations, steps).box)
    decreases |steps|
  {
    if steps != [] {
      StepGrows(s, registrations, steps[0]);
      RunGrows(Next(s, registrations, steps[0]), registrations, steps[1..]);
    }
  }

  // ----- How far the passes of one publisher get, whatever the others do -----

  function Completed(steps: seq<Step>, worker: Worker): nat {
    if steps == [] then 0
    else (if steps[0].Finish? && steps[0].worker == worker then 1 else 0) + Completed(steps[1..], worker)
  }

  /** No row it would have listed was locked when this publisher took its batches. */
  ghost predicate TakesFreely(steps: seq<Step>, worker: Worker, limit: nat) {
    forall k :: 0 <= k < |steps| && steps[k].Take? && steps[k].worker == worker ==> steps[k].limit == limit && steps[k].locked == {}
  }

  function PublishedOf(events: set<EventId>, rows: seq<Row>): set<EventId> {
    set f | f in events && Published(rows, f)
  }

  function HealthyOf(batch: seq<EventId>, sick: set<EventId>): set<EventId> {
    L.Members(batch) - sick
  }

  /** A batch that leaves out an event has as many healthy ones as the failing ones no younger than it leave room for. */
  lemma BatchHasRoom(rows: seq<Row>, limit: nat, batch: seq<EventId>, sick: set<EventId>, stuck: set<EventId>, e: EventId)
    requires IsBatch(rows, limit, {}, batch) && e < |rows| && Pending(rows[e]) && e !in batch
    requires forall f :: 0 <= f < |rows| && Pending(rows[f]) && f in sick && rows[f].occurredAt <= rows[e].occurredAt ==> f in stuck
    ensures |HealthyOf(batch, sick)| >= limit - |stuck|
    ensures forall f :: f in HealthyOf(batch, sick) ==> f < |rows| && Pending(rows[f]) && rows[f].occurredAt <= rows[e].occurredAt
  {
    var keys, members := PendingKeys(rows, {}), L.Members(batch);
    assert keys[e].Some?;
    L.MembersCount(batch);
    forall f | f in members ensures f < |rows| && Pending(rows[f]) && rows[f].occurredAt <= rows[e].occurredAt {
      assert keys[f].Some? && keys[f].value <= keys[e].value;
    }
    assert members * sick <= stuck;
    L.SmallerSet(members * sick, stuck);
    assert members == (members - sick) + (members * sick);
  }

  lemma PublishedGrows(events: set<EventId>, a: Box, b: Box)
    requires Grew(a, b)
    ensures PublishedOf(events, a.rows) <= PublishedOf(events, b.rows)
    ensures |PublishedOf(events, a.rows)| <= |PublishedOf(events, b.rows)|
  {
    L.SmallerSet(PublishedOf(events, a.rows), PublishedOf(events, b.rows));
  }

  /** The pass under way, if any, will publish the event or bring what is published of those ahead up to the goal. */
  ghost predicate OnCourse(s: State, worker: Worker, sick: set<EventId>, e: EventId, ahead: set<EventId>, goal: nat) {
    worker in s.passes ==>
      || e in s.passes[worker].batch
      || |PublishedOf(ahead, s.box.rows) + (HealthyOf(s.passes[worker].batch, sick) * ahead)| >= goal
  }

  /** The failing events in an event's way, and the healthy ones that must go first, by the tables at the end. */
  ghost predicate InTheWay(s: State, t: State, sick: set<EventId>, e: EventId, stuck: set<EventId>, ahead: set<EventId>)
    requires e < |t.box.rows|
  {
    forall f :: 0 <= f < |t.box.rows| && t.box.rows[f].occurredAt <= t.box.rows[e].occurredAt ==>
      && (f in sick && !Published(t.box.rows, f) ==> f in stuck)
      && (f !in sick && !Published(s.box.rows, f) ==> f in ahead)
  }

  lemma TakeStaysOnCourse(s: State, registrations: seq<Registration>, steps: seq<Step>, sick: set<EventId>, e: EventId,
                          stuck: set<EventId>, ahead: set<EventId>, limit: nat, base: nat)
    requires AllFollow(s, sick) && Legal(s, registrations, steps) && AlwaysAils(s, registrations, sick, steps)
    requires steps != [] && steps[0].Take? && steps[0].limit == limit && steps[0].locked == {}
    requires e < |s.box.rows| && e !in sick && !Published(s.box.rows, e)
    requires e < |Run(s, registrations, steps).box.rows| && InTheWay(s, Run(s, registrations, steps), sick, e, stuck, ahead)
    requires |stuck| < limit && |PublishedOf(ahead, s.box.rows)| >= base
    ensures OnCourse(Next(s, registrations, steps[0]), steps[0].worker, sick, e, ahead, base + (limit - |stuck|))
  {
    var rows, batch, t := s.box.rows, steps[0].batch, Run(s, registrations, steps);
    RunGrows(s, registrations, steps);
    if e !in batch {
      forall f | 0 <= f < |rows| && Pending(rows[f]) && f in sick && rows[f].occurredAt <= rows[e].occurredAt ensures f in stuck {
        SickStayPending(s, registrations, sick, steps, f);
      }
      BatchHasRoom(rows, limit, batch, sick, stuck, e);
      var healthy, published := HealthyOf(batch, sick), PublishedOf(ahead, rows);
      assert healthy * ahead == healthy;
      assert published !! healthy;
      assert |published + healthy| == |published| + |healthy|;
    }
  }

  lemma FinishReachesGoal(s: State, registrations: seq<Registration>, sick: set<EventId>, step: Step, e: EventId,
                          ahead: set<EventId>, goal: nat)
    requires AllFollow(s, sick) && Enabled(s, step) && step.Finish? && e !in sick
    requires OnCourse(s, step.worker, sick, e, ahead, goal)
    ensures var after := Next(s, registrations, step);
            Published(after.box.rows, e) || |PublishedOf(ahead, after.box.rows)| >= goal
  {
    var after, batch := Next(s, registrations, step), s.passes[step.worker].batch;
    FinishPublishes(s, registrations, sick, step.worker, step.at, e);
    var sum := PublishedOf(ahead, s.box.rows) + (HealthyOf(batch, sick) * ahead);
    forall f | f in sum ensures f in PublishedOf(ahead, after.box.rows) {
      FinishPublishes(s, registrations, sick, step.worker, step.at, f);
    }
    L.SmallerSet(sum, PublishedOf(ahead, after.box.rows));
  }

  lemma OthersKeepOnCourse(s: State, registrations: seq<Registration>, step: Step, worker: Worker, sick: set<EventId>, e: EventId,
                           ahead: set<EventId>, goal: nat)
    requires Enabled(s, step) && OnCourse(s, worker, sick, e, ahead, goal)
    requires !(step.Take? && step.worker == worker)
    ensures OnCourse(Next(s, registrations, step), worker, sick, e, ahead, goal)
  {
    var after := Next(s, registrations, step);
    StepGrows(s, registrations, step);
    PublishedGrows(ahead, s.box, after.box);
    if worker in after.passes {
      var healthy := HealthyOf(s.passes[worker].batch, sick) * ahead;
      assert after.passes[worker].batch == s.passes[worker].batch;
      L.SmallerSet(PublishedOf(ahead, s.box.rows) + healthy, PublishedOf(ahead, after.box.rows) + healthy);
    }
  }

  function Advanced(step: Step, worker: Worker, base: nat, room: nat): nat {
    if step.Finish? && step.worker == worker then base + room else base
  }

  function Goal(steps: seq<Step>, worker: Worker, base: nat, room: nat): nat {
    if steps == [] then base else Goal(steps[1..], worker, Advanced(steps[0], worker, base, room), room)
  }

  lemma {:induction false} GoalIs(steps: seq<Step>, worker: Worker, base: nat, room: nat)
    ensures Goal(steps, worker, base, room) == base + Completed(steps, worker) * room
  {
    if steps != [] {
      GoalIs(steps[1..], worker, Advanced(steps[0], worker, base, room), room);
      Distribute(1, Completed(steps[1..], worker), room);
    }
  }

  lemma StepAdvances(s: State, registrations: seq<Registration>, steps: seq<Step>, worker: Worker, sick: set<EventId>, e: EventId,
                     stuck: set<EventId>, ahead: set<EventId>, limit: nat, base: nat, room: nat)
    requires steps != [] && AllFollow(s, sick) && Legal(s, registrations, steps) && AlwaysAils(s, registrations, sick, steps)
    requires TakesFreely(steps, worker, limit) && e < |s.box.rows| && e !in sick && !Published(s.box.rows, e)
    requires e < |Run(s, registrations, steps).box.rows| && InTheWay(s, Run(s, registrations, steps), sick, e, stuck, ahead)
    requires room > 0 && |stuck| + room == limit && |PublishedOf(ahead, s.box.rows)| >= base
    requires OnCourse(s, worker, sick, e, ahead, base + room)
    ensures var next, to := Next(s, registrations, steps[0]), Advanced(steps[0], worker, base, room);
            || Published(next.box.rows, e)
            || (|PublishedOf(ahead, next.box.rows)| >= to && OnCourse(next, worker, sick, e, ahead, to + room))
  {
    var step, next := steps[0], Next(s, registrations, steps[0]);
    StepGrows(s, registrations, step);
    PublishedGrows(ahead, s.box, next.box);
    if step.Finish? && step.worker == worker {
      FinishReachesGoal(s, registrations, sick, step, e, ahead, base + room);
    } else if step.Take? && step.worker == worker {
      TakeStaysOnCourse(s, registrations, steps, sick, e, stuck, ahead, limit, base);
    } else {
      OthersKeepOnCourse(s, registrations, step, worker, sick, e, ahead, base + room);
    }
  }

  lemma StillInTheWay(s: State, next: State, t: State, sick: set<EventId>, e: EventId, stuck: set<EventId>, ahead: set<EventId>)
    requires e < |t.box.rows| && InTheWay(s, t, sick, e, stuck, ahead) && Grew(s.box, next.box)
    ensures InTheWay(next, t, sick, e, stuck, ahead)
  {}

  lemma {:induction false} PassesAddUp(s: State, registrations: seq<Registration>, steps: seq<Step>, worker: Worker, sick: set<EventId>,
                                       e: EventId, stuck: set<EventId>, ahead: set<EventId>, limit: nat, base: nat, room: nat)
    requires AllFollow(s, sick) && Legal(s, registrations, steps) && AlwaysAils(s, registrations, sick, steps)
    requires TakesFreely(steps, worker, limit) && e < |s.box.rows| && e !in sick
    requires e < |Run(s, registrations, steps).box.rows| && InTheWay(s, Run(s, registrations, steps), sick, e, stuck, ahead)
    requires room > 0 && |stuck| + room == limit && |PublishedOf(ahead, s.box.rows)| >= base
    requires OnCourse(s, worker, sick, e, ahead, base + room)
    ensures var t := Run(s, registrations, steps);
            Published(t.box.rows, e) || |PublishedOf(ahead, t.box.rows)| >= Goal(steps, worker, base, room)
    decreases |steps|
  {
    if Published(s.box.rows, e) {
      RunGrows(s, registrations, steps);
    } else if steps != [] {
      var next := Next(s, registrations, steps[0]);
      StepFollows(s, registrations, sick, steps[0]);
      StepGrows(s, registrations, steps[0]);
      StillInTheWay(s, next, Run(s, registrations, steps), sick, e, stuck, ahead);
      StepAdvances(s, registrations, steps, worker, sick, e, stuck, ahead, limit, base, room);
      if Published(next.box.rows, e) {
        RunGrows(next, registrations, steps[1..]);
      } else {
        PassesAddUp(next, registrations, steps[1..], worker, sick, e, stuck, ahead, limit,
                    Advanced(steps[0], worker, base, room), room);
      }
    }
  }

  /** Failing events waiting at the end that are no younger than this one. */
  function Stuck(t: State, sick: set<EventId>, e: EventId): set<EventId>
    requires e < |t.box.rows|
  {
    set f | 0 <= f < |t.box.rows| && f in sick && Pending(t.box.rows[f]) && t.box.rows[f].occurredAt <= t.box.rows[e].occurredAt
  }

  /** Healthy events no younger than this one, itself among them, that waited at the start or were written since. */
  function Ahead(s: State, t: State, sick: set<EventId>, e: EventId): set<EventId>
    requires e < |t.box.rows|
  {
    set f | 0 <= f < |t.box.rows| && f !in sick && !Published(s.box.rows, f) && t.box.rows[f].occurredAt <= t.box.rows[e].occurredAt
  }

  /**
    In any run, with publishers overlapping and dying, others' locks held, and events of any date written
    in between: while fewer failing events than a batch holds are in its way, a healthy event is published
    once any one publisher has completed enough passes that it took freely. Each completed pass brings at
    least the batch's remaining room of the healthy events ahead, so this many are enough.
   */
  lemma HealthyEventIsPublished(s: State, t: State, registrations: seq<Registration>, steps: seq<Step>, worker: Worker,
                                sick: set<EventId>, e: EventId, limit: nat)
    requires AllFollow(s, sick) && worker !in s.passes && e < |s.box.rows| && e !in sick
    requires Legal(s, registrations, steps) && AlwaysAils(s, registrations, sick, steps) && TakesFreely(steps, worker, limit)
    requires t == Run(s, registrations, steps) && e < |t.box.rows|
    requires |Stuck(t, sick, e)| < limit
    requires Completed(steps, worker) * (limit - |Stuck(t, sick, e)|) >= |Ahead(s, t, sick, e)|
    ensures Published(t.box.rows, e)
  {
    var stuck, ahead := Stuck(t, sick, e), Ahead(s, t, sick, e);
    RunGrows(s, registrations, steps);
    PassesAddUp(s, registrations, steps, worker, sick, e, stuck, ahead, limit, 0, limit - |stuck|);
    GoalIs(steps, worker, 0, limit - |stuck|);
    var published := PublishedOf(ahead, t.box.rows);
    if |published| >= |ahead| {
      AllOfThem(published, ahead);
      assert Published(s.box.rows, e) || e in ahead;
    }
  }

  lemma AllOfThem(a: set<EventId>, b: set<EventId>)
    requires a <= b && |a| >= |b|
    ensures a == b
  {
    assert |b - a| == |b| - |a|;
    assert b == a + (b - a);
  }

  // ----- Exactly which healthy events get through -----

  ghost predicate AllTakeFreely(steps: seq<Step>, limit: nat) {
    forall k :: 0 <= k < |steps| && steps[k].Take? ==> steps[k].limit == limit && steps[k].locked == {}
  }

  /** Failing events waiting that are older than this one. */
  function OlderSick(rows: seq<Row>, sick: set<EventId>, e: EventId): set<EventId>
    requires e < |rows|
  {
    set f | 0 <= f < |rows| && f in sick && Pending(rows[f]) && rows[f].occurredAt < rows[e].occurredAt
  }

  ghost predicate NobodyHas(s: State, e: EventId) {
    forall w :: w in s.passes ==> e !in s.passes[w].batch
  }

  lemma OlderSickStay(s: State, registrations: seq<Registration>, sick: set<EventId>, step: Step, e: EventId)
    requires AllFollow(s, sick) && Enabled(s, step) && e < |s.box.rows|
    ensures e < |Next(s, registrations, step).box.rows|
    ensures OlderSick(s.box.rows, sick, e) <= OlderSick(Next(s, registrations, step).box.rows, sick, e)
  {
    StepGrows(s, registrations, step);
    forall f | f in OlderSick(s.box.rows, sick, e) ensures !Published(Next(s, registrations, step).box.rows, f) {
      if step.Finish? {
        FinishPublishes(s, registrations, sick, step.worker, step.at, f);
      } else {
        OthersPublishNothing(s, registrations, step, f);
      }
    }
  }

  lemma TakenByNobody(s: State, registrations: seq<Registration>, sick: set<EventId>, step: Step, e: EventId, limit: nat)
    requires AllFollow(s, sick) && Enabled(s, step) && (step.Take? ==> step.limit == limit && step.locked == {})
    requires e < |s.box.rows| && Pending(s.box.rows[e]) && NobodyHas(s, e) && |OlderSick(s.box.rows, sick, e)| >= limit
    ensures var next := Next(s, registrations, step);
            e < |next.box.rows| && Pending(next.box.rows[e]) && NobodyHas(next, e)
  {
    StepGrows(s, registrations, step);
    if step.Take? {
      var keys, front := PendingKeys(s.box.rows, {}), OlderSick(s.box.rows, sick, e);
      forall f | f in front ensures f in L.Wanted(keys) { assert keys[f].Some?; }
      assert keys[e].Some?;
      L.ShutOut(keys, limit, step.batch, front, e);
    } else if step.Finish? {
      FinishPublishes(s, registrations, sick, step.worker, step.at, e);
    } else {
      OthersPublishNothing(s, registrations, step, e);
    }
  }

  /** An event behind a full batch of older failing ones is never published, whatever happens and however long it goes on. */
  lemma {:induction false} BehindFullBatch(s: State, registrations: seq<Registration>, steps: seq<Step>, sick: set<EventId>,
                                           e: EventId, limit: nat)
    requires AllFollow(s, sick) && Legal(s, registrations, steps) && AlwaysAils(s, registrations, sick, steps)
    requires AllTakeFreely(steps, limit) && e < |s.box.rows| && Pending(s.box.rows[e]) && NobodyHas(s, e)
    requires |OlderSick(s.box.rows, sick, e)| >= limit
    ensures !Published(Run(s, registrations, steps).box.rows, e)
    decreases |steps|
  {
    if steps != [] {
      var next := Next(s, registrations, steps[0]);
      StepFollows(s, registrations, sick, steps[0]);
      TakenByNobody(s, registrations, sick, steps[0], e, limit);
      OlderSickStay(s, registrations, sick, steps[0], e);
      L.SmallerSet(OlderSick(s.box.rows, sick, e), OlderSick(next.box.rows, sick, e));
      BehindFullBatch(next, registrations, steps[1..], sick, e, limit);
    }
  }

  /** Events are written after this one happened. */
  ghost predicate WrittenLater(steps: seq<Step>, moment: Instant) {
    forall k :: 0 <= k < |steps| && steps[k].Write? ==> steps[k].occurredAt > moment
  }

  lemma LaterRow(s: State, registrations: seq<Registration>, step: Step, moment: Instant, f: EventId)
    requires Enabled(s, step) && (step.Write? ==> step.occurredAt > moment)
    requires |s.box.rows| <= f < |Next(s, registrations, step).box.rows|
    ensures Next(s, registrations, step).box.rows[f].occurredAt > moment
  {}

  lemma {:induction false} LaterRows(s: State, t: State, registrations: seq<Registration>, steps: seq<Step>, moment: Instant, f: EventId)
    requires Legal(s, registrations, steps) && WrittenLater(steps, moment) && t == Run(s, registrations, steps)
    requires |s.box.rows| <= f < |t.box.rows|
    ensures t.box.rows[f].occurredAt > moment
    decreases |steps|
  {
    if steps != [] {
      var next, rest := Next(s, registrations, steps[0]), steps[1..];
      assert forall k :: 0 <= k < |rest| ==> rest[k] == steps[k + 1];
      if f < |next.box.rows| {
        LaterRow(s, registrations, steps[0], moment, f);
        RunGrows(next, registrations, rest);
      } else {
        LaterRows(next, t, registrations, rest, moment, f);
      }
    }
  }

  /** Healthy events waiting that are no younger than this one, itself among them. */
  function HealthyUpTo(rows: seq<Row>, sick: set<EventId>, e: EventId): set<EventId>
    requires e < |rows|
  {
    set f | 0 <= f < |rows| && f !in sick && Pending(rows[f]) && rows[f].occurredAt <= rows[e].occurredAt
  }

  ghost predicate NoFailingTwin(rows: seq<Row>, sick: set<EventId>, e: EventId)
    requires e < |rows|
  {
    forall f :: 0 <= f < |rows| && f in sick && Pending(rows[f]) ==> rows[f].occurredAt != rows[e].occurredAt
  }

  /** Nothing written since counts among those up to this one. */
  lemma OnlyThoseAtTheStart(s: State, t: State, registrations: seq<Registration>, steps: seq<Step>, e: EventId, f: EventId)
    requires e < |s.box.rows| && Legal(s, registrations, steps) && t == Run(s, registrations, steps)
    requires WrittenLater(steps, s.box.rows[e].occurredAt)
    ensures e < |t.box.rows| && t.box.rows[e].occurredAt == s.box.rows[e].occurredAt
    ensures f < |t.box.rows| && t.box.rows[f].occurredAt <= t.box.rows[e].occurredAt ==>
      && f < |s.box.rows| && s.box.rows[f].occurredAt == t.box.rows[f].occurredAt
      && (Published(s.box.rows, f) ==> Published(t.box.rows, f))
  {
    RunGrows(s, registrations, steps);
    if |s.box.rows| <= f < |t.box.rows| {
      LaterRows(s, t, registrations, steps, s.box.rows[e].occurredAt, f);
    }
  }

  lemma CountedAtTheStart(s: State, t: State, registrations: seq<Registration>, steps: seq<Step>, sick: set<EventId>, e: EventId)
    requires e < |s.box.rows| && Legal(s, registrations, steps) && t == Run(s, registrations, steps)
    requires NoFailingTwin(s.box.rows, sick, e) && WrittenLater(steps, s.box.rows[e].occurredAt)
    ensures e < |t.box.rows|
    ensures |Stuck(t, sick, e)| <= |OlderSick(s.box.rows, sick, e)|
    ensures |Ahead(s, t, sick, e)| <= |HealthyUpTo(s.box.rows, sick, e)|
  {
    OnlyThoseAtTheStart(s, t, registrations, steps, e, e);
    var stuck, ahead := Stuck(t, sick, e), Ahead(s, t, sick, e);
    forall f | f in stuck ensures f in OlderSick(s.box.rows, sick, e) {
      OnlyThoseAtTheStart(s, t, registrations, steps, e, f);
    }
    forall f | f in ahead ensures f in HealthyUpTo(s.box.rows, sick, e) {
      OnlyThoseAtTheStart(s, t, registrations, steps, e, f);
    }
    L.SmallerSet(stuck, OlderSick(s.box.rows, sick, e));
    L.SmallerSet(ahead, HealthyUpTo(s.box.rows, sick, e));
  }

  lemma {:induction false} FewOlderSickLetThrough(s: State, t: State, registrations: seq<Registration>, steps: seq<Step>,
                                                  worker: Worker, sick: set<EventId>, e: EventId, limit: nat)
    requires s.passes == map[] && e < |s.box.rows| && e !in sick && NoFailingTwin(s.box.rows, sick, e)
    requires Legal(s, registrations, steps) && AlwaysAils(s, registrations, sick, steps) && t == Run(s, registrations, steps)
    requires TakesFreely(steps, worker, limit) && WrittenLater(steps, s.box.rows[e].occurredAt)
    requires Completed(steps, worker) >= |HealthyUpTo(s.box.rows, sick, e)| && |OlderSick(s.box.rows, sick, e)| < limit
    ensures Published(t.box.rows, e)
  {
    CountedAtTheStart(s, t, registrations, steps, sick, e);
    AtLeastAsMany(Completed(steps, worker), limit - |Stuck(t, sick, e)|);
    HealthyEventIsPublished(s, t, registrations, steps, worker, sick, e, limit);
  }

  /**
    A healthy event is ever published exactly if fewer failing events than a batch holds are older than it:
    then it is out once any publisher has completed as many passes as there are healthy events up to it, and
    otherwise never, whoever overlaps, dies or writes meanwhile.
   */
  lemma {:induction false} PublishedIffFewOlderSick(s: State, t: State, registrations: seq<Registration>, steps: seq<Step>,
                                                    worker: Worker, sick: set<EventId>, e: EventId, limit: nat)
    requires s.passes == map[] && e < |s.box.rows| && Pending(s.box.rows[e]) && e !in sick
    requires NoFailingTwin(s.box.rows, sick, e)
    requires Legal(s, registrations, steps) && AlwaysAils(s, registrations, sick, steps) && t == Run(s, registrations, steps)
    requires AllTakeFreely(steps, limit) && WrittenLater(steps, s.box.rows[e].occurredAt)
    requires Completed(steps, worker) >= |HealthyUpTo(s.box.rows, sick, e)|
    ensures Published(t.box.rows, e) <==> |OlderSick(s.box.rows, sick, e)| < limit
  {
    if |OlderSick(s.box.rows, sick, e)| >= limit {
      BehindFullBatch(s, registrations, steps, sick, e, limit);
    } else {
      FewOlderSickLetThrough(s, t, registrations, steps, worker, sick, e, limit);
    }
  }

  lemma AtLeastAsMany(n: nat, room: nat)
    requires room > 0
    ensures n * room >= n
  {
    Distribute(room - 1, 1, n);
    assert (room - 1) * n >= 0;
  }

  const FAILING := Row("a", 0, None, 0, None)
  const HEALTHY := Row("b", 1, None, 0, None)

  /** One failing event is enough to shut out a younger one where a batch holds one, in every run from there. */
  lemma {:induction false} OneFailingShutsOut(registrations: seq<Registration>, s: State, steps: seq<Step>)
    requires s == State(Box([FAILING, HEALTHY], {}), map[])
    requires Legal(s, registrations, steps) && AlwaysAils(s, registrations, {0}, steps) && AllTakeFreely(steps, 1)
    ensures var empty, written := State(Box([], {}), map[]), [Write("a", 0), Write("b", 1)];
            Legal(empty, registrations, written) && Run(empty, registrations, written) == s
    ensures !Published(Run(s, registrations, steps).box.rows, 1)
  {
    TwoWritten(registrations, s);
    assert OlderSick(s.box.rows, {0}, 1) == {0};
    BehindFullBatch(s, registrations, steps, {0}, 1, 1);
  }

  lemma TwoWritten(registrations: seq<Registration>, s: State)
    requires s == State(Box([FAILING, HEALTHY], {}), map[])
    ensures var empty, written := State(Box([], {}), map[]), [Write("a", 0), Write("b", 1)];
            Legal(empty, registrations, written) && Run(empty, registrations, written) == s
  {
    var empty := State(Box([], {}), map[]);
    OneStepMore(empty, registrations, [], Write("a", 0));
    assert [] + [Write("a", 0)] == [Write("a", 0)];
    var one := State(Box([FAILING], {}), map[]);
    assert [] + [FAILING] == [FAILING] && Run(empty, registrations, [Write("a", 0)]) == one;
    OneStepMore(empty, registrations, [Write("a", 0)], Write("b", 1));
    assert [Write("a", 0)] + [Write("b", 1)] == [Write("a", 0), Write("b", 1)];
    assert [FAILING] + [HEALTHY] == [FAILING, HEALTHY];
  }
}
