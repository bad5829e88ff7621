/**
  Any number of publishers against one outbox: the locks are let go before delivery begins, so two
  may hold the same event, and any of them may die at any point.
 */
module OutboxRuns {
  import opened Wrappers
  import opened Rounding
  import opened Outbox
  import L = Listing

  type Worker = nat

  /** A pass under way: what was listed, how much of it has been tried, and what has been delivered. */
  datatype Pass = Pass(batch: seq<EventId>, done: nat, delivered: seq<EventId>)

  datatype State = State(box: Box, passes: map<Worker, Pass>)

  datatype Step =
    | Write(name: string, occurredAt: Instant)
    | Take(worker: Worker, limit: nat, locked: set<EventId>, batch: seq<EventId>)
    | Try(worker: Worker, answers: Answers)
    | Finish(worker: Worker, at: Instant)
    | Crash(worker: Worker)

  ghost predicate Enabled(s: State, step: Step) {
    match step
    case Write(_, _) => true
    case Take(worker, limit, locked, batch) => worker !in s.passes && IsBatch(s.box.rows, limit, locked, batch)
    case Try(worker, _) => worker in s.passes && s.passes[worker].done < |s.passes[worker].batch|
                           && s.passes[worker].batch[s.passes[worker].done] < |s.box.rows|
    case Finish(worker, _) => worker in s.passes && s.passes[worker].done == |s.passes[worker].batch|
    case Crash(worker) => worker in s.passes
  }

  function Next(s: State, registrations: seq<Registration>, step: Step): State
    requires Enabled(s, step)
  {
    match step
    case Write(name, occurredAt) => s.(box := s.box.(rows := s.box.rows + [Row(name, occurredAt, None, 0, None)]))
    case Take(worker, _, _, batch) => s.(passes := s.passes[worker := Pass(batch, 0, [])])
    case Try(worker, answers) =>
      var p := s.passes[worker];
      var event := p.batch[p.done];
      var delivered := if ErrorOf(s.box, registrations, event, answers).None? then p.delivered + [event] else p.delivered;
      State(Delivered(s.box, registrations, event, answers), s.passes[worker := Pass(p.batch, p.done + 1, delivered)])
    case Finish(worker, at) =>
      State(s.box.(rows := MarkPublished(s.box.rows, s.passes[worker].delivered, at)), s.passes - {worker})
    case Crash(worker) => s.(passes := s.passes - {worker})
  }

  ghost predicate Legal(s: State, registrations: seq<Registration>, steps: seq<Step>)
    decreases |steps|
  {
    steps != [] ==> Enabled(s, steps[0]) && Legal(Next(s, registrations, steps[0]), registrations, steps[1..])
  }

  ghost function Run(s: State, registrations: seq<Registration>, steps: seq<Step>): State
    requires Legal(s, registrations, steps)
    decreases |steps|
  {
    if steps == [] then s else Run(Next(s, registrations, steps[0]), registrations, steps[1..])
  }

  // ----- A pass that nothing comes between -----

  lemma {:induction false} OneStepMore(s: State, registrations: seq<Registration>, steps: seq<Step>, step: Step)
    requires Legal(s, registrations, steps) && Enabled(Run(s, registrations, steps), step)
    ensures Legal(s, registrations, steps + [step])
    ensures Run(s, registrations, steps + [step]) == Next(Run(s, registrations, steps), registrations, step)
    decreases |steps|
  {
    if steps == [] {
      assert [] + [step] == [step] && [step][1..] == [];
    } else {
      OneStepMore(Next(s, registrations, steps[0]), registrations, steps[1..], step);
      assert (steps + [step])[1..] == steps[1..] + [step];
    }
  }

  /** Taking a batch and trying so many of it. */
  function Tried(worker: Worker, limit: nat, locked: set<EventId>, batch: seq<EventId>, answers: Answers, n: nat): seq<Step> {
    if n == 0 then [Take(worker, limit, locked, batch)]
    else Tried(worker, limit, locked, batch, answers, n - 1) + [Try(worker, answers)]
  }

  function SoFar(box: Box, registrations: seq<Registration>, worker: Worker, batch: seq<EventId>, answers: Answers, n: nat): State
    requires n <= |batch| && InTable(box.rows, batch)
  {
    State(AfterBatch(box, registrations, batch[..n], answers),
          map[worker := Pass(batch, n, Healthy(box, registrations, batch[..n], answers))])
  }

  lemma OneMoreTried(box: Box, registrations: seq<Registration>, worker: Worker, batch: seq<EventId>, answers: Answers, n: nat)
    requires n < |batch| && InTable(box.rows, batch)
    ensures var mid := SoFar(box, registrations, worker, batch, answers, n);
            && Enabled(mid, Try(worker, answers))
            && Next(mid, registrations, Try(worker, answers)) == SoFar(box, registrations, worker, batch, answers, n + 1)
  {
    TryingKeepsPending(box, registrations, batch[..n], answers);
    assert batch[..n + 1][..n] == batch[..n];
  }

  lemma Continued(s: State, registrations: seq<Registration>, steps: seq<Step>, step: Step, mid: State, to: State)
    requires Legal(s, registrations, steps) && Run(s, registrations, steps) == mid
    requires Enabled(mid, step) && Next(mid, registrations, step) == to
    ensures Legal(s, registrations, steps + [step]) && Run(s, registrations, steps + [step]) == to
  {
    OneStepMore(s, registrations, steps, step);
  }

  /** A batch is taken, and then one try leads from each of these states to the one after it. */
  lemma {:induction false} TriedLeads(s: State, registrations: seq<Registration>, worker: Worker, limit: nat, locked: set<EventId>,
                                      batch: seq<EventId>, answers: Answers, mids: seq<State>, n: nat)
    requires n < |mids|
    requires Enabled(s, Take(worker, limit, locked, batch)) && Next(s, registrations, Take(worker, limit, locked, batch)) == mids[0]
    requires forall k :: 0 <= k < n ==>
      Enabled(mids[k], Try(worker, answers)) && Next(mids[k], registrations, Try(worker, answers)) == mids[k + 1]
    ensures var steps := Tried(worker, limit, locked, batch, answers, n);
            Legal(s, registrations, steps) && Run(s, registrations, steps) == mids[n]
  {
    if n == 0 {
      Continued(s, registrations, [], Take(worker, limit, locked, batch), s, mids[0]);
      assert [] + [Take(worker, limit, locked, batch)] == [Take(worker, limit, locked, batch)];
    } else {
      TriedLeads(s, registrations, worker, limit, locked, batch, answers, mids, n - 1);
      Continued(s, registrations, Tried(worker, limit, locked, batch, answers, n - 1), Try(worker, answers), mids[n - 1], mids[n]);
    }
  }

  lemma {:induction false} TriedIsBatch(box: Box, registrations: seq<Registration>, worker: Worker, limit: nat, locked: set<EventId>,
                                        batch: seq<EventId>, answers: Answers)
    requires IsBatch(box.rows, limit, locked, batch) && InTable(box.rows, batch)
    ensures var s, steps := State(box, map[]), Tried(worker, limit, locked, batch, answers, |batch|);
            Legal(s, registrations, steps) && Run(s, registrations, steps) == SoFar(box, registrations, worker, batch, answers, |batch|)
  {
    var mids := seq(|batch| + 1, n requires 0 <= n <= |batch| => SoFar(box, registrations, worker, batch, answers, n));
    NothingTried(box, registrations, worker, limit, locked, batch, answers);
    forall k | 0 <= k < |batch|
      ensures Enabled(mids[k], Try(worker, answers)) && Next(mids[k], registrations, Try(worker, answers)) == mids[k + 1]
    {
      OneMoreTried(box, registrations, worker, batch, answers, k);
    }
    TriedLeads(State(box, map[]), registrations, worker, limit, locked, batch, answers, mids, |batch|);
  }

  lemma NothingTried(box: Box, registrations: seq<Registration>, worker: Worker, limit: nat, locked: set<EventId>,
                     batch: seq<EventId>, answers: Answers)
    requires InTable(box.rows, batch) && IsBatch(box.rows, limit, locked, batch)
    ensures var s, take := State(box, map[]), Take(worker, limit, locked, batch);
            Enabled(s, take) && Next(s, registrations, take) == SoFar(box, registrations, worker, batch, answers, 0)
  {
    assert batch[..0] == [];
  }

  /** What `Drain` makes of the outbox is a run: it takes a batch, tries each event, and finishes. */
  lemma DrainIsRun(box: Box, registrations: seq<Registration>, worker: Worker, limit: nat, locked: set<EventId>,
                   batch: seq<EventId>, answers: Answers, at: Instant)
    requires IsBatch(box.rows, limit, locked, batch) && InTable(box.rows, batch)
    ensures var s, steps := State(box, map[]), Tried(worker, limit, locked, batch, answers, |batch|) + [Finish(worker, at)];
            && Legal(s, registrations, steps)
            && Run(s, registrations, steps) == State(AfterPass(box, registrations, batch, answers, at), map[])
  {
    TriedIsBatch(box, registrations, worker, limit, locked, batch, answers);
    assert batch[..|batch|] == batch;
    OneStepMore(State(box, map[]), registrations, Tried(worker, limit, locked, batch, answers, |batch|), Finish(worker, at));
    assert map[worker := Pass(batch, |batch|, Healthy(box, registrations, batch, answers))] - {worker} == map[];
  }

  // ----- Nothing is published that somebody has not had -----

  /** Every subscriber to the event has been given it, and returned. */
  ghost predicate HadByAll(box: Box, registrations: seq<Registration>, event: EventId)
    requires event < |box.rows|
  {
    forall s :: s in SubscribersFor(registrations, box.rows[event].name) ==> (event, s) in box.returned
  }

  ghost predicate Sound(s: State, registrations: seq<Registration>) {
    && (forall e :: 0 <= e < |s.box.rows| && s.box.rows[e].publishedAt.Some? ==> HadByAll(s.box, registrations, e))
    && (forall w :: w in s.passes ==> PassSound(s.box, registrations, s.passes[w]))
  }

  ghost predicate PassSound(box: Box, registrations: seq<Registration>, p: Pass) {
    forall n :: 0 <= n < |p.delivered| ==> p.delivered[n] < |box.rows| && HadByAll(box, registrations, p.delivered[n])
  }

  /** What was written stays, what was published stays so, and what was delivered stays delivered. */
  ghost predicate Grew(a: Box, b: Box) {
    && |a.rows| <= |b.rows| && a.returned <= b.returned
    && (forall e :: 0 <= e < |a.rows| ==> b.rows[e].name == a.rows[e].name && b.rows[e].occurredAt == a.rows[e].occurredAt)
    && (forall e :: 0 <= e < |a.rows| && a.rows[e].publishedAt.Some? ==> b.rows[e].publishedAt.Some?)
  }

  lemma StepGrows(s: State, registrations: seq<Registration>, step: Step)
    requires Enabled(s, step)
    ensures Grew(s.box, Next(s, registrations, step).box)
  {}

  lemma HadStays(a: Box, b: Box, registrations: seq<Registration>, event: EventId)
    requires Grew(a, b) && event < |a.rows| && HadByAll(a, registrations, event)
    ensures HadByAll(b, registrations, event)
  {}

  lemma PassStays(a: Box, b: Box, registrations: seq<Registration>, p: Pass)
    requires Grew(a, b) && PassSound(a, registrations, p)
    ensures PassSound(b, registrations, p)
  {
    forall n | 0 <= n < |p.delivered| ensures HadByAll(b, registrations, p.delivered[n]) {
      HadStays(a, b, registrations, p.delivered[n]);
    }
  }

  lemma TryDelivers(s: State, registrations: seq<Registration>, step: Step)
    requires Sound(s, registrations) && step.Try? && Enabled(s, step)
    ensures PassSound(Next(s, registrations, step).box, registrations, Next(s, registrations, step).passes[step.worker])
  {
    var after, p := Next(s, registrations, step), s.passes[step.worker];
    var event := p.batch[p.done];
    StepGrows(s, registrations, step);
    PassStays(s.box, after.box, registrations, p);
    AllReturnedIffNoError(SubscribersFor(registrations, s.box.rows[event].name), event, step.answers);
  }

  lemma StepKeepsSound(s: State, registrations: seq<Registration>, step: Step)
    requires Sound(s, registrations) && Enabled(s, step)
    ensures Sound(Next(s, registrations, step), registrations)
  {
    var after := Next(s, registrations, step);
    StepGrows(s, registrations, step);
    forall w | w in after.passes ensures PassSound(after.box, registrations, after.passes[w]) {
      if step.Try? && w == step.worker {
        TryDelivers(s, registrations, step);
      } else if w in s.passes && after.passes[w] == s.passes[w] {
        PassStays(s.box, after.box, registrations, s.passes[w]);
      }
    }
    forall e | 0 <= e < |after.box.rows| && after.box.rows[e].publishedAt.Some? ensures HadByAll(after.box, registrations, e) {
      if step.Finish? && e in s.passes[step.worker].delivered {
        var n :| 0 <= n < |s.passes[step.worker].delivered| && s.passes[step.worker].delivered[n] == e;
        assert PassSound(s.box, registrations, s.passes[step.worker]);
      }
      HadStays(s.box, after.box, registrations, e);
    }
  }

  lemma {:induction false} RunKeepsSound(s: State, registrations: seq<Registration>, steps: seq<Step>)
    requires Sound(s, registrations) && Legal(s, registrations, steps)
    ensures Sound(Run(s, registrations, steps), registrations)
    ensures Grew(s.box, Run(s, registrations, steps).box)
    decreases |steps|
  {
    if steps != [] {
      StepKeepsSound(s, registrations, steps[0]);
      StepGrows(s, registrations, steps[0]);
      RunKeepsSound(Next(s, registrations, steps[0]), registrations, steps[1..]);
    }
  }

  /**
    In every run, with publishers dying and overlapping as they may: an event is published only once
    everybody who registered for it has been given it and returned, and no event is ever lost: what
    was written is there, pending or published.
   */
  lemma {:induction false} PublishedMeansHadByAll(registrations: seq<Registration>, steps: seq<Step>,
        event: EventId, subscriber: SubscriberId)
    requires Legal(State(Box([], {}), map[]), registrations, steps)
    ensures var box := Run(State(Box([], {}), map[]), registrations, steps).box;
            && |box.rows| == Written(steps)
            && (event < |box.rows| && box.rows[event].publishedAt.Some? && Listens(registrations, subscriber, box.rows[event].name) ==>
                  (event, subscriber) in box.returned)
  {
    var start := State(Box([], {}), map[]);
    RunKeepsSound(start, registrations, steps);
    NothingIsLost(start, registrations, steps);
    var box := Run(start, registrations, steps).box;
    if event < |box.rows| { CalledIffListening(registrations, subscriber, box.rows[event].name); }
  }

  function Written(steps: seq<Step>): nat {
    if steps == [] then 0 else (if steps[0].Write? then 1 else 0) + Written(steps[1..])
  }

  lemma {:induction false} NothingIsLost(s: State, registrations: seq<Registration>, steps: seq<Step>)
    requires Legal(s, registrations, steps)
    ensures |Run(s, registrations, steps).box.rows| == |s.box.rows| + Written(steps)
    decreases |steps|
  {
    if steps != [] {
      NothingIsLost(Next(s, registrations, steps[0]), registrations, steps[1..]);
    }
  }

  /** A publisher that dies before it marks anything leaves every event it delivered to be delivered again. */
  lemma CrashMeansAgain(s: State, registrations: seq<Registration>, worker: Worker)
    requires worker in s.passes
    ensures Next(s, registrations, Crash(worker)).box == s.box
    ensures forall e :: e in s.passes[worker].delivered && e < |s.box.rows| && Pending(s.box.rows[e]) ==>
      Pending(Next(s, registrations, Crash(worker)).box.rows[e])
  {}

  // ----- What a pass leaves of each event -----

  ghost predicate Distinct(batch: seq<EventId>) {
    forall m, n :: 0 <= m < n < |batch| ==> batch[m] != batch[n]
  }

  /** One more failed try, and the error, or as much of it as the column takes. */
  predicate NotedOn(row: Row, before: Row, error: string) {
    row == before.(attempts := before.attempts + 1, lastError := Some(if |error| > 2000 then error[..2000] else error))
  }

  lemma {:induction false} TriedSays(box: Box, registrations: seq<Registration>, batch: seq<EventId>, answers: Answers, e: EventId)
    requires InTable(box.rows, batch) && Distinct(batch) && e < |box.rows|
    ensures var row, error := AfterBatch(box, registrations, batch, answers).rows[e], ErrorOf(box, registrations, e, answers);
            if e in batch && error.Some? then NotedOn(row, box.rows[e], error.value) else row == box.rows[e]
  {
    if batch != [] {
      var init, last := batch[..|batch| - 1], batch[|batch| - 1];
      TriedSays(box, registrations, init, answers, e);
      TryingKeepsPending(box, registrations, init, answers);
      assert e in batch <==> e in init || e == last;
      assert last !in init;
    }
  }

  lemma {:induction false} HealthyIff(box: Box, registrations: seq<Registration>, batch: seq<EventId>, answers: Answers, e: EventId)
    requires InTable(box.rows, batch)
    ensures e in Healthy(box, registrations, batch, answers) <==>
      e in batch && e < |box.rows| && ErrorOf(box, registrations, e, answers).None?
  {
    if batch != [] {
      var init, last := batch[..|batch| - 1], batch[|batch| - 1];
      HealthyIff(box, registrations, init, answers, e);
      assert batch == init + [last];
    }
  }

  /** After a pass an event of its batch is published at that moment, or has one more failed try and the error in its row; no other is touched. */
  lemma {:induction false} PassSays(box: Box, registrations: seq<Registration>, batch: seq<EventId>, answers: Answers, at: Instant, e: EventId)
    requires InTable(box.rows, batch) && Distinct(batch) && e < |box.rows|
    ensures |AfterPass(box, registrations, batch, answers, at).rows| == |box.rows|
    ensures var row, error := AfterPass(box, registrations, batch, answers, at).rows[e], ErrorOf(box, registrations, e, answers);
            if e !in batch then row == box.rows[e]
            else if error.Some? then NotedOn(row, box.rows[e], error.value)
            else row == box.rows[e].(publishedAt := Some(at))
  {
    TriedSays(box, registrations, batch, answers, e);
    HealthyIff(box, registrations, batch, answers, e);
  }

  /** A batch is of the events that wait and nobody has locked, and leaves none behind that happened before one of it. */
  lemma BatchSays(rows: seq<Row>, limit: nat, locked: set<EventId>, batch: seq<EventId>, e: EventId)
    requires IsBatch(rows, limit, locked, batch) && e < |rows|
    ensures Distinct(batch) && InTable(rows, batch) && |batch| <= limit
    ensures e in batch ==> rows[e].publishedAt.None? && e !in locked
    ensures rows[e].publishedAt.None? && e !in locked && e !in batch ==>
      |batch| == limit && forall n :: 0 <= n < |batch| ==> rows[batch[n]].occurredAt <= rows[e].occurredAt
  {
    var keys := PendingKeys(rows, locked);
    assert keys[e].Some? <==> rows[e].publishedAt.None? && e !in locked;
  }

  // ----- How far whole passes get -----

  function Waiting(rows: seq<Row>): set<EventId> {
    set e | 0 <= e < |rows| && Pending(rows[e])
  }

  /** The sick events are those with a subscriber that throws on them. */
  ghost predicate Ails(box: Box, registrations: seq<Registration>, sick: set<EventId>, answers: Answers) {
    forall e :: 0 <= e < |box.rows| ==> (ErrorOf(box, registrations, e, answers).Some? <==> e in sick)
  }

  lemma {:induction false} HealthyAreTheRest(box: Box, registrations: seq<Registration>, batch: seq<EventId>,
                                             answers: Answers, sick: set<EventId>)
    requires InTable(box.rows, batch) && Ails(box, registrations, sick, answers)
    ensures forall e :: e in Healthy(box, registrations, batch, answers) <==> e in batch && e !in sick
  {
    if batch != [] {
      var k := |batch| - 1;
      HealthyAreTheRest(box, registrations, batch[..k], answers, sick);
      assert forall e :: e in batch <==> e in batch[..k] || e == batch[k];
      assert ErrorOf(box, registrations, batch[k], answers).Some? <==> batch[k] in sick;
    }
  }

  /** A pass takes out of the waiting events just the healthy ones of its batch. */
  lemma PassTakes(box: Box, registrations: seq<Registration>, batch: seq<EventId>, answers: Answers, at: Instant,
                  sick: set<EventId>)
    requires InTable(box.rows, batch) && Ails(box, registrations, sick, answers)
    ensures var after := AfterPass(box, registrations, batch, answers, at);
            && Waiting(after.rows) == Waiting(box.rows) - (L.Members(batch) - sick)
            && |after.rows| == |box.rows|
            && forall e :: 0 <= e < |box.rows| ==>
                 after.rows[e].name == box.rows[e].name && after.rows[e].occurredAt == box.rows[e].occurredAt
  {
    TryingKeepsPending(box, registrations, batch, answers);
    HealthyAreTheRest(box, registrations, batch, answers, sick);
    forall e ensures e in L.Members(batch) <==> e in batch {}
  }

  /** What is left of a number once another has been taken off, never less than nothing. */
  function Less(n: int, taken: int): nat {
    if n > taken then n - taken else 0
  }

  /**
    What one completed pass does for the events waiting: the sick ones stay, and of the healthy ones
    as many go as the batch has room for beside the sick, or all of them.
   */
  ghost predicate MadeRoom(before: set<EventId>, after: set<EventId>, sick: set<EventId>, limit: nat) {
    && after * sick == before * sick
    && |after - sick| <= Less(|before - sick|, limit - |before * sick|)
    && (|before * sick| < limit && before - sick != {} ==> after - sick < before - sick)
  }

  lemma Room(before: set<EventId>, taken: set<EventId>, after: set<EventId>, sick: set<EventId>, limit: nat)
    requires taken <= before && |taken| == if |before| < limit then |before| else limit
    requires after == before - (taken - sick)
    ensures MadeRoom(before, after, sick, limit)
  {
    var waiting, gone := before - sick, taken - sick;
    L.Parted(taken, sick);
    L.Parted(before, sick);
    L.SmallerSet(taken * sick, before * sick);
    L.LeftOver(waiting, gone);
    RoomCounts(|waiting|, |gone|, |before * sick|, |taken * sick|, limit);
    OnlyHealthyGo(before, taken, after, sick);
    assert |gone| > 0 ==> exists e :: e in gone && e in waiting;
  }

  lemma RoomCounts(waiting: nat, gone: nat, stuck: nat, tried: nat, limit: nat)
    requires tried <= stuck && gone + tried == if waiting + stuck < limit then waiting + stuck else limit
    ensures waiting - gone <= Less(waiting, limit - stuck)
    ensures stuck < limit && waiting > 0 ==> gone > 0
  {}

  lemma OnlyHealthyGo(before: set<EventId>, taken: set<EventId>, after: set<EventId>, sick: set<EventId>)
    requires taken <= before && after == before - (taken - sick)
    ensures after - sick == (before - sick) - (taken - sick) && after * sick == before * sick
  {}

  lemma BatchOfWaiting(rows: seq<Row>, limit: nat, batch: seq<EventId>)
    requires IsBatch(rows, limit, {}, batch)
    ensures L.Members(batch) <= Waiting(rows)
    ensures |L.Members(batch)| == if |Waiting(rows)| < limit then |Waiting(rows)| else limit
  {
    L.ListsWhatFits(PendingKeys(rows, {}), limit, batch);
    assert L.Wanted(PendingKeys(rows, {})) == Waiting(rows);
  }

  lemma PassMakesRoom(box: Box, after: Box, registrations: seq<Registration>, batch: seq<EventId>, answers: Answers, at: Instant,
                      limit: nat, sick: set<EventId>)
    requires IsBatch(box.rows, limit, {}, batch) && Ails(box, registrations, sick, answers)
    requires after == AfterPass(box, registrations, batch, answers, at)
    ensures MadeRoom(Waiting(box.rows), Waiting(after.rows), sick, limit)
  {
    PassTakes(box, registrations, batch, answers, at, sick);
    BatchOfWaiting(box.rows, limit, batch);
    Room(Waiting(box.rows), L.Members(batch), Waiting(after.rows), sick, limit);
  }
}
