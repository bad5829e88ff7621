/** The ladder that chases clients for papers: its rungs are jobs, and each rung is told about once. */
module Escalations {
  import opened Wrappers
  import opened Rounding
  import opened Text
  import opened JobQueue
  import opened Alerts

  const ESCALATION_JOB := "deadlines.escalate"
  const STUCK: set<string> := {"awaiting_documents", "waiting_for_client"}

  // ----- The ladder -----

  datatype LadderRung = LadderRung(stage: string, dueOn: JobQueue.Instant)

  datatype StuckProject = StuckProject(id: nat, client: nat, createdAt: JobQueue.Instant, dueAt: Option<JobQueue.Instant>)

  const REMIND_CLIENT_AFTER := 7
  const ALERT_ACCOUNTANT_AFTER := 14
  const ALERT_MANAGER_BEFORE := 5

  /** Two rungs count on from the request, one back from the deadline; that one is left out if it falls before the request. */
  function Rungs(project: StuckProject): seq<LadderRung> {
    [LadderRung("client_reminder", project.createdAt + REMIND_CLIENT_AFTER * DAY),
     LadderRung("accountant_alert", project.createdAt + ALERT_ACCOUNTANT_AFTER * DAY)]
    + if project.dueAt.Some? && project.dueAt.value - ALERT_MANAGER_BEFORE * DAY > project.createdAt then
        [LadderRung("manager_alert", project.dueAt.value - ALERT_MANAGER_BEFORE * DAY)]
      else []
  }

  /** After every rung due no later. */
  function Placed(ladder: seq<LadderRung>, rung: LadderRung): seq<LadderRung> {
    if ladder == [] || ladder[|ladder| - 1].dueOn <= rung.dueOn then ladder + [rung]
    else Placed(ladder[..|ladder| - 1], rung) + [ladder[|ladder| - 1]]
  }

  function ByDate(rungs: seq<LadderRung>): seq<LadderRung> {
    if rungs == [] then [] else Placed(ByDate(rungs[..|rungs| - 1]), rungs[|rungs| - 1])
  }

  function Ladder(project: StuckProject): seq<LadderRung> {
    ByDate(Rungs(project))
  }

  ghost predicate InOrder(ladder: seq<LadderRung>) {
    forall i, j :: 0 <= i < j < |ladder| ==> ladder[i].dueOn <= ladder[j].dueOn
  }

  ghost predicate OncePerStage(ladder: seq<LadderRung>) {
    forall i, j :: 0 <= i < j < |ladder| ==> ladder[i].stage != ladder[j].stage
  }

  ghost predicate IsPlaced(ladder: seq<LadderRung>, rung: LadderRung, placed: seq<LadderRung>) {
    && InOrder(placed) && OncePerStage(placed)
    && forall r :: r in placed <==> r in ladder || r == rung
  }

  lemma {:induction false} PlacedIs(ladder: seq<LadderRung>, rung: LadderRung)
    requires InOrder(ladder) && OncePerStage(ladder) && forall r :: r in ladder ==> r.stage != rung.stage
    ensures IsPlaced(ladder, rung, Placed(ladder, rung))
  {
    if ladder != [] && ladder[|ladder| - 1].dueOn > rung.dueOn {
      var init, last := ladder[..|ladder| - 1], ladder[|ladder| - 1];
      assert ladder == init + [last];
      PlacedIs(init, rung);
      PlacedBefore(init, last, rung, Placed(init, rung));
    } else {
      PutLast(ladder, rung);
    }
  }

  lemma PlacedBefore(init: seq<LadderRung>, last: LadderRung, rung: LadderRung, placed: seq<LadderRung>)
    requires InOrder(init + [last]) && OncePerStage(init + [last]) && IsPlaced(init, rung, placed)
    requires last.dueOn > rung.dueOn && last.stage != rung.stage
    ensures IsPlaced(init + [last], rung, placed + [last])
  {
    forall r | r in placed ensures r.dueOn <= last.dueOn && r.stage != last.stage {
      if r in init {
        var i :| 0 <= i < |init| && init[i] == r;
        assert (init + [last])[i] == r && (init + [last])[|init|] == last;
      }
    }
    PutLast(placed, last);
  }

  lemma PutLast(ladder: seq<LadderRung>, last: LadderRung)
    requires InOrder(ladder) && OncePerStage(ladder)
    requires ladder == [] || ladder[|ladder| - 1].dueOn <= last.dueOn || forall r :: r in ladder ==> r.dueOn <= last.dueOn
    requires forall r :: r in ladder ==> r.stage != last.stage
    ensures InOrder(ladder + [last]) && OncePerStage(ladder + [last])
  {
    forall i | 0 <= i < |ladder| ensures ladder[i].dueOn <= last.dueOn && ladder[i].stage != last.stage {
      assert ladder[i] in ladder;
      assert i < |ladder| - 1 ==> ladder[i].dueOn <= ladder[|ladder| - 1].dueOn;
    }
  }

  lemma {:induction false} ByDateIs(rungs: seq<LadderRung>)
    requires OncePerStage(rungs)
    ensures InOrder(ByDate(rungs)) && OncePerStage(ByDate(rungs))
    ensures forall r :: r in ByDate(rungs) <==> r in rungs
  {
    if rungs != [] {
      var init, last := rungs[..|rungs| - 1], rungs[|rungs| - 1];
      assert rungs == init + [last];
      ByDateIs(init);
      PlacedIs(ByDate(init), last);
    }
  }

  /** The same rungs in the order they fall due, each stage once, and none before the request. */
  lemma LadderIs(project: StuckProject)
    ensures InOrder(Ladder(project)) && OncePerStage(Ladder(project))
    ensures forall r :: r in Ladder(project) <==> r in Rungs(project)
    ensures forall r :: r in Ladder(project) ==> r.dueOn > project.createdAt
  {
    ByDateIs(Rungs(project));
  }

  // ----- Putting it on the queue -----

  function RequestFor(project: StuckProject, rung: LadderRung): JobRequest {
    JobRequest(ESCALATION_JOB,
               map["projectId" := PrintNat(project.id), "clientId" := PrintNat(project.client), "stage" := rung.stage],
               Some(rung.dueOn), None, None, Some(NaturalKey(ESCALATION_JOB + ":" + rung.stage, [project.id])))
  }

  /** One request for each rung due now or later; earlier ones are passed over. */
  function RungRequests(project: StuckProject, ladder: seq<LadderRung>, now: JobQueue.Instant): seq<JobRequest> {
    if ladder == [] then []
    else
      var init, last := RungRequests(project, ladder[..|ladder| - 1], now), ladder[|ladder| - 1];
      if last.dueOn < now then init else init + [RequestFor(project, last)]
  }

  function AllRequests(waiting: seq<StuckProject>, now: JobQueue.Instant): seq<JobRequest> {
    if waiting == [] then []
    else
      var last := waiting[|waiting| - 1];
      AllRequests(waiting[..|waiting| - 1], now) + RungRequests(last, Ladder(last), now)
  }

  function EnqueueAll(jobs: seq<JobRow>, requests: seq<JobRequest>, now: JobQueue.Instant): seq<JobRow> {
    if requests == [] then jobs
    else AfterEnqueue(EnqueueAll(jobs, requests[..|requests| - 1], now), requests[|requests| - 1], now)
  }

  lemma {:induction false} EnqueueInTwo(jobs: seq<JobRow>, a: seq<JobRequest>, b: seq<JobRequest>, now: JobQueue.Instant)
    ensures EnqueueAll(jobs, a + b, now) == EnqueueAll(EnqueueAll(jobs, a, now), b, now)
  {
    if b == [] {
      assert a + b == a;
    } else {
      assert (a + b)[..|a + b| - 1] == a + b[..|b| - 1];
      EnqueueInTwo(jobs, a, b[..|b| - 1], now);
    }
  }

  method ScheduleEscalations(queue: PostgresJobQueue, waiting: seq<StuckProject>, now: JobQueue.Instant)
    returns (scheduled: nat)
    requires queue.Valid()
    modifies queue
    ensures queue.Valid()
    ensures queue.jobs == EnqueueAll(old(queue.jobs), AllRequests(waiting, now), now)
    ensures |queue.jobs| == |old(queue.jobs)| + scheduled
  {
    scheduled := 0;
    for p := 0 to |waiting|
      invariant queue.Valid() && |queue.jobs| == |old(queue.jobs)| + scheduled
      invariant queue.jobs == EnqueueAll(old(queue.jobs), AllRequests(waiting[..p], now), now)
    {
      var project := waiting[p];
      var ladder := Ladder(project);
      assert waiting[..p + 1][..p] == waiting[..p];
      EnqueueInTwo(old(queue.jobs), AllRequests(waiting[..p], now), RungRequests(project, ladder, now), now);
      var queued := ScheduleLadder(queue, project, ladder, now);
      scheduled := scheduled + queued;
    }
    assert waiting[..|waiting|] == waiting;
  }

  method ScheduleLadder(queue: PostgresJobQueue, project: StuckProject, ladder: seq<LadderRung>, now: JobQueue.Instant)
    returns (scheduled: nat)
    requires queue.Valid()
    modifies queue
    ensures queue.Valid()
    ensures queue.jobs == EnqueueAll(old(queue.jobs), RungRequests(project, ladder, now), now)
    ensures |queue.jobs| == |old(queue.jobs)| + scheduled
  {
    scheduled := 0;
    for r := 0 to |ladder|
      invariant queue.Valid() && |queue.jobs| == |old(queue.jobs)| + scheduled
      invariant queue.jobs == EnqueueAll(old(queue.jobs), RungRequests(project, ladder[..r], now), now)
    {
      ghost var before := RungRequests(project, ladder[..r], now);
      assert ladder[..r + 1][..r] == ladder[..r];
      if ladder[r].dueOn < now {
        assert RungRequests(project, ladder[..r + 1], now) == before;
        continue;
      }
      assert RungRequests(project, ladder[..r + 1], now) == before + [RequestFor(project, ladder[r])];
      assert (before + [RequestFor(project, ladder[r])])[..|before|] == before;
      var queued := queue.Enqueue(RequestFor(project, ladder[r]), now);
      if queued.Inserted? {
        scheduled := scheduled + 1;
      }
    }
    assert ladder[..|ladder|] == ladder;
  }

  ghost predicate Keyed(requests: seq<JobRequest>) {
    forall i :: 0 <= i < |requests| ==>
      requests[i].uniqueKey.Some? && HasText(requests[i].name) && Or(requests[i].maxAttempts, 5) > 0
  }

  lemma {:induction false} RequestsAreKeyed(project: StuckProject, ladder: seq<LadderRung>, now: JobQueue.Instant)
    ensures Keyed(RungRequests(project, ladder, now))
  {
    if ladder != [] {
      RequestsAreKeyed(project, ladder[..|ladder| - 1], now);
      assert ESCALATION_JOB[0] != ' ';
    }
  }

  lemma {:induction false} AllRequestsAreKeyed(waiting: seq<StuckProject>, now: JobQueue.Instant)
    ensures Keyed(AllRequests(waiting, now))
  {
    if waiting != [] {
      var last := waiting[|waiting| - 1];
      AllRequestsAreKeyed(waiting[..|waiting| - 1], now);
      RequestsAreKeyed(last, Ladder(last), now);
    }
  }

  ghost predicate AllTaken(jobs: seq<JobRow>, requests: seq<JobRequest>) {
    forall i :: 0 <= i < |requests| ==> KeyTaken(jobs, requests[i].uniqueKey)
  }

  lemma TakenStays(jobs: seq<JobRow>, request: JobRequest, now: JobQueue.Instant, key: Option<NaturalKey>)
    requires KeyTaken(jobs, key)
    ensures KeyTaken(AfterEnqueue(jobs, request, now), key)
  {
    var i :| 0 <= i < |jobs| && jobs[i].Live() && jobs[i].uniqueKey == key;
    assert AfterEnqueue(jobs, request, now)[i] == jobs[i];
  }

  lemma TakenOnceQueued(jobs: seq<JobRow>, request: JobRequest, now: JobQueue.Instant)
    requires request.uniqueKey.Some? && HasText(request.name) && Or(request.maxAttempts, 5) > 0
    ensures KeyTaken(AfterEnqueue(jobs, request, now), request.uniqueKey)
  {
    var after := AfterEnqueue(jobs, request, now);
    if !KeyTaken(jobs, request.uniqueKey) {
      assert NewRow(request, now).ChecksHold();
      assert after[|jobs|] == NewRow(request, now) && after[|jobs|].Live();
    }
  }

  lemma {:induction false} QueuedAreTaken(jobs: seq<JobRow>, requests: seq<JobRequest>, now: JobQueue.Instant)
    requires Keyed(requests)
    ensures AllTaken(EnqueueAll(jobs, requests, now), requests)
  {
    if requests != [] {
      var k := |requests| - 1;
      QueuedAreTaken(jobs, requests[..k], now);
      var before := EnqueueAll(jobs, requests[..k], now);
      forall i | 0 <= i < k ensures KeyTaken(EnqueueAll(jobs, requests, now), requests[i].uniqueKey) {
        assert requests[i] == requests[..k][i];
        TakenStays(before, requests[k], now, requests[i].uniqueKey);
      }
      TakenOnceQueued(before, requests[k], now);
    }
  }

  lemma {:induction false} NothingToAdd(jobs: seq<JobRow>, requests: seq<JobRequest>, now: JobQueue.Instant)
    requires AllTaken(jobs, requests)
    ensures EnqueueAll(jobs, requests, now) == jobs
  {
    if requests != [] {
      forall i | 0 <= i < |requests| - 1 ensures requests[..|requests| - 1][i] == requests[i] {}
      NothingToAdd(jobs, requests[..|requests| - 1], now);
    }
  }

  lemma {:induction false} LaterRungsAreFewer(project: StuckProject, ladder: seq<LadderRung>,
                                              now: JobQueue.Instant, later: JobQueue.Instant)
    requires now <= later
    ensures forall r :: r in RungRequests(project, ladder, later) ==> r in RungRequests(project, ladder, now)
  {
    if ladder != [] { LaterRungsAreFewer(project, ladder[..|ladder| - 1], now, later); }
  }

  lemma {:induction false} LaterRequestsAreFewer(waiting: seq<StuckProject>,
        now: JobQueue.Instant, later: JobQueue.Instant)
    requires now <= later
    ensures forall r :: r in AllRequests(waiting, later) ==> r in AllRequests(waiting, now)
  {
    if waiting != [] {
      var last := waiting[|waiting| - 1];
      LaterRequestsAreFewer(waiting[..|waiting| - 1], now, later);
      LaterRungsAreFewer(last, Ladder(last), now, later);
    }
  }

  /**
    Scheduling once more, now or later, while those jobs are live leaves the queue as it is.
   */
  lemma {:induction false} SchedulingAgainAddsNothing(jobs: seq<JobRow>, waiting: seq<StuckProject>,
                                   now: JobQueue.Instant, later: JobQueue.Instant)
    requires now <= later
    ensures var once := EnqueueAll(jobs, AllRequests(waiting, now), now);
            EnqueueAll(once, AllRequests(waiting, later), later) == once
  {
    var requests, again := AllRequests(waiting, now), AllRequests(waiting, later);
    var once := EnqueueAll(jobs, requests, now);
    AllRequestsAreKeyed(waiting, now);
    QueuedAreTaken(jobs, requests, now);
    LaterRequestsAreFewer(waiting, now, later);
    forall i | 0 <= i < |again| ensures KeyTaken(once, again[i].uniqueKey) {
      assert again[i] in requests;
    }
    NothingToAdd(once, again, later);
  }

  // ----- One job for each rung to come -----

  ghost predicate DistinctKeys(requests: seq<JobRequest>) {
    forall i, j :: 0 <= i < j < |requests| ==> requests[i].uniqueKey != requests[j].uniqueKey
  }

  /** What is asked for is just the rungs not past, under keys that name the project and the stage. */
  lemma {:induction false} RungRequestsAre(project: StuckProject, ladder: seq<LadderRung>, now: JobQueue.Instant)
    requires OncePerStage(ladder)
    ensures var requests := RungRequests(project, ladder, now);
            && DistinctKeys(requests)
            && (forall request :: request in requests <==>
                  exists r :: r in ladder && r.dueOn >= now && request == RequestFor(project, r))
            && (forall k :: 0 <= k < |requests| ==> requests[k].uniqueKey.Some? && requests[k].uniqueKey.value.parts == [project.id])
  {
    if ladder != [] {
      var init, last := ladder[..|ladder| - 1], ladder[|ladder| - 1];
      RungRequestsAre(project, init, now);
      assert ladder == init + [last];
      var before := RungRequests(project, init, now);
      forall k | 0 <= k < |before| ensures before[k].uniqueKey != RequestFor(project, last).uniqueKey {
        assert before[k] in before;
        var r :| r in init && r.dueOn >= now && before[k] == RequestFor(project, r);
        OtherStageOtherKey(project, r, last);
      }
    }
  }

  lemma OtherStageOtherKey(project: StuckProject, a: LadderRung, b: LadderRung)
    requires a.stage != b.stage
    ensures RequestFor(project, a).uniqueKey != RequestFor(project, b).uniqueKey
  {
    var front := ESCALATION_JOB + ":";
    assert (front + a.stage)[|front|..] == a.stage && (front + b.stage)[|front|..] == b.stage;
  }

  ghost predicate NamesOneOf(request: JobRequest, waiting: seq<StuckProject>) {
    request.uniqueKey.Some? && exists p :: 0 <= p < |waiting| && request.uniqueKey.value.parts == [waiting[p].id]
  }

  lemma TheirKeysDiffer(before: seq<JobRequest>, more: seq<JobRequest>, waiting: seq<StuckProject>, last: StuckProject)
    requires DistinctKeys(before) && DistinctKeys(more) && forall p :: 0 <= p < |waiting| ==> waiting[p].id != last.id
    requires forall k :: 0 <= k < |before| ==> NamesOneOf(before[k], waiting)
    requires forall k :: 0 <= k < |more| ==> NamesOneOf(more[k], [last])
    ensures DistinctKeys(before + more)
  {
    forall i, k | 0 <= i < |before| && 0 <= k < |more| ensures before[i].uniqueKey != more[k].uniqueKey {
      var p :| 0 <= p < |waiting| && before[i].uniqueKey.value.parts == [waiting[p].id];
      assert [waiting[p].id][0] != [last.id][0];
    }
  }

  lemma NamedAmongMore(request: JobRequest, some: seq<StuckProject>, waiting: seq<StuckProject>, from: nat)
    requires from + |some| <= |waiting| && some == waiting[from..from + |some|] && NamesOneOf(request, some)
    ensures NamesOneOf(request, waiting)
  {
    var p :| 0 <= p < |some| && request.uniqueKey.value.parts == [some[p].id];
    assert waiting[from + p] == some[p];
  }

  lemma {:induction false} OneMoreProject(before: seq<JobRequest>, more: seq<JobRequest>, waiting: seq<StuckProject>, last: StuckProject)
    requires DistinctKeys(before) && DistinctKeys(more) && forall p :: 0 <= p < |waiting| ==> waiting[p].id != last.id
    requires forall k :: 0 <= k < |before| ==> NamesOneOf(before[k], waiting)
    requires forall k :: 0 <= k < |more| ==> more[k].uniqueKey.Some? && more[k].uniqueKey.value.parts == [last.id]
    ensures DistinctKeys(before + more)
    ensures forall k :: 0 <= k < |before + more| ==> NamesOneOf((before + more)[k], waiting + [last])
  {
    forall k | 0 <= k < |more| ensures NamesOneOf(more[k], [last]) {
      assert more[k].uniqueKey.value.parts == [[last][0].id];
    }
    TheirKeysDiffer(before, more, waiting, last);
    forall k | 0 <= k < |before + more| ensures NamesOneOf((before + more)[k], waiting + [last]) {
      if k < |before| {
        NamedAmongMore(before[k], waiting, waiting + [last], 0);
      } else {
        NamedAmongMore(more[k - |before|], [last], waiting + [last], |waiting|);
      }
    }
  }

  lemma LadderRequestsDiffer(project: StuckProject, now: JobQueue.Instant)
    ensures var requests := RungRequests(project, Ladder(project), now);
            && DistinctKeys(requests)
            && forall k :: 0 <= k < |requests| ==> requests[k].uniqueKey.Some? && requests[k].uniqueKey.value.parts == [project.id]
  {
    LadderIs(project);
    RungRequestsAre(project, Ladder(project), now);
  }

  lemma {:induction false} AllRequestsDiffer(waiting: seq<StuckProject>, now: JobQueue.Instant)
    requires forall p, q :: 0 <= p < q < |waiting| ==> waiting[p].id != waiting[q].id
    ensures DistinctKeys(AllRequests(waiting, now))
    ensures forall k :: 0 <= k < |AllRequests(waiting, now)| ==> NamesOneOf(AllRequests(waiting, now)[k], waiting)
  {
    if waiting != [] {
      var init, last := waiting[..|waiting| - 1], waiting[|waiting| - 1];
      assert waiting == init + [last];
      AllRequestsDiffer(init, now);
      LadderRequestsDiffer(last, now);
      OneMoreProject(AllRequests(init, now), RungRequests(last, Ladder(last), now), init, last);
    }
  }

  lemma StillNotTaken(jobs: seq<JobRow>, after: seq<JobRow>, requests: seq<JobRequest>, now: JobQueue.Instant, request: JobRequest)
    requires |after| == |jobs| + |requests| && after[..|jobs|] == jobs && !KeyTaken(jobs, request.uniqueKey)
    requires forall i :: 0 <= i < |requests| ==> after[|jobs| + i] == NewRow(requests[i], now)
    requires forall i :: 0 <= i < |requests| ==> requests[i].uniqueKey != request.uniqueKey
    ensures !KeyTaken(after, request.uniqueKey)
  {
    forall i | 0 <= i < |after| ensures request.uniqueKey.None? || !after[i].Live() || after[i].uniqueKey != request.uniqueKey {
      if i < |jobs| {
        assert after[i] == after[..|jobs|][i] == jobs[i];
      } else {
        assert after[|jobs| + (i - |jobs|)] == NewRow(requests[i - |jobs|], now);
      }
    }
  }

  lemma {:induction false} AllInserted(jobs: seq<JobRow>, requests: seq<JobRequest>, now: JobQueue.Instant)
    requires Keyed(requests) && DistinctKeys(requests)
    requires forall i :: 0 <= i < |requests| ==> !KeyTaken(jobs, requests[i].uniqueKey)
    ensures var after := EnqueueAll(jobs, requests, now);
            && |after| == |jobs| + |requests| && after[..|jobs|] == jobs
            && forall i :: 0 <= i < |requests| ==> after[|jobs| + i] == NewRow(requests[i], now)
  {
    if requests != [] {
      var init, last := requests[..|requests| - 1], requests[|requests| - 1];
      forall i | 0 <= i < |init| ensures init[i] == requests[i] {}
      AllInserted(jobs, init, now);
      StillNotTaken(jobs, EnqueueAll(jobs, init, now), init, now, last);
      assert NewRow(last, now).ChecksHold();
    }
  }

  /** With none of its jobs on the queue yet, one job is put there for every rung to come of every project, at its moment. */
  lemma {:induction false} OneJobPerRung(jobs: seq<JobRow>, waiting: seq<StuckProject>, now: JobQueue.Instant)
    requires forall p, q :: 0 <= p < q < |waiting| ==> waiting[p].id != waiting[q].id
    requires forall r :: r in AllRequests(waiting, now) ==> !KeyTaken(jobs, r.uniqueKey)
    ensures var requests := AllRequests(waiting, now);
            var after := EnqueueAll(jobs, requests, now);
            && |after| == |jobs| + |requests|
            && forall i :: 0 <= i < |requests| ==> after[|jobs| + i] == NewRow(requests[i], now)
  {
    var requests := AllRequests(waiting, now);
    AllRequestsDiffer(waiting, now);
    AllRequestsAreKeyed(waiting, now);
    forall i | 0 <= i < |requests| ensures !KeyTaken(jobs, requests[i].uniqueKey) { assert requests[i] in requests; }
    AllInserted(jobs, requests, now);
  }

  /** The job names its project, its client and its stage, so that firing reads back what was scheduled. */
  lemma PayloadIsRead(project: StuckProject, rung: LadderRung, other: StuckProject, otherRung: LadderRung)
    requires RequestFor(project, rung).payload == RequestFor(other, otherRung).payload
    ensures project.id == other.id && project.client == other.client && rung.stage == otherRung.stage
  {
    var a, b := RequestFor(project, rung).payload, RequestFor(other, otherRung).payload;
    assert a["projectId"] == b["projectId"] && a["clientId"] == b["clientId"] && a["stage"] == b["stage"];
    PrintThenParse(project.id);
    PrintThenParse(other.id);
    PrintThenParse(project.client);
    PrintThenParse(other.client);
  }

  // ----- Firing a rung -----

  datatype Outcome = Raised | NoLongerNeeded | AlreadyRaised

  /** The project as it is by then, whether anybody is to be told, and whether telling works. */
  datatype Firing = Firing(project: nat, stage: string, state: Option<string>, notifies: bool, tells: bool)

  predicate Needed(f: Firing) {
    f.state.Some? && f.state.value in STUCK
  }

  function KeyOf(f: Firing): AlertKey {
    AlertKey(Project(f.project), Rung(f.stage))
  }

  /** A notification that throws leaves its alert raised. */
  method FireEscalation(log: AlertLog, f: Firing) returns (outcome: Option<Outcome>, told: bool)
    modifies log
    ensures log.raised == if Needed(f) then old(log.raised) + {KeyOf(f)} else old(log.raised)
    ensures told <==> Needed(f) && KeyOf(f) !in old(log.raised) && f.notifies && f.tells
    ensures outcome == if !Needed(f) then Some(NoLongerNeeded)
                       else if KeyOf(f) in old(log.raised) then Some(AlreadyRaised)
                       else if f.notifies && !f.tells then None
                       else Some(Raised)
  {
    told := false;
    if f.state.None? || f.state.value !in STUCK {
      return Some(NoLongerNeeded), told;
    }
    var raised := log.Raise(KeyOf(f));
    if raised && f.notifies {
      if !f.tells {
        return None, told;
      }
      told := true;
    }
    return Some(if raised then Raised else AlreadyRaised), told;
  }

  function TimesTold(raised: set<AlertKey>, firings: seq<Firing>, key: AlertKey): nat
    decreases |firings|
  {
    if firings == [] then 0
    else
      var f := firings[0];
      (if Needed(f) && KeyOf(f) == key && key !in raised && f.notifies && f.tells then 1 else 0)
      + TimesTold(if Needed(f) then raised + {KeyOf(f)} else raised, firings[1..], key)
  }

  /** The first firing of this rung that found its project still stuck. */
  function FirstNeeded(firings: seq<Firing>, key: AlertKey): (first: Option<Firing>)
    decreases |firings|
  {
    if firings == [] then None
    else if Needed(firings[0]) && KeyOf(firings[0]) == key then Some(firings[0])
    else FirstNeeded(firings[1..], key)
  }

  /**
    However often its jobs repeat, a rung is told about at most once; and it is told about at all
    exactly when its first firing that was still needed had somebody to tell and managed to. One that
    fails to is not tried again: the alert stands, and later firings find it there.
   */
  lemma {:induction false} ToldAtMostOnce(raised: set<AlertKey>, firings: seq<Firing>, key: AlertKey)
    ensures TimesTold(raised, firings, key) ==
      var first := FirstNeeded(firings, key);
      if key !in raised && first.Some? && first.value.notifies && first.value.tells then 1 else 0
    decreases |firings|
  {
    if firings != [] {
      ToldAtMostOnce(if Needed(firings[0]) then raised + {KeyOf(firings[0])} else raised, firings[1..], key);
    }
  }

  /** The first firing fails to tell, the second would manage to, and nobody is ever told. */
  lemma FailedToldNobody()
    ensures var key := AlertKey(Project(0), Rung("client_reminder"));
            var fails := Firing(0, "client_reminder", Some("awaiting_documents"), true, false);
            TimesTold({}, [fails, fails.(tells := true)], key) == 0
  {
    var fails := Firing(0, "client_reminder", Some("awaiting_documents"), true, false);
    ToldAtMostOnce({}, [fails, fails.(tells := true)], KeyOf(fails));
  }

  // ----- In milliseconds and words -----

  /** A week after the request, two weeks after it, and five days before the deadline if that is after the request. */
  lemma RungsAre(project: StuckProject, rung: LadderRung)
    ensures rung in Ladder(project) <==>
      || rung == LadderRung("client_reminder", project.createdAt + 604_800_000)
      || rung == LadderRung("accountant_alert", project.createdAt + 1_209_600_000)
      || (project.dueAt.Some? && project.dueAt.value - 432_000_000 > project.createdAt
          && rung == LadderRung("manager_alert", project.dueAt.value - 432_000_000))
  {
    LadderIs(project);
  }

  /** The job of a rung: due when the rung is, with the usual tries, under a key of its project and stage. */
  lemma RungJob(project: StuckProject, rung: LadderRung, now: JobQueue.Instant)
    ensures var row := NewRow(RequestFor(project, rung), now);
            && row.name == "deadlines.escalate" && row.runAt == rung.dueOn && row.priority == 0 && row.maxAttempts == 5
            && row.uniqueKey == Some(NaturalKey("deadlines.escalate:" + rung.stage, [project.id]))
            && row.payload.Keys == {"projectId", "clientId", "stage"}
            && row.payload["projectId"] == PrintNat(project.id) && row.payload["clientId"] == PrintNat(project.client)
            && row.payload["stage"] == rung.stage
  {
    assert ESCALATION_JOB + ":" == "deadlines.escalate:";
  }

  /** Somebody is still to be chased exactly while the project is there and waits for papers or for the client. */
  lemma NeededIff(f: Firing)
    ensures Needed(f) <==> f.state == Some("awaiting_documents") || f.state == Some("waiting_for_client")
    ensures KeyOf(f) == AlertKey(Project(f.project), Rung(f.stage))
  {}
}
