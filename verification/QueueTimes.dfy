/** When a job can be claimed and in what order, in milliseconds and priorities; and what its row says at each turn. */
module QueueTimes {
  import opened Wrappers
  import opened JobQueue
  import L = Listing

  /** How long a failed try keeps a job away, for the first eight tries; from the ninth on it is five minutes. */
  const WAITS: seq<int> := [2_000, 4_000, 8_000, 16_000, 32_000, 64_000, 128_000, 256_000]

  function WaitAfter(tries: nat): int {
    if 1 <= tries <= 8 then WAITS[tries - 1] else if tries == 0 then 1_000 else 300_000
  }

  lemma PowersUpToEight()
    ensures PowerOfTwo(0) == 1 && PowerOfTwo(1) == 2 && PowerOfTwo(2) == 4 && PowerOfTwo(3) == 8 && PowerOfTwo(4) == 16
    ensures PowerOfTwo(5) == 32 && PowerOfTwo(6) == 64 && PowerOfTwo(7) == 128 && PowerOfTwo(8) == 256
  {
    assert PowerOfTwo(4) == 16;
    assert PowerOfTwo(7) == 128;
  }

  lemma RetryIsWaited(job: Job, now: Instant)
    requires job.attempts >= 0
    ensures RetryAt(job, now) == now + WaitAfter(job.attempts)
  {
    BackoffIsCapped(job.attempts);
    PowersUpToEight();
  }

  /**
    A job reported failed with tries left can be claimed again from this long after the report, and not a
    millisecond before; its error is kept, its claim let go, and nothing else about it changes.
   */
  lemma RetryComesBack(rows: seq<JobRow>, job: Job, error: string, now: Instant, t: Instant, locked: set<JobId>)
    requires job.id < |rows| && rows[job.id].Live() && 1 <= job.attempts < job.maxAttempts
    ensures var after := AfterFail(rows, job, error, false, now);
            && |after| == |rows|
            && (job.id in Eligible(after, t, locked) <==> t - now >= WaitAfter(job.attempts) && job.id !in locked)
            && after[job.id] == rows[job.id].(
                 runAt := after[job.id].runAt, lastError := Some(if |error| <= 2000 then error else error[..2000]),
                 claimedAt := None, claimedBy := None, leaseUntil := None)
            && after[job.id].Live()
            && forall i :: 0 <= i < |rows| && i != job.id ==> after[i] == rows[i]
  {
    RetryIsWaited(job, now);
  }

  /** It is failed for good exactly when told so or when its tries are used up, at that moment, and never claimed again. */
  lemma FailedForGoodIff(rows: seq<JobRow>, job: Job, error: string, permanent: bool, now: Instant, t: Instant, locked: set<JobId>)
    requires job.id < |rows| && rows[job.id].Live()
    ensures var after := AfterFail(rows, job, error, permanent, now);
            && |after| == |rows|
            && (after[job.id].failedAt.Some? <==> permanent || job.attempts >= job.maxAttempts)
            && (after[job.id].failedAt.Some? ==>
                  && after[job.id] == rows[job.id].(
                       failedAt := Some(now), lastError := Some(if |error| <= 2000 then error else error[..2000]),
                       claimedAt := None, claimedBy := None, leaseUntil := None)
                  && job.id !in Eligible(after, t, locked))
  {}

  lemma CompletedOnce(rows: seq<JobRow>, id: JobId, now: Instant, t: Instant, locked: set<JobId>)
    requires id < |rows| && rows[id].Live()
    ensures var after := AfterComplete(rows, id, now);
            && after == rows[id := rows[id].(completedAt := Some(now), claimedAt := None, claimedBy := None, leaseUntil := None)]
            && id !in Eligible(after, t, locked)
  {}

  /** A job put on the queue waits for its moment, or for none, with five tries and no priority unless it says otherwise. */
  lemma EnqueuedWaits(rows: seq<JobRow>, request: JobRequest, now: Instant, t: Instant, locked: set<JobId>)
    requires EnqueueOutcomeOf(rows, request, now).Inserted?
    ensures var after := AfterEnqueue(rows, request, now);
            && |after| == |rows| + 1 && after[..|rows|] == rows
            && var row := after[|rows|];
               && row.name == request.name && row.payload == request.payload && row.uniqueKey == request.uniqueKey
               && row.attempts == 0 && row.Live() && row.lastError.None?
               && row.priority == (match request.priority case Some(p) => p case None => 0)
               && row.maxAttempts == (match request.maxAttempts case Some(m) => m case None => 5)
               && var due := (match request.runAt case Some(at) => at case None => now);
                  |rows| in Eligible(after, t, locked) <==> t >= due && |rows| !in locked
  {}

  /** It is put there exactly if it has a name and can be tried, and no job under its key is still to be finished. */
  lemma EnqueuedIff(rows: seq<JobRow>, request: JobRequest, now: Instant)
    ensures EnqueueOutcomeOf(rows, request, now).Inserted? <==>
      && (exists c :: 0 <= c < |request.name| && request.name[c] != ' ')
      && (request.maxAttempts.Some? ==> request.maxAttempts.value > 0)
      && (request.uniqueKey.Some? ==>
            forall i :: 0 <= i < |rows| && rows[i].uniqueKey == request.uniqueKey ==>
              rows[i].completedAt.Some? || rows[i].failedAt.Some?)
  {
    assert NewRow(request, now).maxAttempts == if request.maxAttempts.Some? then request.maxAttempts.value else 5;
  }

  /** When it is not, the table is as it was, and a key still in use is told from a request the table cannot take. */
  lemma NotEnqueued(rows: seq<JobRow>, request: JobRequest, now: Instant)
    ensures !EnqueueOutcomeOf(rows, request, now).Inserted? ==> AfterEnqueue(rows, request, now) == rows
    ensures EnqueueOutcomeOf(rows, request, now).Refused? <==>
      (forall c :: 0 <= c < |request.name| ==> request.name[c] == ' ') || (request.maxAttempts.Some? && request.maxAttempts.value <= 0)
  {
    assert NewRow(request, now).maxAttempts == if request.maxAttempts.Some? then request.maxAttempts.value else 5;
  }

  /** What a claimed job is kept for: nobody else gets it through the whole lease, and anybody from the millisecond after. */
  lemma ClaimedThroughLease(rows: seq<JobRow>, ids: set<JobId>, worker: Worker, now: Instant, leaseSeconds: nat, id: JobId, t: Instant)
    requires ids <= Eligible(rows, now, {}) && id in ids && t >= now
    ensures var after := MarkClaimed(rows, ids, worker, now, now + leaseSeconds * 1000);
            && |after| == |rows| && id < |rows|
            && after[id] == rows[id].(claimedAt := Some(now), claimedBy := Some(worker),
                                      leaseUntil := Some(now + leaseSeconds * 1000), attempts := rows[id].attempts + 1)
            && (id in Eligible(after, t, {}) <==> t - now > leaseSeconds * 1000)
  {}

  /** What is handed out first: no job left behind has a higher priority, nor, at the same priority, was due before. */
  lemma HighestFirst(rows: seq<JobRow>, ids: set<JobId>, limit: nat, now: Instant, locked: set<JobId>, taken: JobId, left: JobId)
    requires BestOf(ids, rows, limit, now, locked) && taken in ids
    requires left < |rows| && left !in ids && left !in locked
    requires rows[left].completedAt.None? && rows[left].failedAt.None? && rows[left].runAt <= now
    requires rows[left].claimedAt.None? || (rows[left].leaseUntil.Some? && rows[left].leaseUntil.value < now)
    ensures taken < |rows| && |ids| == limit
    ensures rows[left].priority <= rows[taken].priority
    ensures rows[left].priority == rows[taken].priority ==> rows[taken].runAt <= rows[left].runAt
  {
    assert left in Eligible(rows, now, locked);
    L.SmallerSet(ids + {left}, Eligible(rows, now, locked));
  }

  /** Whether a job may be claimed at all. */
  lemma EligibleIff(rows: seq<JobRow>, now: Instant, locked: set<JobId>, i: JobId)
    ensures i in Eligible(rows, now, locked) <==>
      && i < |rows| && i !in locked
      && rows[i].completedAt.None? && rows[i].failedAt.None? && rows[i].runAt <= now
      && (rows[i].claimedAt.None? || (rows[i].leaseUntil.Some? && rows[i].leaseUntil.value < now))
  {}
}
