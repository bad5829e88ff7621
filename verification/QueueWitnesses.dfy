/** A run in which a report throws: a worker outlasts its lease, another finishes the job, and the first fails it. */
module QueueWitnesses {
  import opened Wrappers
  import opened JobQueue
  import opened JobRunner
  import opened QueueRuns
  import L = LeaseDiscipline

  const NAME := "invoice.extract"
  const HELD := L.FIRST_ROW.Claim("first", 0, 1000)
  const RETAKEN := HELD.Claim("second", 1001, 2001)
  const DONE := RETAKEN.Complete(1001)

  function Taken(id: JobId): Hold {
    Hold("first", HELD.Handed(id), 1000)
  }

  function Fresh(row: JobRow): Life {
    Life(row, {}, 0, {}, 0, 0)
  }

  function TakenLife(id: JobId): Life {
    Life(HELD, {Taken(id)}, 1, {}, 0, 0)
  }

  const RETAKEN_HOLD := Hold("second", RETAKEN.Handed(0), 2001)

  /** Both jobs handed to the first worker, and later the first of them finished by the second worker. */
  function BothTaken(now: Instant): System {
    System([TakenLife(0), TakenLife(1)], now)
  }

  function OneRetaken(): System {
    System([Life(RETAKEN, {Taken(0), RETAKEN_HOLD}, 2, {}, 0, 0), TakenLife(1)], 1001)
  }

  function OneDone(): System {
    System([Life(DONE, {Taken(0)}, 2, {}, 0, 0), TakenLife(1)], 1001)
  }

  lemma Enqueued(lives: seq<Life>)
    ensures Next(System(lives, 0), Enqueue(L.ONE_TRY)) == System(lives + [Fresh(L.FIRST_ROW)], 0)
  {
    assert NAME[0] != ' ';
  }

  lemma FirstTakesBoth(s: System)
    requires s == System([Fresh(L.FIRST_ROW), Fresh(L.FIRST_ROW)], 0)
    ensures Enabled(s, Claim("first", {0, 1}, 1)) && Next(s, Claim("first", {0, 1}, 1)) == BothTaken(0)
  {
    assert Rows(s) == [L.FIRST_ROW, L.FIRST_ROW];
    forall i | i in {0, 1} ensures {} + {Taken(i)} == {Taken(i)} {}
  }

  lemma SecondTakesOne(s: System)
    requires s == BothTaken(1001)
    ensures Enabled(s, Claim("second", {0}, 1)) && Next(s, Claim("second", {0}, 1)) == OneRetaken()
  {
    assert Rows(s)[0] == HELD;
    assert {Taken(0)} + {RETAKEN_HOLD} == {Taken(0), RETAKEN_HOLD};
  }

  lemma SecondIsDone(s: System)
    requires s == OneRetaken()
    ensures Enabled(s, Complete(RETAKEN_HOLD)) && Next(s, Complete(RETAKEN_HOLD)) == OneDone()
  {
    assert Taken(0).worker != RETAKEN_HOLD.worker;
    assert {Taken(0), RETAKEN_HOLD} - {RETAKEN_HOLD} == {Taken(0)};
  }

  lemma BothAreTaken()
    ensures L.Leads(Empty(0), BothTaken(0))
  {
    L.LeadsNowhere(Empty(0));
    Enqueued([]);
    assert [] + [Fresh(L.FIRST_ROW)] == [Fresh(L.FIRST_ROW)];
    var one := System([Fresh(L.FIRST_ROW)], 0);
    L.LeadsOn(Empty(0), Empty(0), Enqueue(L.ONE_TRY), one);
    Enqueued(one.lives);
    var both := System([Fresh(L.FIRST_ROW), Fresh(L.FIRST_ROW)], 0);
    L.LeadsOn(Empty(0), one, Enqueue(L.ONE_TRY), both);
    FirstTakesBoth(both);
    L.LeadsOn(Empty(0), both, Claim("first", {0, 1}, 1), BothTaken(0));
  }

  lemma OneIsDone()
    ensures L.Leads(BothTaken(0), OneDone())
  {
    L.LeadsNowhere(BothTaken(0));
    L.LeadsOn(BothTaken(0), BothTaken(0), Tick(1001), BothTaken(1001));
    SecondTakesOne(BothTaken(1001));
    L.LeadsOn(BothTaken(0), BothTaken(1001), Claim("second", {0}, 1), OneRetaken());
    SecondIsDone(OneRetaken());
    L.LeadsOn(BothTaken(0), OneRetaken(), Complete(RETAKEN_HOLD), OneDone());
  }

  /** While the first worker is at its first job, the second worker does what it did; and every handler throws. */
  const WORLD: World := World(
    _ => Throws("boom"), _ => 1001, (job: Job, rows: seq<JobRow>) => if rows == [HELD, HELD] then [DONE, HELD] else rows, "")

  lemma TheRowsHold()
    ensures TableHolds([HELD, HELD]) && TableHolds([DONE, HELD])
  {
    assert NAME[0] != ' ';
  }

  /**
    The report on the first job is refused: the job is done already, and this was its last try. It throws, so
    the second job of the batch is neither run nor reported on, and stays with the worker until its lease is over.
   */
  lemma LastReportThrows()
    ensures L.Leads(Empty(0), BothTaken(0)) && L.Leads(BothTaken(0), OneDone())
    ensures Orderly(WORLD) && WORLD.others(Taken(0).job, Rows(BothTaken(0))) == Rows(OneDone())
    ensures var (rows, reported) := Batch(Rows(BothTaken(0)), [Taken(0).job, Taken(1).job], {NAME}, WORLD);
            && rows == Rows(OneDone()) && reported == 0
            && rows[1] == Rows(BothTaken(0))[1] && rows[1].Live() && rows[1].claimedBy == Some("first")
  {
    BothAreTaken();
    OneIsDone();
    TheRowsHold();
    assert Rows(BothTaken(0)) == [HELD, HELD] && Rows(OneDone()) == [DONE, HELD];
    ThrowsIffCompletedMeanwhile([HELD, HELD], Taken(0).job, {NAME}, WORLD);
  }
}
