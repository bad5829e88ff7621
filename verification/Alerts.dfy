/** What people have been told about already, so that a sweep that runs every day tells them once. */
module Alerts {
  import opened Wrappers

  type Instant = int

  const DAY: int := 86_400_000

  datatype Subject = ClientDocument(id: nat) | Project(id: nat)
  datatype Stage = Expiry(days: nat) | Rung(name: string)

  /** One row of the log; the database lets each stand there once. */
  datatype AlertKey = AlertKey(subject: Subject, stage: Stage)

  class AlertLog {
    var raised: set<AlertKey>

    constructor ()
      ensures raised == {}
    {
      raised := {};
    }

    method Raise(key: AlertKey) returns (isNew: bool)
      modifies this
      ensures raised == old(raised) + {key}
      ensures isNew <==> key !in old(raised)
    {
      isNew := key !in raised;
      if isNew {
        raised := raised + {key};
      }
    }
  }

  // ----- Documents that are about to expire -----

  /** The day is a date; a document nobody holds, or one already replaced, is not chased. */
  datatype Document = Document(expiresOn: Option<int>, superseded: bool, held: bool)

  const EXPIRY_WARNING_DAYS: seq<nat> := [90, 60, 30]

  predicate Expires(document: Document, threshold: nat, asAt: Instant) {
    document.expiresOn == Some((asAt + threshold * DAY) / DAY) && !document.superseded && document.held
  }

  /** In the order of the table. */
  function ExpiringIn(documents: seq<Document>, threshold: nat, asAt: Instant): seq<nat> {
    if documents == [] then []
    else
      var init, k := ExpiringIn(documents[..|documents| - 1], threshold, asAt), |documents| - 1;
      if Expires(documents[k], threshold, asAt) then init + [k] else init
  }

  lemma {:induction false} ExpiringInIs(documents: seq<Document>, threshold: nat, asAt: Instant, id: nat)
    ensures id in ExpiringIn(documents, threshold, asAt) <==> id < |documents| && Expires(documents[id], threshold, asAt)
  {
    if documents != [] {
      ExpiringInIs(documents[..|documents| - 1], threshold, asAt, id);
    }
  }

  method ExpiringOn(documents: seq<Document>, threshold: nat, asAt: Instant) returns (ids: seq<nat>)
    ensures ids == ExpiringIn(documents, threshold, asAt)
  {
    ids := [];
    for d := 0 to |documents|
      invariant ids == ExpiringIn(documents[..d], threshold, asAt)
    {
      if Expires(documents[d], threshold, asAt) {
        ids := ids + [d];
      }
      assert documents[..d + 1][..d] == documents[..d];
    }
    assert documents[..|documents|] == documents;
  }

  function KeysOf(ids: seq<nat>, threshold: nat): set<AlertKey> {
    set n | 0 <= n < |ids| :: AlertKey(ClientDocument(ids[n]), Expiry(threshold))
  }

  /** What one threshold asks about: its mark day, and as many days before as the sweep may have missed. */
  function AskedBack(documents: seq<Document>, threshold: nat, today: Instant, days: nat): set<AlertKey> {
    if days == 0 then {}
    else AskedBack(documents, threshold, today, days - 1)
         + KeysOf(ExpiringIn(documents, threshold, today - (days - 1) * DAY), threshold)
  }

  function AskedThrough(documents: seq<Document>, today: Instant, catchUp: nat, thresholds: nat): set<AlertKey>
    requires thresholds <= |EXPIRY_WARNING_DAYS|
  {
    if thresholds == 0 then {}
    else AskedThrough(documents, today, catchUp, thresholds - 1)
         + AskedBack(documents, EXPIRY_WARNING_DAYS[thresholds - 1], today, catchUp + 1)
  }

  function Asked(documents: seq<Document>, today: Instant, catchUp: nat): set<AlertKey> {
    AskedThrough(documents, today, catchUp, |EXPIRY_WARNING_DAYS|)
  }

  /** The log has just what it had and what was asked; the warnings are what it did not have, each once. */
  ghost predicate Tallies(before: set<AlertKey>, raised: set<AlertKey>, warnings: seq<AlertKey>, asked: set<AlertKey>) {
    && raised == before + asked
    && (forall key :: key in warnings <==> key in asked && key !in before)
    && (forall i, j :: 0 <= i < j < |warnings| ==> warnings[i] != warnings[j])
  }

  method SweepDocumentExpiry(log: AlertLog, documents: seq<Document>, today: Instant, catchUp: nat)
    returns (warnings: seq<AlertKey>)
    modifies log
    ensures Tallies(old(log.raised), log.raised, warnings, Asked(documents, today, catchUp))
  {
    warnings := [];
    for t := 0 to |EXPIRY_WARNING_DAYS|
      invariant Tallies(old(log.raised), log.raised, warnings, AskedThrough(documents, today, catchUp, t))
    {
      var threshold := EXPIRY_WARNING_DAYS[t];
      ghost var earlier := AskedThrough(documents, today, catchUp, t);
      for offset := 0 to catchUp + 1
        invariant Tallies(old(log.raised), log.raised, warnings, earlier + AskedBack(documents, threshold, today, offset))
      {
        var due := ExpiringOn(documents, threshold, today - offset * DAY);
        ghost var before := earlier + AskedBack(documents, threshold, today, offset);
        for n := 0 to |due|
          invariant Tallies(old(log.raised), log.raised, warnings, before + KeysOf(due[..n], threshold))
        {
          var key := AlertKey(ClientDocument(due[n]), Expiry(threshold));
          KeysWithOneMore(due, n, threshold);
          OneMoreAsked(old(log.raised), log.raised, warnings, before + KeysOf(due[..n], threshold), key);
          assert before + KeysOf(due[..n + 1], threshold) == before + KeysOf(due[..n], threshold) + {key};
          var isNew := log.Raise(key);
          if isNew {
            warnings := warnings + [key];
          }
        }
        assert due[..|due|] == due;
        assert before + KeysOf(due, threshold) == earlier + AskedBack(documents, threshold, today, offset + 1);
      }
    }
  }

  lemma OneMoreAsked(before: set<AlertKey>, raised: set<AlertKey>, warnings: seq<AlertKey>, asked: set<AlertKey>, key: AlertKey)
    requires Tallies(before, raised, warnings, asked)
    ensures key in raised ==> Tallies(before, raised, warnings, asked + {key})
    ensures key !in raised ==> Tallies(before, raised + {key}, warnings + [key], asked + {key})
  {}

  lemma KeysWithOneMore(ids: seq<nat>, n: nat, threshold: nat)
    requires n < |ids|
    ensures KeysOf(ids[..n + 1], threshold) == KeysOf(ids[..n], threshold) + {AlertKey(ClientDocument(ids[n]), Expiry(threshold))}
  {
    var shorter, longer := ids[..n], ids[..n + 1];
    assert longer == shorter + [ids[n]];
    forall i | 0 <= i < n ensures AlertKey(ClientDocument(shorter[i]), Expiry(threshold)) in KeysOf(longer, threshold) {
      assert longer[i] == shorter[i];
    }
    assert longer[n] == ids[n];
  }

  // ----- What a sweep asks about, without its loops -----

  lemma DayBack(today: Instant, days: int, threshold: int)
    ensures (today - days * DAY + threshold * DAY) / DAY == today / DAY - days + threshold
  {}

  /** The day a document passes a threshold. */
  function MarkDay(expiresOn: int, threshold: nat): int {
    expiresOn - threshold
  }

  predicate Chased(document: Document) {
    document.expiresOn.Some? && !document.superseded && document.held
  }

  lemma {:induction false} AskedBackIs(documents: seq<Document>, threshold: nat, today: Instant, days: nat,
                                       id: nat, stage: nat)
    ensures AlertKey(ClientDocument(id), Expiry(stage)) in AskedBack(documents, threshold, today, days) <==>
      && stage == threshold && id < |documents| && Chased(documents[id])
      && MarkDay(documents[id].expiresOn.value, threshold) <= today / DAY < MarkDay(documents[id].expiresOn.value, threshold) + days
  {
    if days > 0 {
      AskedBackIs(documents, threshold, today, days - 1, id, stage);
      var due := ExpiringIn(documents, threshold, today - (days - 1) * DAY);
      ExpiringInIs(documents, threshold, today - (days - 1) * DAY, id);
      DayBack(today, days - 1, threshold);
      assert AlertKey(ClientDocument(id), Expiry(stage)) in KeysOf(due, threshold) <==> stage == threshold && id in due;
    }
  }

  /** A sweep asks about a document at a threshold just when that mark was passed today or within the days it looks back. */
  lemma AskedIs(documents: seq<Document>, today: Instant, catchUp: nat, id: nat, threshold: nat)
    ensures AlertKey(ClientDocument(id), Expiry(threshold)) in Asked(documents, today, catchUp) <==>
      && threshold in EXPIRY_WARNING_DAYS && id < |documents| && Chased(documents[id])
      && MarkDay(documents[id].expiresOn.value, threshold) <= today / DAY <= MarkDay(documents[id].expiresOn.value, threshold) + catchUp
  {
    AskedBackIs(documents, 90, today, catchUp + 1, id, threshold);
    AskedBackIs(documents, 60, today, catchUp + 1, id, threshold);
    AskedBackIs(documents, 30, today, catchUp + 1, id, threshold);
    var key := AlertKey(ClientDocument(id), Expiry(threshold));
    assert AskedThrough(documents, today, catchUp, 0) == {};
    assert key in AskedThrough(documents, today, catchUp, 1) <==> key in AskedBack(documents, 90, today, catchUp + 1);
    assert key in AskedThrough(documents, today, catchUp, 2) <==>
      key in AskedThrough(documents, today, catchUp, 1) || key in AskedBack(documents, 60, today, catchUp + 1);
  }

  // ----- Every run of sweeps -----

  /** The documents as they stood, and the moment it ran. */
  datatype Sweep = Sweep(documents: seq<Document>, today: Instant)

  function TimesWarned(raised: set<AlertKey>, sweeps: seq<Sweep>, catchUp: nat, key: AlertKey): nat
    decreases |sweeps|
  {
    if sweeps == [] then 0
    else
      var asked := Asked(sweeps[0].documents, sweeps[0].today, catchUp);
      (if key in asked && key !in raised then 1 else 0) + TimesWarned(raised + asked, sweeps[1..], catchUp, key)
  }

  ghost predicate AskedInSome(sweeps: seq<Sweep>, catchUp: nat, key: AlertKey) {
    exists i :: 0 <= i < |sweeps| && key in Asked(sweeps[i].documents, sweeps[i].today, catchUp)
  }

  /** However often it runs, and whatever happens to the documents, nobody is warned of one thing twice. */
  lemma {:induction false} WarnedAtMostOnce(raised: set<AlertKey>, sweeps: seq<Sweep>, catchUp: nat, key: AlertKey)
    ensures TimesWarned(raised, sweeps, catchUp, key) == (if key !in raised && AskedInSome(sweeps, catchUp, key) then 1 else 0)
    decreases |sweeps|
  {
    if sweeps != [] {
      var asked := Asked(sweeps[0].documents, sweeps[0].today, catchUp);
      WarnedAtMostOnce(raised + asked, sweeps[1..], catchUp, key);
      if AskedInSome(sweeps[1..], catchUp, key) {
        var i :| 0 <= i < |sweeps[1..]| && key in Asked(sweeps[1..][i].documents, sweeps[1..][i].today, catchUp);
        assert sweeps[i + 1] == sweeps[1..][i];
      }
      if i :| 0 <= i < |sweeps| && key in Asked(sweeps[i].documents, sweeps[i].today, catchUp) && i > 0 {
        assert sweeps[1..][i - 1] == sweeps[i];
      }
    }
  }

  function DayOf(sweep: Sweep): int {
    sweep.today / DAY
  }

  ghost predicate InOrder(sweeps: seq<Sweep>) {
    forall i, j :: 0 <= i <= j < |sweeps| ==> DayOf(sweeps[i]) <= DayOf(sweeps[j])
  }

  ghost predicate NoLongGap(sweeps: seq<Sweep>, catchUp: nat) {
    forall i :: 0 < i < |sweeps| ==> DayOf(sweeps[i]) <= DayOf(sweeps[i - 1]) + catchUp + 1
  }

  /** Some sweep looks at this day. */
  ghost predicate Caught(sweeps: seq<Sweep>, catchUp: nat, mark: int) {
    exists i :: 0 <= i < |sweeps| && mark <= DayOf(sweeps[i]) <= mark + catchUp
  }

  ghost predicate NoMarkMissed(sweeps: seq<Sweep>, catchUp: nat) {
    forall mark :: sweeps != [] && DayOf(sweeps[0]) <= mark <= DayOf(sweeps[|sweeps| - 1]) ==> Caught(sweeps, catchUp, mark)
  }

  lemma {:induction false} FirstSweepFrom(sweeps: seq<Sweep>, mark: int) returns (i: nat)
    requires sweeps != [] && mark <= DayOf(sweeps[|sweeps| - 1])
    ensures i < |sweeps| && mark <= DayOf(sweeps[i]) && (i > 0 ==> DayOf(sweeps[i - 1]) < mark)
  {
    i := |sweeps| - 1;
    while i > 0 && mark <= DayOf(sweeps[i - 1])
      invariant i < |sweeps| && mark <= DayOf(sweeps[i])
    {
      i := i - 1;
    }
  }

  /** The sweeps between them look at every day exactly when no two are further apart than the days they look back. */
  lemma NoMarkMissedIffNoLongGap(sweeps: seq<Sweep>, catchUp: nat)
    requires InOrder(sweeps)
    ensures NoMarkMissed(sweeps, catchUp) <==> NoLongGap(sweeps, catchUp)
  {
    if NoLongGap(sweeps, catchUp) {
      forall mark | sweeps != [] && DayOf(sweeps[0]) <= mark <= DayOf(sweeps[|sweeps| - 1]) ensures Caught(sweeps, catchUp, mark) {
        var i := FirstSweepFrom(sweeps, mark);
      }
    }
    if NoMarkMissed(sweeps, catchUp) {
      forall i | 0 < i < |sweeps| ensures DayOf(sweeps[i]) <= DayOf(sweeps[i - 1]) + catchUp + 1 {
        var mark := DayOf(sweeps[i - 1]) + 1;
        if mark <= DayOf(sweeps[i]) {
          assert DayOf(sweeps[0]) <= mark <= DayOf(sweeps[|sweeps| - 1]);
          assert Caught(sweeps, catchUp, mark);
          var k :| 0 <= k < |sweeps| && mark <= DayOf(sweeps[k]) <= mark + catchUp;
          assert k >= i;
        }
      }
    }
  }

  /** The document stands unchanged from the first sweep to the last. */
  ghost predicate Steady(sweeps: seq<Sweep>, id: nat, expiresOn: int) {
    forall i :: 0 <= i < |sweeps| ==>
      id < |sweeps[i].documents| && Chased(sweeps[i].documents[id]) && sweeps[i].documents[id].expiresOn == Some(expiresOn)
  }

  lemma {:induction false} WarnedIffCaught(raised: set<AlertKey>, sweeps: seq<Sweep>, catchUp: nat, id: nat,
                                           expiresOn: int, threshold: nat)
    requires Steady(sweeps, id, expiresOn) && threshold in EXPIRY_WARNING_DAYS
    requires AlertKey(ClientDocument(id), Expiry(threshold)) !in raised
    ensures TimesWarned(raised, sweeps, catchUp, AlertKey(ClientDocument(id), Expiry(threshold)))
         == if Caught(sweeps, catchUp, MarkDay(expiresOn, threshold)) then 1 else 0
  {
    var key, mark := AlertKey(ClientDocument(id), Expiry(threshold)), MarkDay(expiresOn, threshold);
    WarnedAtMostOnce(raised, sweeps, catchUp, key);
    forall i | 0 <= i < |sweeps|
      ensures key in Asked(sweeps[i].documents, sweeps[i].today, catchUp) <==> mark <= DayOf(sweeps[i]) <= mark + catchUp
    {
      AskedIs(sweeps[i].documents, sweeps[i].today, catchUp, id, threshold);
    }
  }

  /**
    If no two sweeps are more than the days looked back and one apart, an unchanged document is
    warned about exactly once for each threshold it passes between the first sweep and the last.
   */
  lemma {:induction false} WarnedExactlyOnce(raised: set<AlertKey>, sweeps: seq<Sweep>, catchUp: nat, id: nat,
                                             expiresOn: int, threshold: nat)
    requires sweeps != [] && InOrder(sweeps) && NoLongGap(sweeps, catchUp)
    requires Steady(sweeps, id, expiresOn) && threshold in EXPIRY_WARNING_DAYS
    requires AlertKey(ClientDocument(id), Expiry(threshold)) !in raised
    requires DayOf(sweeps[0]) <= MarkDay(expiresOn, threshold) <= DayOf(sweeps[|sweeps| - 1])
    ensures TimesWarned(raised, sweeps, catchUp, AlertKey(ClientDocument(id), Expiry(threshold))) == 1
  {
    NoMarkMissedIffNoLongGap(sweeps, catchUp);
    WarnedIffCaught(raised, sweeps, catchUp, id, expiresOn, threshold);
  }

  /** Across any longer gap, a document that passes a threshold the day after the gap begins is never warned about. */
  lemma {:induction false} MissedAcrossGap(raised: set<AlertKey>, sweeps: seq<Sweep>, catchUp: nat, i: nat,
                                           id: nat, threshold: nat)
    requires InOrder(sweeps) && 0 < i < |sweeps| && DayOf(sweeps[i]) > DayOf(sweeps[i - 1]) + catchUp + 1
    requires threshold in EXPIRY_WARNING_DAYS && Steady(sweeps, id, DayOf(sweeps[i - 1]) + 1 + threshold)
    requires AlertKey(ClientDocument(id), Expiry(threshold)) !in raised
    ensures TimesWarned(raised, sweeps, catchUp, AlertKey(ClientDocument(id), Expiry(threshold))) == 0
  {
    WarnedIffCaught(raised, sweeps, catchUp, id, DayOf(sweeps[i - 1]) + 1 + threshold, threshold);
    forall k | 0 <= k < |sweeps|
      ensures !(DayOf(sweeps[i - 1]) + 1 <= DayOf(sweeps[k]) <= DayOf(sweeps[i - 1]) + 1 + catchUp)
    {
      if k < i { assert DayOf(sweeps[k]) <= DayOf(sweeps[i - 1]); } else { assert DayOf(sweeps[i]) <= DayOf(sweeps[k]); }
    }
  }

  /** In days since the epoch: three months, two months and one month before a held, current document runs out. */
  lemma AskedInDays(documents: seq<Document>, today: Instant, catchUp: nat, id: nat, threshold: nat)
    ensures AlertKey(ClientDocument(id), Expiry(threshold)) in Asked(documents, today, catchUp) <==>
      && threshold in {90, 60, 30} && id < |documents|
      && documents[id].expiresOn.Some? && !documents[id].superseded && documents[id].held
      && 0 <= today / 86_400_000 - (documents[id].expiresOn.value - threshold) <= catchUp
  {
    AskedIs(documents, today, catchUp, id, threshold);
  }
}
