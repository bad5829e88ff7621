/** What the billing use cases leave in the tables, entry by entry and field by field, and when they go through. */
module BillingSays {
  import opened Wrappers
  import opened Rounding
  import opened Money
  import opened Text
  import opened Statement
  import opened GenerateStatement
  import opened BillingPipeline
  import opened AttachedHours
  import R = BillingRuns

  // ----- What waits to be billed -----

  predicate Calendar(day: Day) {
    1 <= day.month <= 12 && 1 <= day.dayOfMonth <= 31
  }

  function Ordinal(day: Day): int {
    day.year * 10_000 + day.month * 100 + day.dayOfMonth
  }

  lemma DaysInOrder(a: Day, b: Day)
    requires Calendar(a) && Calendar(b)
    ensures a.NotAfter(b) <==> Ordinal(a) <= Ordinal(b)
  {}

  /** The reader lists an entry exactly if it is the client's, of the period, done, approved, to be charged, and on no statement. */
  lemma WaitingIff(e: TimeEntry, client: string, from: Day, to: Day)
    requires Calendar(from) && Calendar(to) && Calendar(e.performedOn)
    ensures e.Waiting(client, from, to) <==>
      && e.client == client && e.line.None? && e.billable && e.ended && e.approved && e.seconds > 0
      && Ordinal(from) <= Ordinal(e.performedOn) <= Ordinal(to)
  {
    DaysInOrder(from, e.performedOn);
    DaysInOrder(e.performedOn, to);
  }

  /** What it hands over of each. */
  lemma HandedOver(entries: seq<TimeEntry>, client: string, from: Day, to: Day, work: seq<BillableWork>, n: nat)
    requires IsListing(entries, client, from, to, work) && n < |work|
    ensures var item := work[n];
            && item.entryId < |entries|
            && var e := entries[item.entryId];
               && item.project == e.project && item.clientService == e.clientService && item.service == e.service
               && item.performedOn == e.performedOn && item.user == e.user && item.seconds == e.seconds
               && item.pricing == e.pricing && item.feeMinor == e.feeMinor
  {}

  // ----- Generating -----

  /** It can be charged: at a rate in the statement's currency, or at a fee that was agreed. */
  predicate HasPrice(item: BillableWork, currency: Currency, perHourOn: Day -> Money) {
    if item.pricing == HourlyWork then perHourOn(item.performedOn).currency == currency else item.feeMinor.Some?
  }

  lemma {:induction false} ItemOf(work: seq<BillableWork>, g: nat) returns (item: BillableWork)
    requires g < |Grouped(work)|
    ensures Grouped(work)[g].items != [] && item == Grouped(work)[g].items[0]
    ensures item in work && KeyOf(item) == Grouped(work)[g].key
  {
    GroupedPartitions(work);
    ItemsHaveKey(work, Grouped(work)[g].key);
    item := Grouped(work)[g].items[0];
    assert item == WithKey(work, Grouped(work)[g].key)[0];
  }

  lemma {:induction false} GroupOf(work: seq<BillableWork>, item: BillableWork) returns (g: nat)
    requires item in work
    ensures g < |Grouped(work)| && Grouped(work)[g].key == KeyOf(item)
  {
    var n :| 0 <= n < |work| && work[n] == item;
    EachEntryInOneGroup(work, n);
    g := IndexOf(Grouped(work), KeyOf(item));
  }

  /** What belongs together can be charged together or not at all. */
  lemma PricedIfItemHasPrice(group: Group, item: BillableWork, currency: Currency, perHourOn: Day -> Money)
    requires group.items != [] && KeyOf(group.items[0]) == KeyOf(item) && FromOneReader(group.items[0], item)
    ensures Priced(group, currency, perHourOn).Ok? <==> HasPrice(item, currency, perHourOn)
  {}

  lemma {:induction false} AllHavePrices(work: seq<BillableWork>, currency: Currency, perHourOn: Day -> Money)
    requires forall x, y :: x in work && y in work ==> FromOneReader(x, y)
    ensures NoneEmpty(Grouped(work))
    ensures AllPriced(Grouped(work), currency, perHourOn).Ok? <==> forall item :: item in work ==> HasPrice(item, currency, perHourOn)
  {
    var groups := Grouped(work);
    forall g | 0 <= g < |groups| ensures groups[g].items != [] { var _ := ItemOf(work, g); }
    AllPricedIff(groups, currency, perHourOn);
    if AllPriced(groups, currency, perHourOn).Ok? {
      forall item | item in work ensures HasPrice(item, currency, perHourOn) {
        var g := GroupOf(work, item);
        var first := ItemOf(work, g);
        PricedIfItemHasPrice(groups[g], item, currency, perHourOn);
      }
    }
    if forall item :: item in work ==> HasPrice(item, currency, perHourOn) {
      forall g | 0 <= g < |groups| ensures Priced(groups[g], currency, perHourOn).Ok? {
        var first := ItemOf(work, g);
        PricedIfItemHasPrice(groups[g], first, currency, perHourOn);
      }
    }
  }

  /** A statement is generated exactly if the period is one, something waits in it, and every piece of it can be charged. */
  lemma {:induction false} GeneratedIff(w: World, client: string, from: Day, to: Day, work: seq<BillableWork>, currency: Currency,
                                        perHourOn: Day -> Money, createdBy: string, now: Instant)
    requires Calendar(from) && Calendar(to) && forall x, y :: x in work && y in work ==> FromOneReader(x, y)
    ensures AfterGenerate(w, client, from, to, work, currency, perHourOn, createdBy, now).Ok? <==>
      Ordinal(from) <= Ordinal(to) && work != [] && forall item :: item in work ==> HasPrice(item, currency, perHourOn)
  {
    DaysInOrder(from, to);
    AllHavePrices(work, currency, perHourOn);
    if AllPriced(Grouped(work), currency, perHourOn).Ok? {
      InOneCurrency(Grouped(work), currency, perHourOn);
    }
  }

  lemma {:induction false} InOneCurrency(groups: seq<Group>, currency: Currency, perHourOn: Day -> Money)
    requires NoneEmpty(groups) && AllPriced(groups, currency, perHourOn).Ok?
    ensures var lines := AllPriced(groups, currency, perHourOn).value;
            forall l :: 0 <= l < |lines| ==> LineCurrency(lines[l]) == currency
  {
    LinesFollowGroups(groups, currency, perHourOn);
    var lines := AllPriced(groups, currency, perHourOn).value;
    forall l | 0 <= l < |lines| ensures LineCurrency(lines[l]) == currency {
      assert Priced(groups[l], currency, perHourOn) == Ok(lines[l]);
    }
  }

  // ----- Reviewing -----

  /** What a revision leaves of a statement: what it asks for, if the statement and the line allow it, or nothing new. */
  function Reviewed(s: Snapshot, revision: Revision): Snapshot {
    match revision
    case Exclude(l, reason) =>
      if s.state == Draft && |Trim(reason)| >= 3 && l < |s.lines| then
        s.(lines := s.lines[l := s.lines[l].(excluded := true, excludedReason := Some(Trim(reason)))])
      else s
    case Adjust(l, to, reason) =>
      if s.state == Draft && |Trim(reason)| >= 3 && l < |s.lines| && to.currency == s.currency && to.minor >= 0 then
        s.(lines := s.lines[l := s.lines[l].(adjustedTo := Some(to), adjustedReason := Some(Trim(reason)))])
      else s
    case Restore(l) =>
      if s.state == Draft && l < |s.lines| && s.lines[l].excluded then
        s.(lines := s.lines[l := s.lines[l].(excluded := false, excludedReason := None)])
      else s
    case Approve(user, now) =>
      if s.state == Draft && exists l :: 0 <= l < |s.lines| && !s.lines[l].excluded && LineAmount(s.lines[l]) > 0 then
        s.(state := Approved, approvedAt := Some(now), approvedBy := Some(user))
      else s
    case Reopen =>
      if s.state == Approved then s.(state := Draft, approvedAt := None, approvedBy := None) else s
  }

  lemma RevisionSays(w: World, id: StatementId, revision: Revision)
    requires forall s :: 0 <= s < |w.statements| ==> SoundLines(w.statements[s].lines, w.statements[s].currency)
    ensures AfterRevision(w, id, revision) ==
      if id < |w.statements| then w.(statements := w.statements[id := Reviewed(w.statements[id], revision)]) else w
  {
    if id < |w.statements| {
      var s := w.statements[id];
      assert w.statements[id := s] == w.statements;
      if revision.Approve? {
        ApprovedIffSomethingToBill(s, revision.user, revision.now);
      }
    }
  }

  // ----- Releasing -----

  ghost predicate HasEntries(w: World, id: StatementId) {
    exists e :: 0 <= e < |w.entries| && StandsOn(w.entries[e], id)
  }

  predicate StandsOn(e: TimeEntry, id: StatementId) {
    e.line.Some? && e.line.value.statement == id
  }

  /** Work is released exactly if the asker may, says why, and the statement is there, not invoiced, and has any. */
  lemma ReleasedIff(w: World, id: StatementId, reason: string, mayUnlink: bool)
    ensures AfterRelease(w, id, reason, mayUnlink).1.Ok? <==>
      mayUnlink && |Trim(reason)| >= 3 && id < |w.statements| && w.statements[id].state != Invoiced && HasEntries(w, id)
    ensures AfterRelease(w, id, reason, mayUnlink).1.Err? ==>
      && AfterRelease(w, id, reason, mayUnlink).0 == w
      && AfterRelease(w, id, reason, mayUnlink).1.error ==
           if !mayUnlink then NotAManager else if |Trim(reason)| < 3 then NoReleaseReason
           else if id >= |w.statements| then NoStatementToRelease
           else if w.statements[id].state == Invoiced then ReleaseInvoiced else NoHoursAttached
  {
    TrimIsIdempotent(reason);
    if HasEntries(w, id) {
      var e :| 0 <= e < |w.entries| && StandsOn(w.entries[e], id);
      assert e in EntriesOn(w.entries, id);
    }
    if EntriesOn(w.entries, id) != {} {
      var e :| e in EntriesOn(w.entries, id);
      assert StandsOn(w.entries[e], id);
    }
  }

  /** It cancels the statement, frees just the entries it had, and says how many those were. */
  lemma ReleasedSays(w: World, id: StatementId, reason: string, mayUnlink: bool)
    requires AfterRelease(w, id, reason, mayUnlink).1.Ok?
    ensures id < |w.statements|
    ensures var after := AfterRelease(w, id, reason, mayUnlink).0;
            && after == w.(statements := w.statements[id := w.statements[id].(state := StatementState.Cancelled)], entries := after.entries)
            && |after.entries| == |w.entries|
            && (forall e :: 0 <= e < |w.entries| ==>
                  after.entries[e] == if StandsOn(w.entries[e], id) then w.entries[e].(line := None) else w.entries[e])
    ensures AfterRelease(w, id, reason, mayUnlink).1.value == |set e | 0 <= e < |w.entries| && StandsOn(w.entries[e], id)|
  {
    assert EntriesOn(w.entries, id) == set e | 0 <= e < |w.entries| && StandsOn(w.entries[e], id);
  }
}
