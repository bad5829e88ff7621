/** Where the quotation use cases stop short: refusals that leave a trace, and a sweep that takes several goes. */
module QuotationEdges {
  import opened Wrappers
  import opened Rounding
  import opened Money
  import opened Text
  import opened Quotation
  import opened QuotationDesk
  import opened QuotationRuns
  import L = Listing

  // ----- Numbers -----

  /**
    A refused draft uses up a number exactly when it was to be numbered from the sequence and either
    that number was already typed in by hand or the branch named is not a live one. Otherwise a
    refusal leaves the tables as they were.
   */
  lemma RefusedDraftTakesNumber(d: Desk, r: DraftRequest)
    ensures var (after, outcome) := AfterDrafting(d, r);
            && (outcome.Err? ==> after.quotations == d.quotations)
            && (outcome.Err? && after != d <==>
                  Draws(r) && (Taken(d, PrintNat(d.nextNumber))
                               || (r.branchCode.Some? && r.branchCode.value !in r.liveBranches)))
  {
    ReferencePresent(d, r);
  }

  /** A reference typed ahead of the sequence costs the next automatic draft its number. */
  lemma TypedReferenceLeavesGap(d: Desk, byHand: DraftRequest, next: DraftRequest)
    requires byHand.reference == Some(PrintNat(d.nextNumber)) && byHand.branchCode.None? && next.reference.None?
    requires !Taken(d, PrintNat(d.nextNumber))
    ensures var first := AfterDrafting(d, byHand);
            && first.1.Ok? && first.0.nextNumber == d.nextNumber
            && AfterDrafting(first.0, next).1 == Err(ReferenceTaken)
            && AfterDrafting(first.0, next).0.nextNumber == d.nextNumber + 1
  {
    PrintedIsTrimmed(d.nextNumber);
    var after := AfterDrafting(d, byHand).0;
    assert after.quotations[|d.quotations|].reference == PrintNat(d.nextNumber);
  }

  // ----- Sending -----

  /**
    The client has the mail and the office still has a draft exactly when the offer lapsed while the
    mail was on its way: the guards were asked before, and nothing else can refuse after.
   */
  lemma EmailedButStillDraft(d: Desk, id: QuotationId, r: SendRequest)
    ensures var sending := AfterSending(d, id, r);
            && (sending.emailed ==> id < |d.quotations|)
            && (sending.emailed ==>
                  (sending.outcome.Err? <==>
                     d.quotations[id].validUntil.Some? && r.asked < d.quotations[id].validUntil.value <= r.sent))
            && (sending.outcome.Err? ==> sending.desk == d)
  {}

  /** Sent by hand or by mail, and with which link: read off the row afterwards. */
  lemma SentSaysHow(d: Desk, id: QuotationId, r: SendRequest)
    requires AllSound(d) && AfterSending(d, id, r).outcome.Ok?
    ensures var q := AfterSending(d, id, r).desk.quotations[id];
            && q.state == Sent && q.sentVia == Some(AfterSending(d, id, r).outcome.value) && q.sentAt == Some(r.sent)
            && (AfterSending(d, id, r).emailed <==> r.deliver)
            && (r.deliver ==> q.linkTokenHash == Some(DigestOf(r.token)) && q.linkExpiresAt == Some(r.issued + r.linkDays * DAY))
            && (!r.deliver ==> SameLink(q, d.quotations[id]))
            && SameOffer(d.quotations[id], q)
  {
    assert QuotationSound(d.quotations[id]);
  }

  // ----- Links -----

  /**
    A live link opens its quotation whatever has become of it since. Answering asks for more: it goes
    through just when the offer is still out, and says so differently from a link that is dead.
   */
  lemma LiveLinkOpensWhateverTheState(d: Desk, token: string, accept: bool, checked: Instant, now: Instant)
    ensures var found := Opens(d.quotations, token, checked);
            && (AfterOpen(d, token, checked, now).1.Ok? <==> found.Some?)
            && (AfterAnswer(d, token, accept, checked, now).1.Ok? <==> found.Some? && d.quotations[found.value].state == Sent)
            && (AfterAnswer(d, token, accept, checked, now).1 == Err(Refused(NotOutWithClient)) <==>
                  found.Some? && d.quotations[found.value].state != Sent)
            && (AfterAnswer(d, token, accept, checked, now).1 == Err(LinkUnavailable) <==> found.None?)
  {}

  // ----- What the line table refuses that the aggregate does not -----

  /** Of the lines a quotation accepts, the table refuses just the estimates that round to no time at all, or have a negative rate. */
  lemma RefusedByTheTable(line: QuotationLine, currency: Currency)
    requires LineFault(line, currency).None?
    ensures Storable(line) <==>
      (line.pricing.Hours? ==> line.pricing.hours >= 0.005 && line.pricing.perHour.minor >= 0)
  {
    if line.pricing.Hours? {
      var h := line.pricing.hours;
      assert Centi(h) > 0 <==> h * 100.0 + 0.5 >= 1.0;
    }
  }

  // ----- Sweeping lapsed offers -----

  /**
    The query is stricter than the rule by up to a day: an offer it lists always expires, and one that may
    expire and is not listed is one whose last day has come but not gone.
   */
  lemma QueryLeavesToday(s: Snapshot, asOf: Instant)
    ensures Lapsed(s, asOf) ==> AfterExpire(s, asOf).Ok?
    ensures AfterExpire(s, asOf).Ok? && !Lapsed(s, asOf) <==>
      s.state == Sent && s.validUntil.Some? && DateOf(asOf) <= s.validUntil.value <= asOf
  {}

  /** As the table keeps it, that is an offer valid until this very date. */
  lemma StoredQueryLeavesToday(s: Snapshot, asOf: Instant)
    requires Stored(s) == s
    ensures AfterExpire(s, asOf).Ok? && !Lapsed(s, asOf) <==> s.state == Sent && s.validUntil == Some(DateOf(asOf))
  {
    if s.validUntil.Some? {
      SameDate(s.validUntil.value, asOf);
    }
  }

  lemma SameDate(midnight: Instant, moment: Instant)
    requires DateOf(midnight) == midnight
    ensures DateOf(moment) <= midnight <= moment <==> midnight == DateOf(moment)
  {}

  function LapsedIds(quotations: seq<Snapshot>, asOf: Instant): set<QuotationId> {
    set i | 0 <= i < |quotations| && Lapsed(quotations[i], asOf)
  }

  /** One sweep takes out what it lists, and puts nothing else in. */
  lemma {:induction false} SweepTakesListed(quotations: seq<Snapshot>, asOf: Instant, limit: nat, ids: seq<QuotationId>)
    requires L.IsFirst(LapsedKeys(quotations, asOf), limit, ids)
    ensures L.Members(ids) <= LapsedIds(quotations, asOf) && |L.Members(ids)| == |ids|
    ensures LapsedIds(Expiring(quotations, ids, asOf), asOf) == LapsedIds(quotations, asOf) - L.Members(ids)
    ensures |ids| < limit ==> L.Members(ids) == LapsedIds(quotations, asOf)
  {
    ListedExpire(quotations, ids, asOf);
    L.ListsWhatFits(LapsedKeys(quotations, asOf), limit, ids);
    assert L.Wanted(LapsedKeys(quotations, asOf)) == LapsedIds(quotations, asOf);
    forall i ensures i in L.Members(ids) <==> i in ids {}
  }

  ghost predicate Sweeps(quotations: seq<Snapshot>, asOf: Instant, limit: nat, listings: seq<seq<QuotationId>>)
    decreases |listings|
  {
    listings != [] ==>
      L.IsFirst(LapsedKeys(quotations, asOf), limit, listings[0])
      && Sweeps(Expiring(quotations, listings[0], asOf), asOf, limit, listings[1..])
  }

  function AfterSweeps(quotations: seq<Snapshot>, asOf: Instant, listings: seq<seq<QuotationId>>): seq<Snapshot>
    decreases |listings|
  {
    if listings == [] then quotations else AfterSweeps(Expiring(quotations, listings[0], asOf), asOf, listings[1..])
  }

  /** Each sweep at one instant takes out a whole batch until none is left, whichever offers a tie lists first. */
  lemma {:induction false} SweepsDrain(quotations: seq<Snapshot>, asOf: Instant, limit: nat, listings: seq<seq<QuotationId>>)
    requires Sweeps(quotations, asOf, limit, listings)
    ensures var left: int := |LapsedIds(quotations, asOf)| - limit * |listings|;
            |LapsedIds(AfterSweeps(quotations, asOf, listings), asOf)| == if left < 0 then 0 else left
    decreases |listings|
  {
    if listings != [] {
      var ids := listings[0];
      SweepTakesListed(quotations, asOf, limit, ids);
      var after := Expiring(quotations, ids, asOf);
      assert |LapsedIds(after, asOf)| == |LapsedIds(quotations, asOf)| - |ids|;
      SweepsDrain(after, asOf, limit, listings[1..]);
      OneSweepLess(limit, |listings|);
    }
  }

  lemma OneSweepLess(limit: nat, sweeps: nat)
    requires sweeps > 0
    ensures limit * sweeps == limit + limit * (sweeps - 1)
    ensures limit * (sweeps - 1) >= 0
  {}

  /** What the rule would still let expire. */
  function ExpirableIds(quotations: seq<Snapshot>, asOf: Instant): set<QuotationId> {
    set i | 0 <= i < |quotations| && AfterExpire(quotations[i], asOf).Ok?
  }

  function ValidUntilToday(quotations: seq<Snapshot>, asOf: Instant): set<QuotationId> {
    set i | 0 <= i < |quotations| && quotations[i].state == Sent && quotations[i].validUntil == Some(DateOf(asOf))
  }

  ghost predicate AllStored(quotations: seq<Snapshot>) {
    forall i :: 0 <= i < |quotations| ==> Stored(quotations[i]) == quotations[i]
  }

  lemma SweepKeepsToday(quotations: seq<Snapshot>, asOf: Instant, limit: nat, ids: seq<QuotationId>)
    requires AllStored(quotations) && L.IsFirst(LapsedKeys(quotations, asOf), limit, ids)
    ensures AllStored(Expiring(quotations, ids, asOf))
    ensures ValidUntilToday(Expiring(quotations, ids, asOf), asOf) == ValidUntilToday(quotations, asOf)
  {
    ListedExpire(quotations, ids, asOf);
    forall i | 0 <= i < |quotations| ensures Stored(quotations[i].(state := Expired)) == quotations[i].(state := Expired) {
      assert Stored(quotations[i]) == quotations[i];
    }
  }

  lemma {:induction false} SweepsKeepToday(quotations: seq<Snapshot>, asOf: Instant, limit: nat, listings: seq<seq<QuotationId>>)
    requires AllStored(quotations) && Sweeps(quotations, asOf, limit, listings)
    ensures AllStored(AfterSweeps(quotations, asOf, listings))
    ensures ValidUntilToday(AfterSweeps(quotations, asOf, listings), asOf) == ValidUntilToday(quotations, asOf)
    decreases |listings|
  {
    if listings != [] {
      SweepKeepsToday(quotations, asOf, limit, listings[0]);
      SweepsKeepToday(Expiring(quotations, listings[0], asOf), asOf, limit, listings[1..]);
    }
  }

  /**
    Once enough sweeps have drained the list, what could still expire at that moment is exactly what is
    valid until that very date: however many sweeps the day brings, those offers stay out until the next.
   */
  lemma DrainedButForToday(quotations: seq<Snapshot>, asOf: Instant, limit: nat, listings: seq<seq<QuotationId>>)
    requires AllStored(quotations) && Sweeps(quotations, asOf, limit, listings)
    requires |LapsedIds(quotations, asOf)| <= limit * |listings|
    ensures ExpirableIds(AfterSweeps(quotations, asOf, listings), asOf) == ValidUntilToday(quotations, asOf)
  {
    var after := AfterSweeps(quotations, asOf, listings);
    SweepsDrain(quotations, asOf, limit, listings);
    SweepsKeepToday(quotations, asOf, limit, listings);
    assert LapsedIds(after, asOf) == {};
    forall i | 0 <= i < |after| ensures AfterExpire(after[i], asOf).Ok? <==> i in ValidUntilToday(after, asOf) {
      assert i !in LapsedIds(after, asOf);
      StoredQueryLeavesToday(after[i], asOf);
    }
  }

  // ----- Answering after the last day -----

  predicate TakesLapsedPrice(d: Desk, token: string, accept: bool, checked: Instant, now: Instant) {
    var found := Opens(d.quotations, token, checked);
    && AfterAnswer(d, token, accept, checked, now).1.Ok?
    && d.quotations[found.value].validUntil.Some? && d.quotations[found.value].validUntil.value <= now
  }

  /**
    Answering looks at the state and not at the date: a price that has lapsed is taken exactly if the link is
    live and the offer one that `expire` would end, and it is taken as it stood.
   */
  lemma LapsedPriceIsTaken(d: Desk, token: string, accept: bool, checked: Instant, now: Instant)
    requires AllStored(d.quotations)
    ensures var found := Opens(d.quotations, token, checked);
            TakesLapsedPrice(d, token, accept, checked, now) <==> found.Some? && AfterExpire(d.quotations[found.value], now).Ok?
    ensures TakesLapsedPrice(d, token, accept, checked, now) ==>
      var id, after := Opens(d.quotations, token, checked).value, AfterAnswer(d, token, accept, checked, now).0;
      && SameOffer(d.quotations[id], after.quotations[id])
      && after.quotations[id].state == if accept then Accepted else Declined
  {
    var found := Opens(d.quotations, token, checked);
    if found.Some? {
      assert Stored(d.quotations[found.value]) == d.quotations[found.value];
    }
  }

  /** Right after the sweeps have drained it is taken exactly if it lapsed today. */
  lemma LapsedTodayIsTaken(d: Desk, swept: Desk, asOf: Instant, limit: nat, listings: seq<seq<QuotationId>>, token: string, accept: bool)
    requires AllStored(d.quotations) && Sweeps(d.quotations, asOf, limit, listings)
    requires |LapsedIds(d.quotations, asOf)| <= limit * |listings|
    requires swept == d.(quotations := AfterSweeps(d.quotations, asOf, listings))
    ensures var found := Opens(swept.quotations, token, asOf);
            TakesLapsedPrice(swept, token, accept, asOf, asOf) <==>
              found.Some? && found.value in ValidUntilToday(d.quotations, asOf)
  {
    DrainedButForToday(d.quotations, asOf, limit, listings);
    SweepsKeepToday(d.quotations, asOf, limit, listings);
    LapsedPriceIsTaken(swept, token, accept, asOf, asOf);
    var found := Opens(swept.quotations, token, asOf);
    if found.Some? {
      assert found.value in ExpirableIds(swept.quotations, asOf) <==> AfterExpire(swept.quotations[found.value], asOf).Ok?;
    }
  }
}
