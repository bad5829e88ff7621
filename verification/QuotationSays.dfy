/** What each use case of the office leaves on a quotation, and exactly when it goes through. */
module QuotationSays {
  import opened Wrappers
  import opened Rounding
  import opened Money
  import opened Text
  import opened Quotation
  import opened QuotationDesk
  import opened QuotationRuns
  import E = QuotationEdges
  import L = Listing

  // ----- Dates -----

  /** Midnight of the same day, counted in days of 86 400 000 milliseconds. */
  lemma DateIs(moment: Instant)
    ensures DateOf(moment) % 86_400_000 == 0 && DateOf(moment) <= moment < DateOf(moment) + 86_400_000
  {}

  // ----- Drafts -----

  predicate Tidied(text: Option<string>, given: Option<string>) {
    text == if given.Some? && Trim(given.value) != "" then Some(Trim(given.value)) else None
  }

  /** A draft goes through exactly if its reference is free and its branch, if it names one, is live. */
  lemma DraftedIff(d: Desk, r: DraftRequest)
    ensures var typed := if r.reference.Some? then Trim(r.reference.value) else "";
            var reference := if typed == "" then PrintNat(d.nextNumber) else typed;
            && (AfterDrafting(d, r).1.Ok? <==>
                  && (forall i :: 0 <= i < |d.quotations| ==> d.quotations[i].reference != reference)
                  && (r.branchCode.Some? ==> r.branchCode.value in r.liveBranches))
            && (AfterDrafting(d, r).1.Err? ==>
                  AfterDrafting(d, r).1.error ==
                    if exists i :: 0 <= i < |d.quotations| && d.quotations[i].reference == reference then ReferenceTaken else NotABranch)
            && AfterDrafting(d, r).0.nextNumber == d.nextNumber + (if typed == "" then 1 else 0)
  {
    PrintedIsTrimmed(d.nextNumber);
    if r.reference.Some? { TrimIsIdempotent(r.reference.value); }
  }

  lemma DraftSays(d: Desk, r: DraftRequest)
    requires AfterDrafting(d, r).1.Ok?
    ensures AfterDrafting(d, r).1 == Ok(|d.quotations|)
    ensures var after := AfterDrafting(d, r).0.quotations;
            && |after| == |d.quotations| + 1 && after[..|d.quotations|] == d.quotations
            && var q := after[|d.quotations|];
               && q.client == r.client && q.branchCode == r.branchCode && q.currency == r.currency && q.lines == []
               && q.reference == (if r.reference.Some? && Trim(r.reference.value) != "" then Trim(r.reference.value)
                                  else PrintNat(d.nextNumber))
               && q.state == QuotationState.Draft && q.createdBy == r.createdBy && q.createdAt == r.now
               && Tidied(q.notesEn, r.notesEn) && Tidied(q.notesAr, r.notesAr)
               && (q.validUntil.Some? <==> r.validUntil.Some?)
               && (q.validUntil.Some? ==> q.validUntil.value % 86_400_000 == 0
                                          && q.validUntil.value <= r.validUntil.value < q.validUntil.value + 86_400_000)
               && q.sentAt.None? && q.sentVia.None? && q.linkTokenHash.None? && q.linkExpiresAt.None? && q.linkOpenedAt.None?
               && q.decidedBy.None? && q.decidedAt.None?
  {
    PrintedIsTrimmed(d.nextNumber);
    if r.reference.Some? { TrimIsIdempotent(r.reference.value); }
  }

  // ----- Lines -----

  /** The price asked for: so much an hour, or a sum; or neither, if both are given or one is not complete. */
  function Asked(c: LineCommand): Option<(bool, real, int)> {
    if c.amountMinor.Some? && !(c.hours.Some? && c.perHourMinor.Some?) then Some((false, 0.0, c.amountMinor.value))
    else if c.amountMinor.None? && c.hours.Some? && c.perHourMinor.Some? then Some((true, c.hours.value, c.perHourMinor.value))
    else None
  }

  function Plain(given: Option<string>): string {
    match given
    case Some(text) => Trim(text)
    case None => ""
  }

  function Discount(c: LineCommand): int {
    match c.discountMinor
    case Some(minor) => minor
    case None => 0
  }

  /** What the line is offered for, before the discount: a sum, or the hours to the nearest hundredth at the rate. */
  ghost predicate OfferedFor(price: (bool, real, int), minor: int, centi: int) {
    if !price.0 then minor == price.2
    else centi as real - 0.5 <= price.1 * 100.0 < centi as real + 0.5 && NearestHalfAway(price.2 * centi, 100, minor)
  }

  /** A sum, or hours at a rate, kept to the nearest whole hundredth of an hour, a half going up. */
  ghost predicate PricedAs(pricing: LinePricing, price: (bool, real, int), currency: Currency) {
    if !price.0 then pricing == FixedPrice(Money(price.2, currency))
    else
      && pricing.Hours? && pricing.perHour == Money(price.2, currency)
      && pricing.hours - 0.005 <= price.1 < pricing.hours + 0.005
      && pricing.hours * 100.0 == (pricing.hours * 100.0).Floor as real
  }

  lemma KeptAs(c: LineCommand, currency: Currency, vatBasisPoints: int)
    requires Asked(c).Some?
    ensures PricedAs(StoredLine(LineOf(c, PriceIt(c, currency).value, currency, vatBasisPoints)).pricing, Asked(c).value, currency)
  {}

  /** The line put on a quotation bears what was asked, and VAT at the given rate exactly if it is standard-rated. */
  lemma LineSays(d: Desk, id: QuotationId, c: LineCommand, vatBasisPoints: int)
    requires AfterAdding(d, id, c, vatBasisPoints).1.Ok? && id < |d.quotations| && Stored(d.quotations[id]) == d.quotations[id]
    ensures var before, after := d.quotations[id], AfterAdding(d, id, c, vatBasisPoints).0.quotations;
            && |after| == |d.quotations| && (forall i :: 0 <= i < |after| && i != id ==> after[i] == d.quotations[i])
            && after[id] == before.(lines := after[id].lines)
            && |after[id].lines| == |before.lines| + 1 && after[id].lines[..|before.lines|] == before.lines
            && var line := after[id].lines[|before.lines|];
               && line.id == c.lineId && line.serviceCode == c.serviceCode
               && line.descriptionEn == Plain(c.descriptionEn) && line.descriptionAr == Plain(c.descriptionAr)
               && line.discount == Money(Discount(c), before.currency)
               && line.vatBasisPoints == (if c.standardRated then Some(vatBasisPoints) else None)
               && Asked(c).Some? && PricedAs(line.pricing, Asked(c).value, before.currency)
  {
    var before := d.quotations[id];
    var line := LineOf(c, PriceIt(c, before.currency).value, before.currency, vatBasisPoints);
    assert StoredLines(before.lines + [line])[..|before.lines|] == StoredLines(before.lines);
    KeptAs(c, before.currency, vatBasisPoints);
  }

  /** There is one price a line is offered for, and the line charges it. */
  lemma PriceOf(c: LineCommand, currency: Currency, centi: int, minor: int)
    requires Asked(c).Some?
    ensures PriceIt(c, currency).Some? && QuotedPrice(PriceIt(c, currency).value).currency == currency
    ensures OfferedFor(Asked(c).value, minor, centi) ==> QuotedPrice(PriceIt(c, currency).value).minor == minor
    ensures Asked(c).value.0 ==> OfferedFor(Asked(c).value, QuotedPrice(PriceIt(c, currency).value).minor, Centi(c.hours.value))
    ensures !Asked(c).value.0 ==> OfferedFor(Asked(c).value, QuotedPrice(PriceIt(c, currency).value).minor, 0)
  {
    if Asked(c).value.0 {
      OneCenti(c.hours.value, centi);
      NearestIsUnique(c.perHourMinor.value * centi, 100, minor);
      DivideIsNearest(c.perHourMinor.value * Centi(c.hours.value), 100);
    }
  }

  lemma OneCenti(hours: real, centi: int)
    ensures centi as real - 0.5 <= hours * 100.0 < centi as real + 0.5 <==> centi == Centi(hours)
  {}

  /** When a line offered to a draft is taken by the quotation, and what is said of the first thing wrong. */
  lemma LineFaultIs(line: QuotationLine, currency: Currency)
    ensures var price := QuotedPrice(line.pricing);
            LineFault(line, currency) ==
              if Trim(line.descriptionEn) == "" && Trim(line.descriptionAr) == "" then Some(NoDescription)
              else if price.currency != currency || line.discount.currency != currency then Some(ForeignCurrency)
              else if price.minor < 0 then Some(NegativeLine)
              else if line.pricing.Hours? && line.pricing.hours <= 0.0 then Some(NoHours)
              else if line.discount.minor < 0 then Some(NegativeDiscount)
              else if line.discount.minor > price.minor then Some(DiscountTooBig)
              else if line.vatBasisPoints.Some? && !(0 <= line.vatBasisPoints.value <= 10_000) then Some(NotAVatRate)
              else None
  {}

  /** A line is put on exactly if the quotation is a draft, the line is priced one way, and nothing about it is out of range. */
  lemma AddedIff(d: Desk, id: QuotationId, c: LineCommand, vatBasisPoints: int)
    requires AllSound(d) && id < |d.quotations| && Asked(c).Some?
    ensures var offered := QuotedPrice(PriceIt(c, d.quotations[id].currency).value).minor;
            AfterAdding(d, id, c, vatBasisPoints).1.Ok? <==>
              && d.quotations[id].state == QuotationState.Draft
              && (Plain(c.descriptionEn) != "" || Plain(c.descriptionAr) != "")
              && offered >= 0 && 0 <= Discount(c) <= offered
              && (Asked(c).value.0 ==> Asked(c).value.1 >= 0.005 && Asked(c).value.2 >= 0)
              && (c.standardRated ==> 0 <= vatBasisPoints <= 10_000)
  {
    var s := d.quotations[id];
    var line := LineOf(c, PriceIt(c, s.currency).value, s.currency, vatBasisPoints);
    assert QuotationSound(s);
    if c.descriptionEn.Some? { TrimIsIdempotent(c.descriptionEn.value); }
    if c.descriptionAr.Some? { TrimIsIdempotent(c.descriptionAr.value); }
    LineFaultIs(line, s.currency);
    if LineFault(line, s.currency).None? { E.RefusedByTheTable(line, s.currency); }
    forall i | 0 <= i < |s.lines| ensures (s.lines + [line])[i] == s.lines[i] {}
    assert (s.lines + [line])[|s.lines|] == line;
  }

  lemma UnpricedIsRefused(d: Desk, id: QuotationId, c: LineCommand, vatBasisPoints: int)
    requires id >= |d.quotations| || Asked(c).None?
    ensures AfterAdding(d, id, c, vatBasisPoints) == (d, Err(if id >= |d.quotations| then NoSuchQuotation else HowIsItPriced))
  {}

  // ----- Figures -----

  /** A line's VAT is that part of its net to the nearest unit, and none if it is outside VAT. */
  lemma VatOfLine(line: QuotationLine, vat: int)
    ensures LineNet(line) == QuotedPrice(line.pricing).minor - line.discount.minor
    ensures LineVat(line) == vat <==>
      if line.vatBasisPoints.Some? then NearestHalfAway(LineNet(line) * line.vatBasisPoints.value, 10_000, vat) else vat == 0
    ensures LineChargeable(line) == LineNet(line) + LineVat(line)
  {
    if line.vatBasisPoints.Some? { NearestIsUnique(LineNet(line) * line.vatBasisPoints.value, 10_000, vat); }
  }

  // ----- Changing, sending, lapsing -----

  /** A draft takes any live branch or none, and nothing else of it changes. */
  lemma BranchIff(d: Desk, id: QuotationId, branchCode: Option<string>, liveBranches: set<string>)
    requires E.AllStored(d.quotations)
    ensures AfterChange(d, id, SetBranch(branchCode), liveBranches).1.Ok? <==>
      && (branchCode.Some? ==> branchCode.value in liveBranches)
      && id < |d.quotations| && d.quotations[id].state == QuotationState.Draft
    ensures AfterChange(d, id, SetBranch(branchCode), liveBranches).1.Ok? ==>
      AfterChange(d, id, SetBranch(branchCode), liveBranches).0
      == d.(quotations := d.quotations[id := d.quotations[id].(branchCode := branchCode)])
  {}

  lemma {:induction false} WithoutIs(lines: seq<QuotationLine>, id: nat)
    ensures forall line :: line in Without(lines, id) <==> line in lines && line.id != id
    ensures |Without(lines, id)| == |lines| <==> forall l :: 0 <= l < |lines| ==> lines[l].id != id
  {
    if lines != [] {
      WithoutIs(lines[..|lines| - 1], id);
      assert lines == lines[..|lines| - 1] + [lines[|lines| - 1]];
    }
  }

  /** A line is taken off exactly if the quotation is a draft and has it. */
  lemma RemovedIff(s: Snapshot, id: nat)
    ensures AfterRemoveLine(s, id).Ok? <==> s.state == QuotationState.Draft && exists l :: 0 <= l < |s.lines| && s.lines[l].id == id
    ensures AfterRemoveLine(s, id).Ok? ==>
      var t := AfterRemoveLine(s, id).value;
      t == s.(lines := t.lines) && forall line :: line in t.lines <==> line in s.lines && line.id != id
  {
    WithoutIs(s.lines, id);
  }

  /** Sending asks for a draft with lines, not past its date, with a branch if the firm has any; by mail, also a way to reach the client. */
  lemma SentIff(d: Desk, id: QuotationId, r: SendRequest)
    requires r.linkDays > 0 && r.sent == r.asked
    ensures AfterSending(d, id, r).outcome.Ok? <==>
      && id < |d.quotations| && d.quotations[id].state == QuotationState.Draft && |d.quotations[id].lines| > 0
      && (d.quotations[id].validUntil.Some? ==> d.quotations[id].validUntil.value > r.asked)
      && (d.quotations[id].branchCode.Some? || !r.anyLiveBranch)
      && (r.deliver ==> r.channel.Some?)
  {}

  /** A link runs for whole days of 86 400 000 milliseconds, the first sent and any sent again. */
  lemma LinkRuns(d: Desk, id: QuotationId, r: SendRequest, token: string, linkDays: int, now: Instant, channel: Option<SentVia>)
    requires E.AllStored(d.quotations)
    ensures AfterSending(d, id, r).outcome.Ok? && r.deliver ==>
      && id < |AfterSending(d, id, r).desk.quotations|
      && AfterSending(d, id, r).desk.quotations[id].linkExpiresAt == Some(r.issued + r.linkDays * 86_400_000)
      && AfterSending(d, id, r).outcome == Ok(r.channel.value)
    ensures AfterSending(d, id, r).outcome.Ok? && !r.deliver ==> AfterSending(d, id, r).outcome == Ok(ByHand)
    ensures AfterSendAgain(d, id, token, linkDays, now, channel).1.Ok? <==>
      id < |d.quotations| && d.quotations[id].state == Sent && linkDays > 0 && channel.Some?
    ensures AfterSendAgain(d, id, token, linkDays, now, channel).1.Ok? ==>
      AfterSendAgain(d, id, token, linkDays, now, channel).0
      == d.(quotations := d.quotations[id := d.quotations[id].(
              linkTokenHash := Some(DigestOf(token)), linkExpiresAt := Some(now + linkDays * 86_400_000))])
  {
    if id < |d.quotations| { assert Stored(d.quotations[id]) == d.quotations[id]; }
  }

  /** Opening keeps the moment of the first opening and changes nothing else; a link lives until the moment it runs out. */
  lemma OpeningSays(d: Desk, token: string, checked: Instant, now: Instant)
    requires E.AllStored(d.quotations) && AfterOpen(d, token, checked, now).1.Ok?
    ensures var id := AfterOpen(d, token, checked, now).1.value;
            && id < |d.quotations|
            && d.quotations[id].linkTokenHash == Some(DigestOf(token)) && token != ""
            && d.quotations[id].linkExpiresAt.Some? && d.quotations[id].linkExpiresAt.value > checked
            && AfterOpen(d, token, checked, now).0
               == d.(quotations := d.quotations[id := d.quotations[id].(
                       linkOpenedAt := if d.quotations[id].linkOpenedAt.Some? then d.quotations[id].linkOpenedAt else Some(now))])
  {
    var id := AfterOpen(d, token, checked, now).1.value;
    assert Stored(d.quotations[id]) == d.quotations[id];
  }

  /** An offer expires exactly if it is out and its last moment has come, and only its state changes. */
  lemma ExpiredIff(s: Snapshot, now: Instant)
    ensures AfterExpire(s, now).Ok? <==> s.state == Sent && s.validUntil.Some? && s.validUntil.value <= now
    ensures AfterExpire(s, now).Ok? ==> AfterExpire(s, now).value == s.(state := Expired)
  {}

  /** The sweep lists offers that are out and whose last day is over, the longest over first, and no more than its limit. */
  lemma ListedSays(quotations: seq<Snapshot>, asOf: Instant, limit: nat, ids: seq<QuotationId>, i: QuotationId)
    requires L.IsFirst(LapsedKeys(quotations, asOf), limit, ids) && i < |quotations|
    ensures var over := quotations[i].state == Sent && quotations[i].validUntil.Some?
                        && quotations[i].validUntil.value < asOf - asOf % 86_400_000;
            && |ids| <= limit && (i in ids ==> over)
            && (over && i !in ids ==>
                  |ids| == limit && forall n :: 0 <= n < |ids| ==>
                    ids[n] < |quotations| && quotations[ids[n]].validUntil.Some?
                    && quotations[ids[n]].validUntil.value <= quotations[i].validUntil.value)
  {
    var keys := LapsedKeys(quotations, asOf);
    assert keys[i].Some? <==> Lapsed(quotations[i], asOf);
    forall n | 0 <= n < |ids| ensures ids[n] < |quotations| && keys[ids[n]] == quotations[ids[n]].validUntil {}
  }

  /** The row's columns that go together, and the line's ranges. */
  lemma ChecksAre(s: Snapshot, line: QuotationLine)
    ensures RowHolds(s) <==>
      && Trim(s.reference) != ""
      && (s.sentAt.Some? <==> s.state != QuotationState.Draft)
      && (s.decidedAt.Some? <==> s.state == Accepted || s.state == Declined)
      && (s.validUntil.None? ==> s.state != Expired)
      && (s.sentVia.None? ==> s.sentAt.None?)
      && (s.linkTokenHash.Some? <==> s.linkExpiresAt.Some?)
    ensures Storable(line) <==>
      && (Trim(line.descriptionEn) != "" || Trim(line.descriptionAr) != "")
      && 0 <= line.discount.minor <= QuotedPrice(line.pricing).minor
      && (line.pricing.Hours? ==> line.pricing.hours >= 0.005 && line.pricing.perHour.minor >= 0)
      && (line.vatBasisPoints.Some? ==> 0 <= line.vatBasisPoints.value <= 10_000)
  {
    if line.pricing.Hours? { OneCenti(line.pricing.hours, Centi(line.pricing.hours)); }
  }
}
