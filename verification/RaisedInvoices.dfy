/** What an invoice says once it is raised: for whom, how much with VAT, by when, and for what work. */
module RaisedInvoices {
  import opened Wrappers
  import opened Rounding
  import opened Money
  import opened Text
  import opened Statement
  import opened BillingPipeline
  import opened BillingRuns
  import I = Invoice

  /** The invoice raised by an accepted request, in some reachable state of the tables. */
  ghost predicate Raises(w: World, first: nat, r: RaiseRequest, invoice: I.InvoiceSnapshot) {
    && Reached(w, first) && Enabled(w, Raise(r)) && AfterRaise(w, r).1.Ok?
    && |AfterRaise(w, r).0.invoices| > 0 && AfterRaise(w, r).0.invoices[|AfterRaise(w, r).0.invoices| - 1] == invoice
  }

  lemma RaisesIs(w: World, first: nat, r: RaiseRequest, invoice: I.InvoiceSnapshot)
    requires Raises(w, first, r, invoice)
    ensures r.statement < |w.statements| && StatementSound(w.statements[r.statement])
    ensures w.statements[r.statement].state == StatementState.Approved
    ensures RaisedFrom(w, r) == Ok(invoice) && I.Net(invoice) == Total(w.statements[r.statement].lines)
  {
    ReachedIsSound(w, first);
    RefusedRaiseTakesNoNumber(w, r, first);
    NothingRefusesAfterTheNumber(w, r, first);
  }

  /** When a raise goes through, and what a refused one is told: the first of these that applies. */
  lemma RaisedIff(w: World, first: nat, r: RaiseRequest)
    requires Reached(w, first) && Enabled(w, Raise(r))
    ensures var known := r.statement < |w.statements|;
            var state := if known then w.statements[r.statement].state else StatementState.Draft;
            AfterRaise(w, r).1 ==
              if !known then Err(NoSuchStatement)
              else if state == StatementState.Invoiced then Err(InvoicedAlready)
              else if state != StatementState.Approved then Err(NotYetApproved)
              else if r.branchCode.Some? && r.branchCode.value !in r.liveBranches then Err(NotABranch)
              else if r.branchCode.None? && r.liveBranches != {} then Err(ChooseABranch)
              else Ok(PrintNat(first + |w.invoices|))
  {
    ReachedIsSound(w, first);
    RefusedRaiseTakesNoNumber(w, r, first);
    NothingRefusesAfterTheNumber(w, r, first);
  }

  /** It is addressed as the statement and the request say, and due so many whole days after it is issued. */
  lemma InvoiceIsFor(w: World, first: nat, r: RaiseRequest, invoice: I.InvoiceSnapshot)
    requires Raises(w, first, r, invoice)
    ensures r.statement < |w.statements| && w.statements[r.statement].state == StatementState.Approved
    ensures invoice.client == w.statements[r.statement].client && invoice.currency == w.statements[r.statement].currency
    ensures invoice.statement == r.statement && invoice.branchCode == r.branchCode && invoice.issuedBy == r.issuedBy
    ensures r.branchCode.Some? ==> r.branchCode.value in r.liveBranches
    ensures r.branchCode.None? ==> r.liveBranches == {}
    ensures invoice.issuedOn == r.now && invoice.dueOn - invoice.issuedOn == r.settings.paymentTermsDays * 86_400_000
    ensures invoice.settlement == I.Issued && invoice.payments == [] && invoice.overdueSince.None?
    ensures invoice.number == PrintNat(w.nextNumber)
  {
    RaisesIs(w, first, r, invoice);
    PrintedIsTrimmed(w.nextNumber);
  }

  /**
    What it charges: the statement's total, and on it the VAT of the configured rate, to the nearest minor unit and
    no other amount.
   */
  lemma InvoiceCharges(w: World, first: nat, r: RaiseRequest, invoice: I.InvoiceSnapshot, vat: int)
    requires Raises(w, first, r, invoice)
    ensures r.statement < |w.statements|
    ensures var total := Total(w.statements[r.statement].lines);
            && I.Net(invoice) == total > 0
            && (NearestHalfAway(total * r.settings.vatBasisPoints, 10_000, vat) <==> vat == I.Vat(invoice))
            && I.Balance(invoice) == total + I.Vat(invoice)
  {
    RaisesIs(w, first, r, invoice);
    I.RaisedIsSound(invoice.client, r.statement, PrintNat(w.nextNumber), r.branchCode, invoice.currency,
                    BilledLines(w.statements[r.statement].lines), r.settings.vatBasisPoints, r.now,
                    r.now + r.settings.paymentTermsDays * DAY, r.issuedBy);
    NearestIsUnique(Total(w.statements[r.statement].lines) * r.settings.vatBasisPoints, 10_000, vat);
  }

  // ----- Its lines -----

  /** The places of the lines that were kept, from the first to the last. */
  ghost predicate KeptPlaces(lines: seq<StatementLine>, places: seq<nat>) {
    && (forall k :: 0 <= k < |places| ==> places[k] < |lines| && !lines[places[k]].excluded)
    && (forall j, k :: 0 <= j < k < |places| ==> places[j] < places[k])
    && (forall l :: 0 <= l < |lines| && !lines[l].excluded ==> l in places)
  }

  /** The same project, service, hours and amount. */
  predicate SaysWhat(billed: I.InvoiceLine, line: StatementLine) {
    && billed.project == line.project && billed.service == line.service && billed.worked == line.worked
    && billed.amount.minor == LineAmount(line) && billed.amount.currency == LineCurrency(line)
  }

  ghost predicate CarriesKept(billed: seq<I.InvoiceLine>, lines: seq<StatementLine>, places: seq<nat>) {
    && KeptPlaces(lines, places) && |billed| == |places|
    && forall k :: 0 <= k < |places| ==> SaysWhat(billed[k], lines[places[k]])
  }

  lemma {:induction false} BilledCarryKept(lines: seq<StatementLine>) returns (places: seq<nat>)
    ensures CarriesKept(BilledLines(lines), lines, places)
  {
    if lines == [] {
      places := [];
    } else {
      var init, last := lines[..|lines| - 1], lines[|lines| - 1];
      var before := BilledCarryKept(init);
      assert lines == init + [last];
      places := if last.excluded then before else before + [|init|];
      OneMoreKept(init, last, before, BilledLines(init));
    }
  }

  lemma OneMoreKept(init: seq<StatementLine>, last: StatementLine, before: seq<nat>, billed: seq<I.InvoiceLine>)
    requires CarriesKept(billed, init, before)
    ensures CarriesKept(if last.excluded then billed else billed + [BilledLine(last)], init + [last],
                        if last.excluded then before else before + [|init|])
  {
    var places := if last.excluded then before else before + [|init|];
    forall l | 0 <= l < |init + [last]| && !(init + [last])[l].excluded ensures l in places {
      if l < |init| {
        assert l in before;
      } else {
        assert places[|before|] == l;
      }
    }
  }

  /** The invoice has a line for each line that was kept, in order, saying the same work and amount. */
  lemma InvoiceCarriesTheWork(w: World, first: nat, r: RaiseRequest, invoice: I.InvoiceSnapshot) returns (places: seq<nat>)
    requires Raises(w, first, r, invoice)
    ensures r.statement < |w.statements| && CarriesKept(invoice.lines, w.statements[r.statement].lines, places)
  {
    RaisesIs(w, first, r, invoice);
    places := BilledCarryKept(w.statements[r.statement].lines);
  }

  /**
    The quantity printed: the hours to the nearest hundredth at the hourly rate, for hourly work that was not
    adjusted and makes a hundredth; for everything else one, at the amount.
   */
  lemma QuantityIs(line: StatementLine, centi: int)
    requires SoundLine(line, LineCurrency(line)) && !line.excluded
    ensures var billed := BilledLine(line);
            if line.pricing.Hourly? && line.adjustedTo.None? && line.worked >= 18 then
              && billed.unitRate == Some(line.pricing.perHour)
              && (billed.quantityCenti == centi <==> NearestHalfAway(line.worked * 100, 3600, centi))
            else billed.quantityCenti == 100 && billed.unitRate == Some(Money(LineAmount(line), LineCurrency(line)))
  {
    HalfUpAgrees(line.worked * 100, 3600);
    NearestIsUnique(line.worked * 100, 3600, centi);
    HalfUpBounds(line.worked * 100, 3600, RoundHalfUp(line.worked * 100, 3600));
  }
}
