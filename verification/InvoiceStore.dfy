/**
  An invoice and the tables that keep it: what their checks let through, and so which of the
  invoice's steps are ever stored.
 */
module InvoiceStore {
  import opened Wrappers
  import opened Money
  import opened Text
  import opened Invoice
  import R = ReadSide
  import S = Statement
  import P = BillingPipeline
  import B = BillingRuns
  import D = Drift

  /** The columns the table's checks speak of. */
  datatype InvoiceRow = InvoiceRow(
    number: string, settlement: Settlement, vatBasisPoints: int, issuedOn: Instant, dueOn: Instant,
    overdueSince: Option<Instant>, cancelledReason: Option<string>)

  datatype Tables = Tables(row: Option<InvoiceRow>, lines: seq<InvoiceLine>, payments: map<string, Payment>)

  /** At least so many characters are left when the spaces at both ends, and only those, are taken off. */
  predicate Spans(s: string, n: nat) {
    exists i, j :: 0 <= i < |s| && 0 <= j < |s| && i + n <= j + 1 && s[i] != ' ' && s[j] != ' '
  }

  function OrEmpty(text: Option<string>): string {
    if text.Some? then text.value else ""
  }

  predicate RowHolds(row: InvoiceRow) {
    && Spans(row.number, 1) && row.issuedOn <= row.dueOn && 0 <= row.vatBasisPoints <= BASIS_POINTS
    && (row.settlement in {Paid, Cancelled} ==> row.overdueSince.None?)
    && (row.settlement == Cancelled ==> Spans(OrEmpty(row.cancelledReason), 3))
  }

  predicate LineHolds(line: InvoiceLine) {
    && line.amount.minor >= 0 && line.worked >= 0 && line.quantityCenti > 0
    && (line.unitRate.Some? ==> line.unitRate.value.minor >= 0)
  }

  predicate PlainCode(code: string) {
    0 < |code| <= 40 && forall i :: 0 <= i < |code| ==> 'a' <= code[i] <= 'z' || '0' <= code[i] <= '9' || code[i] == '_'
  }

  predicate PaymentHolds(p: Payment) {
    && p.amount.minor > 0 && p.discount.minor >= 0 && PlainCode(p.paidBy)
    && (p.discount.minor > 0 ==> Spans(OrEmpty(p.discountReason), 1))
    && (p.paidBy == "cheque" || (p.chequeNumber.None? && p.chequeDate.None?))
  }

  // ----- Saving -----

  /** What the insert puts forward; it does not name the reason for cancelling. */
  function Proposed(s: InvoiceSnapshot): InvoiceRow {
    InvoiceRow(s.number, s.settlement, s.vatBasisPoints, s.issuedOn, s.dueOn, s.overdueSince, None)
  }

  /** What becomes of a row already there. */
  function Upserted(stored: Option<InvoiceRow>, s: InvoiceSnapshot): InvoiceRow {
    if stored.None? then Proposed(s) else stored.value.(settlement := s.settlement, overdueSince := s.overdueSince)
  }

  /** The checks apply to what is put forward before a conflict is looked for, and to what is stored. */
  predicate Accepts(t: Tables, s: InvoiceSnapshot) {
    && RowHolds(Proposed(s)) && RowHolds(Upserted(t.row, s))
    && (forall l :: 0 <= l < |s.lines| ==> LineHolds(s.lines[l]))
    && (forall p :: 0 <= p < |s.payments| ==> PaymentHolds(s.payments[p]))
  }

  /** Lines already there stay as they are. */
  function KeptLines(stored: seq<InvoiceLine>, lines: seq<InvoiceLine>): seq<InvoiceLine> {
    if |stored| >= |lines| then stored else stored + lines[|stored|..]
  }

  function Saved(t: Tables, s: InvoiceSnapshot): Tables {
    Tables(Some(Upserted(t.row, s)), KeptLines(t.lines, s.lines), R.Inserted(t.payments, s.payments))
  }

  class InvoiceTables {
    var tables: Tables

    constructor ()
      ensures tables == Tables(None, [], map[])
    {
      tables := Tables(None, [], map[]);
    }

    /** A check that fails throws, and the unit of work takes back what was written before it. */
    method Save(s: InvoiceSnapshot) returns (stored: bool)
      modifies this
      ensures stored == Accepts(old(tables), s)
      ensures tables == if stored then Saved(old(tables), s) else old(tables)
    {
      var row, lines := Upserted(tables.row, s), tables.lines;
      if !RowHolds(Proposed(s)) || !RowHolds(row) {
        return false;
      }
      for position := 0 to |s.lines|
        invariant forall l :: 0 <= l < position ==> LineHolds(s.lines[l])
        invariant lines == KeptLines(tables.lines, s.lines[..position])
        invariant tables == old(tables)
      {
        if !LineHolds(s.lines[position]) {
          return false;
        }
        if position >= |lines| {
          lines := lines + [s.lines[position]];
        }
      }
      for p := 0 to |s.payments|
        invariant forall n :: 0 <= n < p ==> PaymentHolds(s.payments[n])
        invariant tables == old(tables)
      {
        if !PaymentHolds(s.payments[p]) {
          return false;
        }
      }
      assert s.lines[..|s.lines|] == s.lines;
      var payments := new R.PaymentTable();
      payments.rows := tables.payments;
      payments.Save(s.payments);
      tables := Tables(Some(row), lines, payments.rows);
      return true;
    }
  }

  // ----- The first save -----

  lemma TrimmedSpans(s: string)
    requires !Blank(s)
    ensures Spans(Trim(s), 1)
  {
    TrimStartEnds(s);
    TrimEndEnds(TrimStart(s));
    var t := Trim(s);
    assert t[0] != ' ';
  }

  lemma {:induction false} BilledLinesHold(lines: seq<S.StatementLine>, currency: Currency)
    requires S.SoundLines(lines, currency)
    ensures forall l :: 0 <= l < |P.BilledLines(lines)| ==> LineHolds(P.BilledLines(lines)[l])
  {
    if lines != [] {
      var init, last := lines[..|lines| - 1], lines[|lines| - 1];
      BilledLinesHold(init, currency);
      if !last.excluded {
        D.PrintedReachesAmount(last, currency);
        S.AmountIsNonNegative(last, currency);
      }
    }
  }

  /** In every reachable state of the office, an invoice that is raised passes every check and bears a number nobody has. */
  lemma {:induction false} RaisedIsStored(w: P.World, r: P.RaiseRequest, first: nat)
    requires B.Reached(w, first) && B.Enabled(w, B.Raise(r)) && P.RefusedFirst(w, r).None?
    ensures P.RaisedFrom(w, r).Ok? && Storable(P.RaisedFrom(w, r).value)
    ensures forall k :: 0 <= k < |w.invoices| ==> w.invoices[k].number != P.RaisedFrom(w, r).value.number
  {
    B.ReachedIsSound(w, first);
    B.NothingRefusesAfterTheNumber(w, r, first);
    RaisedIsStorable(w, r);
    NumberIsNew(w, first);
  }

  lemma RaisedIsStorable(w: P.World, r: P.RaiseRequest)
    requires r.statement < |w.statements| && B.StatementSound(w.statements[r.statement]) && P.RaisedFrom(w, r).Ok?
    ensures Storable(P.RaisedFrom(w, r).value)
  {
    BilledLinesHold(w.statements[r.statement].lines, w.statements[r.statement].currency);
    PrintedIsTrimmed(w.nextNumber);
    TrimmedSpans(PrintNat(w.nextNumber));
  }

  lemma NumberIsNew(w: P.World, first: nat)
    requires B.NumbersSound(w, first)
    ensures forall k :: 0 <= k < |w.invoices| ==> w.invoices[k].number != PrintNat(w.nextNumber)
  {
    forall k | 0 <= k < |w.invoices| ensures w.invoices[k].number != PrintNat(w.nextNumber) {
      PrintThenParse(first + k);
      PrintThenParse(w.nextNumber);
    }
  }

  /** What every raised invoice is. */
  ghost predicate Storable(s: InvoiceSnapshot) {
    && Sound(s) && s.settlement == Issued && s.payments == [] && RowHolds(Proposed(s))
    && forall l :: 0 <= l < |s.lines| ==> LineHolds(s.lines[l])
  }

  // ----- Every step, with its save -----

  /** A use case loads the invoice, takes the step and saves; if the step or the save is refused, all is as before. */
  function Stepped(t: Tables, s: InvoiceSnapshot, step: Step): (Tables, InvoiceSnapshot) {
    match Attempt(s, step)
    case Err(_) => (t, s)
    case Ok(u) => if Accepts(t, u) then (Saved(t, u), u) else (t, s)
  }

  function StoredRun(t: Tables, s: InvoiceSnapshot, steps: seq<Step>): (Tables, InvoiceSnapshot)
    decreases |steps|
  {
    if steps == [] then (t, s) else StoredRun(Stepped(t, s, steps[0]).0, Stepped(t, s, steps[0]).1, steps[1..])
  }

  predicate Lasts(step: Step) {
    match step
    case Pay(payment) => PaymentHolds(payment)
    case SweepOverdue(_) => true
    case Cancel(_) => false
  }

  function Lasting(steps: seq<Step>): (lasting: seq<Step>)
    ensures NoSurcharges(lasting)
  {
    if steps == [] then [] else if Lasts(steps[0]) then [steps[0]] + Lasting(steps[1..]) else Lasting(steps[1..])
  }

  /** The tables hold this invoice, which was never cancelled. */
  ghost predicate StoredAs(t: Tables, s: InvoiceSnapshot) {
    && s.settlement != Cancelled && RowHolds(Proposed(s)) && t.row == Some(Proposed(s))
    && t.lines == s.lines && (forall l :: 0 <= l < |s.lines| ==> LineHolds(s.lines[l]))
    && R.Holds(t.payments, s.payments) && (forall p :: 0 <= p < |s.payments| ==> PaymentHolds(s.payments[p]))
  }

  ghost predicate Keeps(t: Tables, s: InvoiceSnapshot) {
    Sound(s) && StoredAs(t, s)
  }

  lemma FirstSaveKeeps(s: InvoiceSnapshot)
    requires Storable(s)
    ensures Accepts(Tables(None, [], map[]), s) && Keeps(Saved(Tables(None, [], map[]), s), s)
  {}

  lemma CancelIsRefused(t: Tables, s: InvoiceSnapshot)
    requires s.settlement == Cancelled
    ensures !Accepts(t, s)
  {}

  lemma RowStays(t: Tables, s: InvoiceSnapshot, u: InvoiceSnapshot)
    requires RowHolds(Proposed(s)) && t.row == Some(Proposed(s)) && SameDocument(s, u) && u.settlement != Cancelled
    requires u.overdueSince.Some? ==> u.settlement != Paid
    ensures RowHolds(Proposed(u)) && Upserted(t.row, u) == Proposed(u)
  {}

  /** The same document, further on, with the payments stored: the tables keep it. */
  lemma FurtherOn(t: Tables, s: InvoiceSnapshot, u: InvoiceSnapshot)
    requires StoredAs(t, s) && SameDocument(s, u) && u.settlement != Cancelled
    requires u.overdueSince.Some? ==> u.settlement != Paid
    requires R.Holds(R.Inserted(t.payments, u.payments), u.payments)
    requires forall p :: 0 <= p < |u.payments| ==> PaymentHolds(u.payments[p])
    ensures Accepts(t, u) && StoredAs(Saved(t, u), u)
  {
    RowStays(t, s, u);
  }

  lemma OnlyUnsettledAreLate(u: InvoiceSnapshot)
    requires Sound(u)
    ensures u.overdueSince.Some? ==> u.settlement != Paid
  {}

  lemma {:induction false} PaymentIs(t: Tables, s: InvoiceSnapshot, p: Payment, u: InvoiceSnapshot)
    requires R.Holds(t.payments, s.payments) && AfterPayment(s, p) == Ok(u)
    ensures u.payments == s.payments + [p] && u.settlement != Cancelled
    ensures R.Holds(R.Inserted(t.payments, u.payments), u.payments)
  {
    R.SavingAddsThePayment(t.payments, s, p);
  }

  lemma PaymentIsStored(t: Tables, s: InvoiceSnapshot, p: Payment, u: InvoiceSnapshot)
    requires StoredAs(t, s) && PaymentHolds(p) && u.payments == s.payments + [p] && u.settlement != Cancelled
    requires SameDocument(s, u) && R.Holds(R.Inserted(t.payments, u.payments), u.payments)
    requires u.overdueSince.Some? ==> u.settlement != Paid
    ensures Accepts(t, u) && StoredAs(Saved(t, u), u)
  {
    forall n | 0 <= n < |u.payments| ensures PaymentHolds(u.payments[n]) {
      assert u.payments[n] == if n < |s.payments| then s.payments[n] else p;
    }
    FurtherOn(t, s, u);
  }

  lemma BadPaymentIsRefused(t: Tables, s: InvoiceSnapshot, p: Payment)
    requires !PaymentHolds(p) && AfterPayment(s, p).Ok?
    ensures !Accepts(t, AfterPayment(s, p).value)
  {
    assert AfterPayment(s, p).value.payments[|s.payments|] == p;
  }

  lemma MarkIsStored(t: Tables, s: InvoiceSnapshot, u: InvoiceSnapshot)
    requires StoredAs(t, s) && u == s.(overdueSince := u.overdueSince) && u.settlement != Paid
    ensures Accepts(t, u) && StoredAs(Saved(t, u), u)
  {
    R.NothingNew(t.payments, s.payments);
    FurtherOn(t, s, u);
  }

  /** A step's save is refused exactly if it would store a cancellation, or a payment the table does not take. */
  lemma SteppedIs(t: Tables, s: InvoiceSnapshot, step: Step)
    requires Keeps(t, s)
    ensures Attempt(s, step).Ok? ==> (Accepts(t, Attempt(s, step).value) <==> Lasts(step))
    ensures var (after, u) := Stepped(t, s, step);
            Keeps(after, u) && u == if Lasts(step) then Next(s, step) else s
  {
    if Attempt(s, step).Ok? {
      match step
      case Pay(p) =>
        if PaymentHolds(p) { GoodPaymentIsStored(t, s, p); } else { BadPaymentIsRefused(t, s, p); }
      case SweepOverdue(asOf) =>
        StepKeepsSound(s, step);
        MarkIsStored(t, s, Next(s, step));
      case Cancel(_) => CancelIsRefused(t, Attempt(s, step).value);
    }
  }

  lemma GoodPaymentIsStored(t: Tables, s: InvoiceSnapshot, p: Payment)
    requires Keeps(t, s) && PaymentHolds(p) && AfterPayment(s, p).Ok?
    ensures var u := AfterPayment(s, p).value; Accepts(t, u) && Keeps(Saved(t, u), u)
  {
    var u := Next(s, Pay(p));
    StepKeepsSound(s, Pay(p));
    OnlyUnsettledAreLate(u);
    PaymentIs(t, s, p, u);
    PaymentIsStored(t, s, p, u);
  }

  lemma {:induction false} StoredRunFrom(t: Tables, s: InvoiceSnapshot, steps: seq<Step>)
    requires Keeps(t, s)
    ensures var (after, u) := StoredRun(t, s, steps); Keeps(after, u) && u == Run(s, Lasting(steps))
    decreases |steps|
  {
    if steps != [] {
      SteppedIs(t, s, steps[0]);
      var (next, u) := Stepped(t, s, steps[0]);
      StoredRunFrom(next, u, steps[1..]);
      if Lasts(steps[0]) {
        assert Lasting(steps)[1..] == Lasting(steps[1..]);
      }
    }
  }

  /**
    Whatever is asked of an invoice once it is raised and stored, the tables hold at the end just what they
    would hold if nobody had called for a cancellation, or for a payment the table does not take. So it is
    never cancelled, and all that is said of runs without surcharges is said of every stored invoice.
   */
  lemma {:induction false} StoredRunIs(s: InvoiceSnapshot, steps: seq<Step>)
    requires Storable(s)
    ensures Accepts(Tables(None, [], map[]), s)
    ensures var (after, u) := StoredRun(Saved(Tables(None, [], map[]), s), s, steps);
            && Keeps(after, u) && u == Run(s, Lasting(steps))
            && u.settlement != Cancelled && SameDocument(s, u) && Balance(u) <= Balance(s)
  {
    FirstSaveKeeps(s);
    StoredRunFrom(Saved(Tables(None, [], map[]), s), s, steps);
    EveryRun(s, Lasting(steps));
  }

  /** What is stored as paid stays so. */
  lemma {:induction false} StoredPaidForGood(t: Tables, s: InvoiceSnapshot, steps: seq<Step>)
    requires Keeps(t, s) && s.settlement == Paid
    ensures StoredRun(t, s, steps).1.settlement == Paid
  {
    StoredRunFrom(t, s, steps);
    EveryRun(s, Lasting(steps));
  }

  ghost predicate PaymentsHold(steps: seq<Step>) {
    forall i :: 0 <= i < |steps| && steps[i].Pay? ==> PaymentHolds(steps[i].payment)
  }

  lemma {:induction false} RunMeetsChecks(s: InvoiceSnapshot, steps: seq<Step>)
    requires Sound(s) && RowHolds(Proposed(s).(settlement := Issued)) && PaymentsHold(steps)
    requires forall l :: 0 <= l < |s.lines| ==> LineHolds(s.lines[l])
    requires forall p :: 0 <= p < |s.payments| ==> PaymentHolds(s.payments[p])
    ensures var u := Run(s, steps);
            && Sound(u) && RowHolds(Proposed(u).(settlement := Issued))
            && (forall l :: 0 <= l < |u.lines| ==> LineHolds(u.lines[l]))
            && (forall p :: 0 <= p < |u.payments| ==> PaymentHolds(u.payments[p]))
    decreases |steps|
  {
    if steps != [] {
      StepKeepsSound(s, steps[0]);
      RunMeetsChecks(Next(s, steps[0]), steps[1..]);
    }
  }

  /** However far a raised invoice got before it is saved, the save is refused exactly if it was cancelled. */
  lemma {:induction false} RefusedIffCancelled(s: InvoiceSnapshot, steps: seq<Step>)
    requires Storable(s) && PaymentsHold(steps)
    ensures var stored, u := Saved(Tables(None, [], map[]), s), Run(s, steps);
            !Accepts(stored, u) <==> u.settlement == Cancelled
  {
    RunMeetsChecks(s, steps);
    EveryRun(s, steps);
    var stored, u := Saved(Tables(None, [], map[]), s), Run(s, steps);
    assert stored.row == Some(Proposed(s));
    assert Upserted(stored.row, u) == Proposed(u);
    if u.settlement == Cancelled { CancelIsRefused(stored, u); }
  }

  /** A raised invoice is stored; cancelling it with a reason is agreed to, and not stored. */
  lemma CancelledIsNotStored(s: InvoiceSnapshot, reason: string)
    requires Storable(s) && |Trim(reason)| >= 3
    ensures var empty := Tables(None, [], map[]);
            && Accepts(empty, s) && AfterCancel(s, reason).Ok?
            && !Accepts(Saved(empty, s), AfterCancel(s, reason).value)
  {}

  // ----- The checks in plain terms -----

  /** Of text with no space at either end, that many characters are left when it has that many. */
  lemma SpansIff(text: string, n: nat)
    requires n > 0 && (text != "" ==> text[0] != ' ' && text[|text| - 1] != ' ')
    ensures Spans(text, n) <==> |text| >= n
  {
    if |text| >= n { assert text[0] != ' ' && text[|text| - 1] != ' '; }
  }

  lemma SpansSomething(text: string)
    ensures Spans(text, 1) <==> exists c :: 0 <= c < |text| && text[c] != ' '
  {
    if c :| 0 <= c < |text| && text[c] != ' ' { assert text[c] != ' ' && c + 1 <= c + 1; }
  }

  predicate Unpadded(text: Option<string>) {
    text.Some? && text.value != "" ==> text.value[0] != ' ' && text.value[|text.value| - 1] != ' '
  }

  /** A row may stand exactly if it has a number, is not due too early or at no rate of VAT, is not late when settled, and says why when cancelled. */
  lemma RowHoldsIff(row: InvoiceRow)
    requires Unpadded(Some(row.number)) && Unpadded(row.cancelledReason)
    ensures RowHolds(row) <==>
      && row.number != "" && row.dueOn >= row.issuedOn && 0 <= row.vatBasisPoints <= 10_000
      && (row.settlement == Paid || row.settlement == Cancelled ==> row.overdueSince.None?)
      && (row.settlement == Cancelled ==> row.cancelledReason.Some? && |row.cancelledReason.value| >= 3)
  {
    SpansIff(row.number, 1);
    SpansIff(OrEmpty(row.cancelledReason), 3);
  }

  /** A payment may stand exactly if it is for something, forgives nothing without saying why, and has cheque details only for a cheque. */
  lemma PaymentHoldsIff(p: Payment)
    ensures PaymentHolds(p) <==>
      && p.amount.minor > 0 && p.discount.minor >= 0
      && 1 <= |p.paidBy| <= 40
      && (forall c :: 0 <= c < |p.paidBy| ==> 'a' <= p.paidBy[c] <= 'z' || '0' <= p.paidBy[c] <= '9' || p.paidBy[c] == '_')
      && (p.discount.minor > 0 ==>
            p.discountReason.Some? && exists c :: 0 <= c < |p.discountReason.value| && p.discountReason.value[c] != ' ')
      && (p.chequeNumber.Some? || p.chequeDate.Some? ==> p.paidBy == "cheque")
  {
    SpansSomething(OrEmpty(p.discountReason));
  }

  lemma LineHoldsIff(line: InvoiceLine)
    ensures LineHolds(line) <==>
      line.amount.minor >= 0 && line.worked >= 0 && line.quantityCenti >= 1
      && (line.unitRate.Some? ==> line.unitRate.value.minor >= 0)
  {}
}
