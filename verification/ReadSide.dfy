/**
  The screens' own arithmetic, on stored rows and whole numbers, beside the aggregates' arithmetic
  on money: written twice in the system, and shown here to be the same.
 */
module ReadSide {
  import opened Wrappers
  import opened Rounding
  import opened Money
  import S = Statement
  import Q = Quotation
  import D = QuotationDesk
  import R = QuotationRuns
  import I = Invoice
  import P = BillingPipeline

  /** Division cut off toward zero, and one more if the remainder is half the divisor or over. */
  function ReaderRound(product: int, divisor: int): int
    requires divisor > 0
  {
    var whole := Truncated(product, divisor);
    var remainder := product - whole * divisor;
    if remainder * 2 >= divisor then whole + 1 else whole
  }

  /** The shortcut is the rounding rule on anything not negative, and below zero unless a half or more is dropped. */
  lemma ReaderRoundIs(product: int, divisor: int)
    requires divisor > 0
    ensures ReaderRound(product, divisor) == DivideHalfAway(product, divisor)
       <==> product >= 0 || Abs(product) % divisor * 2 < divisor
  {
    var magnitude: nat := Abs(product);
    DivisionParts(magnitude, divisor);
    if product < 0 {
      ReaderBelowZero(product, divisor, magnitude / divisor, magnitude % divisor);
    } else {
      ReaderAboveZero(product, divisor, magnitude / divisor, magnitude % divisor);
    }
  }

  lemma DivisionParts(n: nat, d: int)
    requires d > 0
    ensures n == n / d * d + n % d && 0 <= n % d < d
  {}

  lemma ReaderBelowZero(product: int, divisor: int, q: int, r: int)
    requires divisor > 0 && product < 0 && q == -product / divisor && r == -product % divisor && -product == q * divisor + r
    ensures ReaderRound(product, divisor) == DivideHalfAway(product, divisor) <==> r * 2 < divisor
  {
    Negated(q, divisor);
  }

  lemma Negated(q: int, d: int)
    ensures (-q) * d == -(q * d)
  {}

  lemma ReaderAboveZero(product: nat, divisor: int, q: int, r: int)
    requires divisor > 0 && q == product / divisor && r == product % divisor && product == q * divisor + r
    ensures ReaderRound(product, divisor) == DivideHalfAway(product, divisor)
  {}

  /** Half a unit below zero: the kernel rounds it away from zero, the reader drops it. */
  lemma ReaderDropsHalf()
    ensures ReaderRound(-50, 100) == 0 && DivideHalfAway(-50, 100) == -1
  {
    ReaderRoundIs(-50, 100);
  }

  // ----- Statement lines -----

  datatype StatementRow = StatementRow(
    project: string, service: string, performedOn: S.Day, user: Option<string>, workedSeconds: int, isFixed: bool,
    perHourMinor: Option<int>, feeMinor: Option<int>, excluded: bool, excludedReason: Option<string>,
    adjustedToMinor: Option<int>, adjustedReason: Option<string>)

  function MinorOf(money: Option<Money>): Option<int> {
    if money.Some? then Some(money.value.minor) else None
  }

  function OrZero(minor: Option<int>): int {
    if minor.Some? then minor.value else 0
  }

  function StatementRowOf(line: S.StatementLine): StatementRow {
    StatementRow(line.project, line.service, line.performedOn, line.user, line.worked, line.pricing.Fixed?,
                 if line.pricing.Hourly? then Some(line.pricing.perHour.minor) else None,
                 if line.pricing.Fixed? then Some(line.pricing.fee.minor) else None,
                 line.excluded, line.excludedReason, MinorOf(line.adjustedTo), line.adjustedReason)
  }

  function StatementLineOf(row: StatementRow, currency: Currency): S.StatementLine {
    S.StatementLine(row.project, row.service, row.performedOn, row.user, row.workedSeconds,
                    if row.isFixed then S.Fixed(Money(OrZero(row.feeMinor), currency))
                    else S.Hourly(Money(OrZero(row.perHourMinor), currency)),
                    row.excluded, row.excludedReason,
                    if row.adjustedToMinor.Some? then Some(Money(row.adjustedToMinor.value, currency)) else None,
                    row.adjustedReason)
  }

  function ReadAsWorked(row: StatementRow): int {
    if row.isFixed then OrZero(row.feeMinor)
    else ReaderRound(row.workedSeconds * OrZero(row.perHourMinor), SECONDS_PER_HOUR)
  }

  function ReadAmount(row: StatementRow): int {
    if row.excluded then 0
    else if row.adjustedToMinor.Some? then row.adjustedToMinor.value
    else ReadAsWorked(row)
  }

  function StatementRows(lines: seq<S.StatementLine>): seq<StatementRow> {
    seq(|lines|, i requires 0 <= i < |lines| => StatementRowOf(lines[i]))
  }

  function Column(rows: seq<StatementRow>, pick: StatementRow -> int): seq<int> {
    seq(|rows|, i requires 0 <= i < |rows| => pick(rows[i]))
  }

  /** Saved and loaded again, a line is what it was; and the screen shows for it what the aggregate charges. */
  lemma StatementLineIsKept(line: S.StatementLine, currency: Currency)
    requires S.SoundLine(line, currency)
    ensures StatementLineOf(StatementRowOf(line), currency) == line
    ensures ReadAmount(StatementRowOf(line)) == S.LineAmount(line)
    ensures ReadAsWorked(StatementRowOf(line)) == S.AsWorked(line)
  {
    if line.pricing.Hourly? {
      var product := line.pricing.perHour.minor * line.worked;
      assert product == line.worked * line.pricing.perHour.minor;
      assert product >= 0;
      ReaderRoundIs(product, SECONDS_PER_HOUR);
    }
  }

  lemma StatementTotalsAgree(lines: seq<S.StatementLine>, currency: Currency)
    requires S.SoundLines(lines, currency)
    ensures Sum(Column(StatementRows(lines), ReadAmount)) == S.Total(lines)
    ensures Sum(Column(StatementRows(lines), (row: StatementRow) => row.workedSeconds)) == S.TotalWorked(lines)
  {
    forall i | 0 <= i < |lines| ensures ReadAmount(StatementRows(lines)[i]) == S.LineAmount(lines[i]) {
      StatementLineIsKept(lines[i], currency);
    }
    assert Column(StatementRows(lines), ReadAmount) == S.Amounts(lines);
    assert Column(StatementRows(lines), (row: StatementRow) => row.workedSeconds) == S.Hours(lines);
  }

  /** Each statement's rows, in the order they come. */
  function RowsOf<Row>(rows: seq<(nat, Row)>, id: nat): seq<Row> {
    if rows == [] then []
    else
      var init, last := RowsOf(rows[..|rows| - 1], id), rows[|rows| - 1];
      if last.0 == id then init + [last.1] else init
  }

  method LinesFor<Row>(rows: seq<(nat, Row)>) returns (grouped: map<nat, seq<Row>>)
    ensures forall id :: id in grouped <==> RowsOf(rows, id) != []
    ensures forall id :: id in grouped ==> grouped[id] == RowsOf(rows, id)
  {
    grouped := map[];
    for r := 0 to |rows|
      invariant forall id :: id in grouped <==> RowsOf(rows[..r], id) != []
      invariant forall id :: id in grouped ==> grouped[id] == RowsOf(rows[..r], id)
    {
      var (id, row) := rows[r];
      assert rows[..r + 1][..r] == rows[..r];
      if id in grouped {
        grouped := grouped[id := grouped[id] + [row]];
      } else {
        grouped := grouped[id := [row]];
      }
    }
    assert rows[..|rows|] == rows;
  }

  // ----- Saving a statement over itself -----

  /** A row already there keeps all but what a review can change, because time entries point at it. */
  function Upserted(row: StatementRow, line: S.StatementLine): StatementRow {
    row.(excluded := line.excluded, excludedReason := line.excludedReason,
         adjustedToMinor := MinorOf(line.adjustedTo), adjustedReason := line.adjustedReason)
  }

  function SavedRows(rows: seq<StatementRow>, lines: seq<S.StatementLine>): seq<StatementRow> {
    seq(if |rows| > |lines| then |rows| else |lines|, i requires 0 <= i && (i < |rows| || i < |lines|) =>
      if i >= |lines| then rows[i] else if i < |rows| then Upserted(rows[i], lines[i]) else StatementRowOf(lines[i]))
  }

  class StatementLineTable {
    var rows: seq<StatementRow>

    constructor (rows: seq<StatementRow>)
      ensures this.rows == rows
    {
      this.rows := rows;
    }

    method Save(lines: seq<S.StatementLine>)
      modifies this
      ensures rows == SavedRows(old(rows), lines)
    {
      for l := 0 to |lines|
        invariant rows == SavedRows(old(rows), lines[..l])
      {
        if l < |rows| {
          rows := rows[l := Upserted(rows[l], lines[l])];
        } else {
          rows := rows + [StatementRowOf(lines[l])];
        }
      }
      assert lines[..|lines|] == lines;
    }
  }

  /** Whatever the review did, updating the rows in place leaves just the rows of the reviewed statement. */
  lemma InPlaceIsEnough(s: S.Snapshot, revision: P.Revision)
    requires P.Revised(s, revision).Ok?
    ensures SavedRows(StatementRows(s.lines), P.Revised(s, revision).value.lines)
         == StatementRows(P.Revised(s, revision).value.lines)
  {
    var t := P.Revised(s, revision).value;
    assert |t.lines| == |s.lines|;
    forall i | 0 <= i < |t.lines| ensures Upserted(StatementRowOf(s.lines[i]), t.lines[i]) == StatementRowOf(t.lines[i]) {}
  }

  // ----- Quotation lines -----

  datatype QuotationRow = QuotationRow(
    id: nat, serviceCode: Option<string>, descriptionEn: Option<string>, descriptionAr: Option<string>, isFixed: bool,
    hoursCenti: Option<int>, perHourMinor: Option<int>, amountMinor: Option<int>, discountMinor: int,
    vatBasisPoints: Option<int>)

  function NoneIfEmpty(text: string): Option<string> {
    if text == "" then None else Some(text)
  }

  function EmptyIfNone(text: Option<string>): string {
    if text.Some? then text.value else ""
  }

  function QuotationRowOf(line: Q.QuotationLine): QuotationRow {
    var byHours := line.pricing.Hours?;
    QuotationRow(line.id, line.serviceCode, NoneIfEmpty(line.descriptionEn), NoneIfEmpty(line.descriptionAr), !byHours,
                 if byHours then Some(Q.Centi(line.pricing.hours)) else None,
                 if byHours then Some(line.pricing.perHour.minor) else None,
                 if byHours then None else Some(line.pricing.amount.minor),
                 line.discount.minor, line.vatBasisPoints)
  }

  function PricingOf(row: QuotationRow, currency: Currency): Q.LinePricing {
    if row.isFixed then Q.FixedPrice(Money(OrZero(row.amountMinor), currency))
    else Q.Hours(OrZero(row.hoursCenti) as real / 100.0, Money(OrZero(row.perHourMinor), currency))
  }

  function QuotationLineOf(row: QuotationRow, currency: Currency): Q.QuotationLine {
    Q.QuotationLine(row.id, row.serviceCode, EmptyIfNone(row.descriptionEn), EmptyIfNone(row.descriptionAr),
                    PricingOf(row, currency), Money(row.discountMinor, currency), row.vatBasisPoints)
  }

  datatype LineView = LineView(amount: int, discount: int, net: int, vat: int, chargeable: int)

  function ReadQuotationLine(row: QuotationRow): LineView {
    var amount := if row.isFixed then OrZero(row.amountMinor)
                  else ReaderRound(OrZero(row.hoursCenti) * OrZero(row.perHourMinor), 100);
    var net := amount - row.discountMinor;
    var vat := if row.vatBasisPoints.None? then 0 else ReaderRound(net * row.vatBasisPoints.value, BASIS_POINTS);
    LineView(amount, row.discountMinor, net, vat, net + vat)
  }

  /** Loading what was saved gives the line the desk goes on with: the same, but for hours in whole hundredths. */
  lemma QuotationLineIsKept(line: Q.QuotationLine, currency: Currency)
    requires Q.LineFault(line, currency).None?
    ensures QuotationLineOf(QuotationRowOf(line), currency) == D.StoredLine(line)
  {}

  lemma QuotationAmountAgrees(line: Q.QuotationLine)
    requires D.Storable(line)
    ensures ReadQuotationLine(QuotationRowOf(line)).amount == Q.QuotedPrice(line.pricing).minor
  {
    if line.pricing.Hours? {
      var centi, rate := Q.Centi(line.pricing.hours), line.pricing.perHour.minor;
      assert rate * centi == centi * rate;
      assert centi * rate >= 0;
      ReaderRoundIs(centi * rate, 100);
    }
  }

  lemma QuotationVatAgrees(line: Q.QuotationLine)
    requires D.Storable(line) && line.vatBasisPoints.Some?
    ensures ReaderRound(Q.LineNet(line) * line.vatBasisPoints.value, BASIS_POINTS) == Q.LineVat(line)
  {
    var net, points := Q.LineNet(line), line.vatBasisPoints.value;
    assert net * points >= 0;
    ReaderRoundIs(net * points, BASIS_POINTS);
  }

  /** The screen shows what the aggregate charged, down to the last unit, whether or not the hours were whole hundredths. */
  lemma QuotationLineAgrees(line: Q.QuotationLine, currency: Currency)
    requires Q.LineFault(line, currency).None? && D.Storable(line)
    ensures ReadQuotationLine(QuotationRowOf(line))
         == LineView(Q.QuotedPrice(line.pricing).minor, line.discount.minor, Q.LineNet(line), Q.LineVat(line), Q.LineChargeable(line))
  {
    QuotationAmountAgrees(line);
    if line.vatBasisPoints.Some? {
      QuotationVatAgrees(line);
    }
  }

  function QuotationViews(lines: seq<Q.QuotationLine>): seq<LineView> {
    seq(|lines|, i requires 0 <= i < |lines| => ReadQuotationLine(QuotationRowOf(lines[i])))
  }

  function Added(views: seq<LineView>, pick: LineView -> int): int {
    Sum(seq(|views|, i requires 0 <= i < |views| => pick(views[i])))
  }

  lemma AddedIs(lines: seq<Q.QuotationLine>, pick: LineView -> int, figure: Q.QuotationLine -> int)
    requires forall i :: 0 <= i < |lines| ==> pick(QuotationViews(lines)[i]) == figure(lines[i])
    ensures Added(QuotationViews(lines), pick) == Sum(Q.Each(lines, figure))
  {
    var views := QuotationViews(lines);
    assert seq(|views|, i requires 0 <= i < |views| => pick(views[i])) == Q.Each(lines, figure);
  }

  /** All five totals on the screen are the aggregate's. */
  lemma QuotationTotalsAgree(lines: seq<Q.QuotationLine>, currency: Currency)
    requires Q.SoundLines(lines, currency) && D.AllStorable(lines)
    ensures var views := QuotationViews(lines);
            && Added(views, (v: LineView) => v.amount) == Q.Subtotal(lines)
            && Added(views, (v: LineView) => v.discount) == Q.DiscountTotal(lines)
            && Added(views, (v: LineView) => v.net) == Q.Net(lines)
            && Added(views, (v: LineView) => v.vat) == Q.VatTotal(lines)
            && Added(views, (v: LineView) => v.chargeable) == Q.Total(lines)
  {
    forall i | 0 <= i < |lines|
      ensures QuotationViews(lines)[i] == LineView(Q.QuotedPrice(lines[i].pricing).minor, lines[i].discount.minor,
                                                   Q.LineNet(lines[i]), Q.LineVat(lines[i]), Q.LineChargeable(lines[i]))
    {
      QuotationLineAgrees(lines[i], currency);
    }
    AddedIs(lines, (v: LineView) => v.amount, (line: Q.QuotationLine) => Q.QuotedPrice(line.pricing).minor);
    AddedIs(lines, (v: LineView) => v.discount, (line: Q.QuotationLine) => line.discount.minor);
    AddedIs(lines, (v: LineView) => v.net, Q.LineNet);
    AddedIs(lines, (v: LineView) => v.vat, Q.LineVat);
    AddedIs(lines, (v: LineView) => v.chargeable, Q.LineChargeable);
  }

  // ----- Invoices -----

  datatype InvoiceView = InvoiceView(net: int, vat: int, total: int, paid: int, discounted: int, balance: int, status: I.Status)

  function ReadStatus(settlement: I.Settlement, overdueSince: Option<I.Instant>): I.Status {
    match settlement
    case Cancelled => I.ShownCancelled
    case Paid => I.ShownPaid
    case _ => if overdueSince.Some? then I.ShownOverdue else if settlement == I.Issued then I.ShownIssued else I.ShownPartPaid
  }

  /** The screen's figures for an invoice, computed from its row, its lines and its payments in any order. */
  function ReadInvoice(row: I.InvoiceSnapshot, lines: seq<I.InvoiceLine>, payments: seq<I.Payment>): InvoiceView {
    var net := Sum(I.LineAmounts(lines));
    var vat := RoundHalfUp(net * row.vatBasisPoints, BASIS_POINTS);
    var paid, discounted := Sum(I.Received(payments)), Sum(I.Forgiven(payments));
    var owed := net + vat - paid - discounted;
    InvoiceView(net, vat, net + vat, paid, discounted, if owed > 0 then owed else 0,
                ReadStatus(row.settlement, row.overdueSince))
  }

  lemma {:induction false} RaisedNetIsNonNegative(lines: seq<I.InvoiceLine>, currency: Currency)
    requires forall i :: 0 <= i < |lines| ==> I.LineFault(lines[i], currency).None?
    ensures Sum(I.LineAmounts(lines)) >= 0
  {
    I.SumIsNonNegative(I.LineAmounts(lines));
  }

  lemma InvoiceVatAgrees(s: I.InvoiceSnapshot, net: int)
    requires net == I.Net(s) >= 0 && s.vatBasisPoints >= 0
    ensures RoundHalfUp(net * s.vatBasisPoints, BASIS_POINTS) == I.Vat(s)
  {
    assert net * s.vatBasisPoints >= 0;
    HalfUpAgrees(net * s.vatBasisPoints, BASIS_POINTS);
  }

  /** The screen and the aggregate agree on every figure and on the word for it, in whatever order the payments come back. */
  lemma InvoiceAgrees(s: I.InvoiceSnapshot, payments: seq<I.Payment>)
    requires forall i :: 0 <= i < |s.lines| ==> I.LineFault(s.lines[i], s.currency).None?
    requires 0 <= s.vatBasisPoints && multiset(payments) == multiset(s.payments)
    ensures var view := ReadInvoice(s, s.lines, payments);
            && view.net == I.Net(s) && view.vat == I.Vat(s) && view.total == I.Total(s)
            && view.paid + view.discounted == I.Covered(s.payments)
            && view.balance == I.Balance(s) && view.status == I.StatusOf(s)
  {
    RaisedNetIsNonNegative(s.lines, s.currency);
    InvoiceVatAgrees(s, I.Net(s));
    I.CoveredIgnoresOrder([], payments, s.payments);
    assert [] + payments == payments && [] + s.payments == s.payments;
  }

  // ----- Saving and reloading an invoice -----

  /** The same invoice, its payments in another order: what loading it back gives. */
  ghost predicate Reloaded(s: I.InvoiceSnapshot, t: I.InvoiceSnapshot) {
    t == s.(payments := t.payments) && multiset(t.payments) == multiset(s.payments)
  }

  lemma RecordedInBoth(a: seq<I.Payment>, b: seq<I.Payment>, id: string)
    requires multiset(a) == multiset(b) && I.Recorded(a, id)
    ensures I.Recorded(b, id)
  {
    var i :| 0 <= i < |a| && a[i].id == id;
    assert a[i] in multiset(b);
    var j :| 0 <= j < |b| && b[j] == a[i];
  }

  lemma SameFigures(s: I.InvoiceSnapshot, t: I.InvoiceSnapshot)
    requires Reloaded(s, t)
    ensures I.Covered(s.payments) == I.Covered(t.payments) && |s.payments| == |t.payments|
    ensures I.Balance(s) == I.Balance(t) && I.StatusOf(s) == I.StatusOf(t) && I.Total(s) == I.Total(t)
  {
    I.CoveredIgnoresOrder([], s.payments, t.payments);
    assert [] + s.payments == s.payments && [] + t.payments == t.payments;
    assert |multiset(s.payments)| == |s.payments| && |multiset(t.payments)| == |t.payments|;
  }

  lemma SameFault(s: I.InvoiceSnapshot, t: I.InvoiceSnapshot, p: I.Payment)
    requires Reloaded(s, t)
    ensures I.PaymentFault(s, p) == I.PaymentFault(t, p)
  {
    if I.Recorded(s.payments, p.id) { RecordedInBoth(s.payments, t.payments, p.id); }
    if I.Recorded(t.payments, p.id) { RecordedInBoth(t.payments, s.payments, p.id); }
  }

  lemma SamePayment(s: I.InvoiceSnapshot, t: I.InvoiceSnapshot, p: I.Payment)
    requires Reloaded(s, t)
    ensures I.AfterPayment(s, p).Err? ==> I.AfterPayment(t, p) == I.AfterPayment(s, p)
    ensures I.AfterPayment(s, p).Ok? ==>
      I.AfterPayment(t, p).Ok? && Reloaded(I.AfterPayment(s, p).value, I.AfterPayment(t, p).value)
  {
    SameFault(s, t, p);
    SameFigures(s, t);
    I.CoveredWithOneMore(s.payments, p);
    I.CoveredWithOneMore(t.payments, p);
  }

  /**
    An invoice that was loaded back answers every call as the one that was saved would have: the
    same refusals, and the same invoice after.
   */
  lemma ReloadingIsInvisible(s: I.InvoiceSnapshot, t: I.InvoiceSnapshot, step: I.Step)
    requires Reloaded(s, t)
    ensures I.Balance(s) == I.Balance(t) && I.StatusOf(s) == I.StatusOf(t)
    ensures I.Attempt(s, step).Err? ==> I.Attempt(t, step) == I.Attempt(s, step)
    ensures I.Attempt(s, step).Ok? ==> I.Attempt(t, step).Ok? && Reloaded(I.Attempt(s, step).value, I.Attempt(t, step).value)
  {
    SameFigures(s, t);
    match step
    case Pay(payment) => SamePayment(s, t, payment);
    case SweepOverdue(asOf) =>
    case Cancel(reason) =>
  }

  /** A payment already there stays; a new one is added. */
  function Inserted(rows: map<string, I.Payment>, payments: seq<I.Payment>): map<string, I.Payment> {
    if payments == [] then rows
    else
      var init, last := Inserted(rows, payments[..|payments| - 1]), payments[|payments| - 1];
      if last.id in init then init else init[last.id := last]
  }

  class PaymentTable {
    var rows: map<string, I.Payment>

    constructor ()
      ensures rows == map[]
    {
      rows := map[];
    }

    method Save(payments: seq<I.Payment>)
      modifies this
      ensures rows == Inserted(old(rows), payments)
    {
      for p := 0 to |payments|
        invariant rows == Inserted(old(rows), payments[..p])
      {
        if payments[p].id !in rows {
          rows := rows[payments[p].id := payments[p]];
        }
        assert payments[..p + 1][..p] == payments[..p];
      }
      assert payments[..|payments|] == payments;
    }
  }

  /** The table holds just these payments. */
  ghost predicate Holds(rows: map<string, I.Payment>, payments: seq<I.Payment>) {
    && (forall i :: 0 <= i < |payments| ==> payments[i].id in rows && rows[payments[i].id] == payments[i])
    && (forall id :: id in rows ==> I.Recorded(payments, id))
  }

  lemma {:induction false} NothingNew(rows: map<string, I.Payment>, payments: seq<I.Payment>)
    requires forall i :: 0 <= i < |payments| ==> payments[i].id in rows
    ensures Inserted(rows, payments) == rows
  {
    if payments != [] {
      NothingNew(rows, payments[..|payments| - 1]);
    }
  }

  lemma {:induction false} InsertedOneMore(rows: map<string, I.Payment>, payments: seq<I.Payment>, p: I.Payment)
    requires forall i :: 0 <= i < |payments| ==> payments[i].id in rows
    ensures Inserted(rows, payments + [p]) == if p.id in rows then rows else rows[p.id := p]
  {
    var all := payments + [p];
    assert all[..|all| - 1] == payments && all[|all| - 1] == p;
    NothingNew(rows, payments);
  }

  lemma HoldsOneMore(rows: map<string, I.Payment>, payments: seq<I.Payment>, p: I.Payment)
    requires Holds(rows, payments) && p.id !in rows
    ensures Holds(rows[p.id := p], payments + [p])
  {
    forall id | id in rows[p.id := p] ensures I.Recorded(payments + [p], id) {
      if id in rows {
        var i :| 0 <= i < |payments| && payments[i].id == id;
        assert (payments + [p])[i].id == id;
      } else {
        assert (payments + [p])[|payments|].id == id;
      }
    }
  }

  /** Saving after an accepted payment leaves in the table just the payments of the invoice, this one among them. */
  lemma {:induction false} SavingAddsThePayment(rows: map<string, I.Payment>, s: I.InvoiceSnapshot, p: I.Payment)
    requires Holds(rows, s.payments) && I.AfterPayment(s, p).Ok?
    ensures var t := I.AfterPayment(s, p).value;
            && Inserted(rows, t.payments) == rows[p.id := p] && p.id !in rows
            && Holds(Inserted(rows, t.payments), t.payments)
  {
    InsertedOneMore(rows, s.payments, p);
    assert p.id !in rows by { assert !I.Recorded(s.payments, p.id); }
    HoldsOneMore(rows, s.payments, p);
  }
}
