/** An invoice: frozen when it is raised, then paid, chased or cancelled. */
module Invoice {
  import opened Wrappers
  import opened Rounding
  import opened Money
  import opened Text

  type Instant = int

  datatype Settlement = Issued | PartPaid | Paid | Cancelled
  datatype Status = ShownIssued | ShownPartPaid | ShownPaid | ShownOverdue | ShownCancelled

  datatype InvoiceLine = InvoiceLine(
    project: string, service: string, worked: int, amount: Money, quantityCenti: int, unitRate: Option<Money>)

  datatype Payment = Payment(
    id: string, amount: Money, receivedOn: Instant, paidBy: string, chequeNumber: Option<string>, chequeDate: Option<Instant>,
    discount: Money, discountReason: Option<string>)

  datatype InvoiceSnapshot = InvoiceSnapshot(
    client: string, statement: nat, branchCode: Option<string>, number: string, settlement: Settlement,
    currency: Currency, lines: seq<InvoiceLine>, payments: seq<Payment>, vatBasisPoints: int,
    issuedOn: Instant, dueOn: Instant, overdueSince: Option<Instant>, issuedBy: string)

  datatype InvoiceConflict =
    | NoNumber | NoLines | DueBeforeIssued | NotAVatRate | NoProject | ForeignCurrency | NegativeLine
    | WasCancelled | NotForAnything | PredatesInvoice | AlreadyRecorded | IsSettled | NotLate | MoneyReceived | NoReason

  function LineAmounts(lines: seq<InvoiceLine>): seq<int> {
    seq(|lines|, i requires 0 <= i < |lines| => lines[i].amount.minor)
  }

  function Net(s: InvoiceSnapshot): int {
    Sum(LineAmounts(s.lines))
  }

  function Vat(s: InvoiceSnapshot): int {
    Percentage(Net(s), s.vatBasisPoints)
  }

  function Total(s: InvoiceSnapshot): int {
    Net(s) + Vat(s)
  }

  function Received(payments: seq<Payment>): seq<int> {
    seq(|payments|, i requires 0 <= i < |payments| => payments[i].amount.minor)
  }

  function Forgiven(payments: seq<Payment>): seq<int> {
    seq(|payments|, i requires 0 <= i < |payments| => payments[i].discount.minor)
  }

  /** What no longer has to be paid: the money that came and what was dropped. */
  function Covered(payments: seq<Payment>): int {
    Sum(Received(payments)) + Sum(Forgiven(payments))
  }

  function Balance(s: InvoiceSnapshot): int {
    var outstanding := Total(s) - Covered(s.payments);
    if outstanding < 0 then 0 else outstanding
  }

  function StatusOf(s: InvoiceSnapshot): Status {
    if s.settlement == Cancelled then ShownCancelled
    else if s.settlement == Paid then ShownPaid
    else if s.overdueSince.Some? then ShownOverdue
    else if s.settlement == Issued then ShownIssued else ShownPartPaid
  }

  predicate Blank(s: string) {
    |Trim(s)| == 0
  }

  function AfterRaise(client: string, statement: nat, number: string, branchCode: Option<string>, currency: Currency,
                      lines: seq<InvoiceLine>, vatBasisPoints: int, issuedOn: Instant, dueOn: Instant, issuedBy: string):
    Result<InvoiceSnapshot, InvoiceConflict>
  {
    if Blank(number) then Err(NoNumber)
    else if |lines| == 0 then Err(NoLines)
    else if dueOn < issuedOn then Err(DueBeforeIssued)
    else if vatBasisPoints < 0 || vatBasisPoints > BASIS_POINTS then Err(NotAVatRate)
    else match FirstFault(lines, currency)
      case Some(fault) => Err(fault)
      case None => Ok(InvoiceSnapshot(client, statement, branchCode, Trim(number), Issued, currency, lines, [],
                                      vatBasisPoints, issuedOn, dueOn, None, issuedBy))
  }

  function LineFault(line: InvoiceLine, currency: Currency): Option<InvoiceConflict> {
    if Blank(line.project) then Some(NoProject)
    else if line.amount.currency != currency then Some(ForeignCurrency)
    else if line.amount.minor < 0 then Some(NegativeLine)
    else None
  }

  function FirstFault(lines: seq<InvoiceLine>, currency: Currency): (fault: Option<InvoiceConflict>)
    ensures fault.None? <==> forall i :: 0 <= i < |lines| ==> LineFault(lines[i], currency).None?
  {
    if lines == [] then None
    else if LineFault(lines[0], currency).Some? then LineFault(lines[0], currency)
    else
      assert forall i :: 0 < i < |lines| ==> lines[i] == lines[1..][i - 1];
      FirstFault(lines[1..], currency)
  }

  predicate Recorded(payments: seq<Payment>, id: string) {
    exists i :: 0 <= i < |payments| && payments[i].id == id
  }

  function PaymentFault(s: InvoiceSnapshot, p: Payment): Option<InvoiceConflict> {
    if s.settlement == Cancelled then Some(WasCancelled)
    else if p.amount.currency != s.currency then Some(ForeignCurrency)
    else if p.amount.minor <= 0 then Some(NotForAnything)
    else if p.receivedOn < s.issuedOn then Some(PredatesInvoice)
    else if Recorded(s.payments, p.id) then Some(AlreadyRecorded)
    else None
  }

  function AfterPayment(s: InvoiceSnapshot, p: Payment): Result<InvoiceSnapshot, InvoiceConflict> {
    match PaymentFault(s, p)
    case Some(fault) => Err(fault)
    case None =>
      var payments := s.payments + [p];
      var settled := Covered(payments) >= Total(s);
      Ok(s.(payments := payments, settlement := if settled then Paid else PartPaid,
            overdueSince := if settled then None else s.overdueSince))
  }

  function AfterMarkOverdue(s: InvoiceSnapshot, asOf: Instant): Result<InvoiceSnapshot, InvoiceConflict> {
    if s.settlement == Paid || s.settlement == Cancelled then Err(IsSettled)
    else if asOf <= s.dueOn then Err(NotLate)
    else if s.overdueSince.Some? then Ok(s)
    else Ok(s.(overdueSince := Some(asOf)))
  }

  function AfterCancel(s: InvoiceSnapshot, reason: string): Result<InvoiceSnapshot, InvoiceConflict> {
    if s.settlement == Cancelled then Ok(s)
    else if |s.payments| > 0 then Err(MoneyReceived)
    else if |Trim(reason)| < 3 then Err(NoReason)
    else Ok(s.(settlement := Cancelled, overdueSince := None))
  }

  ghost predicate Became(before: InvoiceSnapshot, after: InvoiceSnapshot,
                         should: Result<InvoiceSnapshot, InvoiceConflict>, said: Result<(), InvoiceConflict>)
  {
    match should
    case Ok(s) => after == s && said == Ok(())
    case Err(e) => after == before && said == Err(e)
  }

  class Invoice {
    var state: InvoiceSnapshot

    constructor (state: InvoiceSnapshot)
      ensures this.state == state
    {
      this.state := state;
    }

    method RecordPayment(payment: Payment) returns (r: Result<(), InvoiceConflict>)
      modifies this
      ensures Became(old(state), state, AfterPayment(old(state), payment), r)
    {
      if state.settlement == Cancelled {
        return Err(WasCancelled);
      }
      if payment.amount.currency != state.currency {
        return Err(ForeignCurrency);
      }
      if payment.amount.minor <= 0 {
        return Err(NotForAnything);
      }
      if payment.receivedOn < state.issuedOn {
        return Err(PredatesInvoice);
      }
      if Recorded(state.payments, payment.id) {
        return Err(AlreadyRecorded);
      }
      var payments := state.payments + [payment];
      var settled := Covered(payments) >= Total(state);
      state := state.(payments := payments, settlement := if settled then Paid else PartPaid,
                      overdueSince := if settled then None else state.overdueSince);
      return Ok(());
    }

    method MarkOverdue(asOf: Instant) returns (r: Result<(), InvoiceConflict>)
      modifies this
      ensures Became(old(state), state, AfterMarkOverdue(old(state), asOf), r)
    {
      if state.settlement == Paid || state.settlement == Cancelled {
        return Err(IsSettled);
      }
      if asOf <= state.dueOn {
        return Err(NotLate);
      }
      if state.overdueSince.Some? {
        return Ok(());
      }
      state := state.(overdueSince := Some(asOf));
      return Ok(());
    }

    method Cancel(reason: string) returns (r: Result<(), InvoiceConflict>)
      modifies this
      ensures Became(old(state), state, AfterCancel(old(state), reason), r)
    {
      if state.settlement == Cancelled {
        return Ok(());
      }
      if |state.payments| > 0 {
        return Err(MoneyReceived);
      }
      if |Trim(reason)| < 3 {
        return Err(NoReason);
      }
      state := state.(settlement := Cancelled, overdueSince := None);
      return Ok(());
    }
  }

  // ----- Every run of one invoice -----

  datatype Step = Pay(payment: Payment) | SweepOverdue(asOf: Instant) | Cancel(reason: string)

  function Attempt(s: InvoiceSnapshot, step: Step): Result<InvoiceSnapshot, InvoiceConflict> {
    match step
    case Pay(payment) => AfterPayment(s, payment)
    case SweepOverdue(asOf) => AfterMarkOverdue(s, asOf)
    case Cancel(reason) => AfterCancel(s, reason)
  }

  /** A refused call changes nothing. */
  function Next(s: InvoiceSnapshot, step: Step): InvoiceSnapshot {
    match Attempt(s, step) case Ok(t) => t case Err(_) => s
  }

  function Run(s: InvoiceSnapshot, steps: seq<Step>): InvoiceSnapshot
    decreases |steps|
  {
    if steps == [] then s else Run(Next(s, steps[0]), steps[1..])
  }

  /** The request schema and the table both refuse a negative discount. */
  ghost predicate NoSurcharges(steps: seq<Step>) {
    forall i :: 0 <= i < |steps| && steps[i].Pay? ==> steps[i].payment.discount.minor >= 0
  }

  function SettlementOf(s: InvoiceSnapshot): Settlement {
    if s.payments == [] then Issued else if Covered(s.payments) >= Total(s) then Paid else PartPaid
  }

  ghost predicate Sound(s: InvoiceSnapshot) {
    && s.settlement == (if s.settlement == Cancelled then Cancelled else SettlementOf(s))
    && (s.settlement == Cancelled ==> s.payments == [])
    && (s.overdueSince.Some? ==> s.settlement in {Issued, PartPaid} && s.overdueSince.value > s.dueOn)
  }

  /** Never touched again once the invoice is raised: what the client was sent. */
  predicate SameDocument(a: InvoiceSnapshot, b: InvoiceSnapshot) {
    && a.lines == b.lines && a.number == b.number && a.currency == b.currency && a.branchCode == b.branchCode
    && a.vatBasisPoints == b.vatBasisPoints && a.statement == b.statement && a.client == b.client
    && a.issuedOn == b.issuedOn && a.dueOn == b.dueOn && a.issuedBy == b.issuedBy
  }

  lemma CoveredWithOneMore(payments: seq<Payment>, p: Payment)
    ensures Covered(payments + [p]) == Covered(payments) + p.amount.minor + p.discount.minor
  {
    assert Received(payments + [p])[..|payments|] == Received(payments);
    assert Forgiven(payments + [p])[..|payments|] == Forgiven(payments);
  }

  lemma StepKeepsSound(s: InvoiceSnapshot, step: Step)
    requires Sound(s) && (step.Pay? ==> step.payment.discount.minor >= 0)
    ensures Sound(Next(s, step)) && SameDocument(s, Next(s, step))
    ensures s.settlement in {Paid, Cancelled} ==> Next(s, step).settlement == s.settlement
    ensures Balance(Next(s, step)) <= Balance(s)
    ensures s.overdueSince.Some? && Next(s, step).overdueSince.Some? ==> Next(s, step).overdueSince == s.overdueSince
  {
    if step.Pay? {
      CoveredWithOneMore(s.payments, step.payment);
    }
  }

  /**
    In every run without surcharges: how far the invoice is settled is exactly what its payments
    say; being paid, and being cancelled, is for good; it is late only while unsettled and after it
    fell due; what is owed never rises; and the document itself never changes.
   */
  lemma {:induction false} EveryRun(s: InvoiceSnapshot, steps: seq<Step>)
    requires Sound(s) && NoSurcharges(steps)
    ensures var t := Run(s, steps);
            && Sound(t) && SameDocument(s, t)
            && Total(t) == Total(s) && Balance(t) <= Balance(s)
            && (s.settlement in {Paid, Cancelled} ==> t.settlement == s.settlement)
    decreases |steps|
  {
    if steps != [] {
      StepKeepsSound(s, steps[0]);
      EveryRun(Next(s, steps[0]), steps[1..]);
    }
  }

  lemma RaisedIsSound(client: string, statement: nat, number: string, branchCode: Option<string>, currency: Currency,
                      lines: seq<InvoiceLine>, vatBasisPoints: int, issuedOn: Instant, dueOn: Instant, issuedBy: string)
    ensures var r := AfterRaise(client, statement, number, branchCode, currency, lines, vatBasisPoints, issuedOn, dueOn, issuedBy);
            r.Ok? ==> Sound(r.value) && Balance(r.value) == Total(r.value) && Net(r.value) <= Total(r.value)
  {
    var r := AfterRaise(client, statement, number, branchCode, currency, lines, vatBasisPoints, issuedOn, dueOn, issuedBy);
    if r.Ok? {
      assert forall i :: 0 <= i < |lines| ==> LineFault(lines[i], currency).None?;
      SumIsNonNegative(LineAmounts(lines));
      PercentageIsPart(Net(r.value), vatBasisPoints);
      assert Received([]) == [] && Forgiven([]) == [];
    }
  }

  lemma {:induction false} SumIsNonNegative(s: seq<int>)
    requires forall i :: 0 <= i < |s| ==> s[i] >= 0
    ensures Sum(s) >= 0
  {
    if s != [] {
      SumIsNonNegative(s[..|s| - 1]);
    }
  }

  /**
    The aggregate itself accepts a negative discount. What is owed then rises exactly when the
    payment takes back more than it brings and something is left to pay, and a paid invoice is
    reopened exactly when it does.
   */
  lemma SurchargeReopens(s: InvoiceSnapshot, p: Payment)
    requires AfterPayment(s, p).Ok?
    ensures var t, moved := AfterPayment(s, p).value, p.amount.minor + p.discount.minor;
            && (Balance(t) > Balance(s) <==> moved < 0 && Covered(s.payments) + moved < Total(s))
            && (Sound(s) && s.settlement == Paid ==> (t.settlement != Paid <==> Balance(t) > Balance(s)))
  {
    CoveredWithOneMore(s.payments, p);
  }

  // ----- The order payments are recorded in does not matter -----

  function PayAll(s: InvoiceSnapshot, payments: seq<Payment>): Result<InvoiceSnapshot, InvoiceConflict>
    decreases |payments|
  {
    if payments == [] then Ok(s)
    else
      var init := PayAll(s, payments[..|payments| - 1]);
      if init.Err? then init else AfterPayment(init.value, payments[|payments| - 1])
  }

  ghost predicate DistinctIds(payments: seq<Payment>) {
    forall i, j :: 0 <= i < j < |payments| ==> payments[i].id != payments[j].id
  }

  /** Each payment can be taken on its own, and none is recorded twice. */
  ghost predicate Acceptable(s: InvoiceSnapshot, payments: seq<Payment>) {
    && (forall i :: 0 <= i < |payments| ==> PaymentFault(s, payments[i]).None?)
    && DistinctIds(payments)
    && (forall i :: 0 <= i < |payments| ==> payments[i].discount.minor >= 0)
  }

  /** An invoice with these payments more. */
  function Paying(s: InvoiceSnapshot, payments: seq<Payment>): InvoiceSnapshot {
    var settled := Covered(s.payments + payments) >= Total(s);
    s.(payments := s.payments + payments, settlement := if settled then Paid else PartPaid,
       overdueSince := if settled then None else s.overdueSince)
  }

  lemma NotYetRecorded(s: InvoiceSnapshot, payments: seq<Payment>)
    requires payments != [] && Acceptable(s, payments)
    ensures !Recorded(s.payments + payments[..|payments| - 1], payments[|payments| - 1].id)
  {
    var before, last := s.payments + payments[..|payments| - 1], payments[|payments| - 1];
    forall i | 0 <= i < |before| ensures before[i].id != last.id {
      if i >= |s.payments| { assert before[i] == payments[i - |s.payments|]; }
    }
  }

  /** What is covered never falls, so once settled it stays so. */
  lemma OneMorePaid(s: InvoiceSnapshot, payments: seq<Payment>, p: Payment)
    requires PaymentFault(s, p).None? && p.discount.minor >= 0 && !Recorded(s.payments + payments, p.id)
    ensures AfterPayment(Paying(s, payments), p) == Ok(Paying(s, payments + [p]))
  {
    CoveredWithOneMore(s.payments + payments, p);
    assert s.payments + (payments + [p]) == s.payments + payments + [p];
  }

  lemma {:induction false} PayAllIs(s: InvoiceSnapshot, payments: seq<Payment>)
    requires Sound(s) && payments != [] && Acceptable(s, payments)
    ensures PayAll(s, payments) == Ok(Paying(s, payments))
    decreases |payments|
  {
    var init, last := payments[..|payments| - 1], payments[|payments| - 1];
    assert payments == init + [last];
    NotYetRecorded(s, payments);
    if init != [] {
      PayAllIs(s, init);
      OneMorePaid(s, init, last);
    } else {
      FirstPaid(s, last);
    }
  }

  lemma FirstPaid(s: InvoiceSnapshot, p: Payment)
    requires PaymentFault(s, p).None?
    ensures AfterPayment(s, p) == Ok(Paying(s, [p]))
  {}

  lemma {:induction false} CoveredIgnoresOrder(before: seq<Payment>, a: seq<Payment>, b: seq<Payment>)
    requires multiset(a) == multiset(b)
    ensures Covered(before + a) == Covered(before + b)
    decreases |a|
  {
    if a == [] {
      assert |multiset(b)| == |b|;
    } else {
      var n := |a| - 1;
      assert a[n] in multiset(a);
      var m :| 0 <= m < |b| && b[m] == a[n];
      BothWithoutOne(a, b, m);
      CoveredIgnoresOrder(before, a[..n], AllBut(b, m));
      CoveredWithoutOne(before, a, n);
      CoveredWithoutOne(before, b, m);
      assert a[..n] + a[n + 1..] == a[..n];
    }
  }

  lemma {:induction false} CoveredWithoutOne(before: seq<Payment>, payments: seq<Payment>, n: nat)
    requires n < |payments|
    ensures Covered(before + payments)
         == Covered(before + (payments[..n] + payments[n + 1..])) + payments[n].amount.minor + payments[n].discount.minor
    decreases |payments|
  {
    var k := |payments| - 1;
    assert before + payments == before + payments[..k] + [payments[k]];
    CoveredWithOneMore(before + payments[..k], payments[k]);
    if n == k {
      assert payments[..n] + payments[n + 1..] == payments[..k];
    } else {
      CoveredWithoutOne(before, payments[..k], n);
      var shorter := payments[..k][..n] + payments[..k][n + 1..];
      assert before + (payments[..n] + payments[n + 1..]) == before + shorter + [payments[k]];
      CoveredWithOneMore(before + shorter, payments[k]);
    }
  }

  lemma OccursTwice(payments: seq<Payment>, i: nat, j: nat)
    requires i < j < |payments| && payments[i] == payments[j]
    ensures multiset(payments)[payments[i]] >= 2
  {
    assert payments == payments[..i] + [payments[i]] + payments[i + 1..j] + [payments[j]] + payments[j + 1..];
  }

  lemma {:induction false} OccursOnce(payments: seq<Payment>, p: Payment)
    requires DistinctIds(payments)
    ensures multiset(payments)[p] <= 1
  {
    if payments != [] {
      var k := |payments| - 1;
      OccursOnce(payments[..k], p);
      assert payments == payments[..k] + [payments[k]];
      assert payments[k] !in payments[..k];
      assert payments[k] !in multiset(payments[..k]);
    }
  }

  lemma AcceptableInAnyOrder(s: InvoiceSnapshot, a: seq<Payment>, b: seq<Payment>)
    requires Acceptable(s, a) && multiset(a) == multiset(b)
    ensures Acceptable(s, b)
  {
    forall i | 0 <= i < |b| ensures b[i] in a {
      assert b[i] in multiset(b);
      assert b[i] in multiset(a);
    }
    forall i, j | 0 <= i < j < |b| ensures b[i].id != b[j].id {
      if b[i].id == b[j].id {
        SameIdSamePayment(a, b[i], b[j]);
        OccursTwice(b, i, j);
        OccursOnce(a, b[i]);
        assert false;
      }
    }
  }

  lemma SameIdSamePayment(payments: seq<Payment>, p: Payment, q: Payment)
    requires DistinctIds(payments) && p in payments && q in payments && p.id == q.id
    ensures p == q
  {}

  /** Recorded in any order, the same payments leave the same settlement, balance and overdue mark. */
  lemma {:induction false} OrderDoesNotMatter(s: InvoiceSnapshot, a: seq<Payment>, b: seq<Payment>)
    requires Sound(s) && Acceptable(s, a) && multiset(a) == multiset(b)
    ensures PayAll(s, a).Ok? && PayAll(s, b).Ok?
    ensures var t, u := PayAll(s, a).value, PayAll(s, b).value;
            t.settlement == u.settlement && Balance(t) == Balance(u) && t.overdueSince == u.overdueSince
  {
    AcceptableInAnyOrder(s, a, b);
    CoveredIgnoresOrder(s.payments, a, b);
    assert |multiset(a)| == |a| && |multiset(b)| == |b|;
    if a != [] {
      PayAllIs(s, a);
      PayAllIs(s, b);
    }
  }

  // ----- When each call goes through, and what it leaves -----

  /** An invoice is raised exactly if it has a number and lines, is not due before it is issued, and every line is sound. */
  lemma RaisedIff(client: string, statement: nat, number: string, branchCode: Option<string>, currency: Currency,
                  lines: seq<InvoiceLine>, vatBasisPoints: int, issuedOn: Instant, dueOn: Instant, issuedBy: string)
    ensures var r := AfterRaise(client, statement, number, branchCode, currency, lines, vatBasisPoints, issuedOn, dueOn, issuedBy);
            && (r.Ok? <==>
                  && Trim(number) != "" && lines != [] && issuedOn <= dueOn && 0 <= vatBasisPoints <= 10_000
                  && forall l :: 0 <= l < |lines| ==>
                       Trim(lines[l].project) != "" && lines[l].amount.currency == currency && lines[l].amount.minor >= 0)
            && (r.Ok? ==>
                  r.value == InvoiceSnapshot(client, statement, branchCode, Trim(number), Issued, currency, lines, [], vatBasisPoints,
                                             issuedOn, dueOn, None, issuedBy))
  {
    forall l | 0 <= l < |lines|
      ensures LineFault(lines[l], currency).None? <==>
        Trim(lines[l].project) != "" && lines[l].amount.currency == currency && lines[l].amount.minor >= 0
    {}
  }

  /** It is marked exactly if something is still owed and its day is past; the first mark stays. */
  lemma MarkedIff(s: InvoiceSnapshot, asOf: Instant)
    ensures AfterMarkOverdue(s, asOf).Ok? <==> s.settlement in {Issued, PartPaid} && asOf > s.dueOn
    ensures AfterMarkOverdue(s, asOf).Ok? ==>
      AfterMarkOverdue(s, asOf).value == s.(overdueSince := if s.overdueSince.Some? then s.overdueSince else Some(asOf))
  {}

  /** It is cancelled exactly if nothing was paid on it and a reason is given, or if it was already. */
  lemma CancelledIff(s: InvoiceSnapshot, reason: string)
    ensures AfterCancel(s, reason).Ok? <==> s.settlement == Cancelled || (s.payments == [] && |Trim(reason)| >= 3)
    ensures AfterCancel(s, reason).Ok? ==>
      AfterCancel(s, reason).value
      == if s.settlement == Cancelled then s else s.(settlement := Cancelled, overdueSince := None)
  {}

  /** The word shown: cancelled or paid if it is; overdue once marked; else how far it is paid. */
  lemma ShownAs(s: InvoiceSnapshot)
    requires Sound(s)
    ensures StatusOf(s) ==
      if s.settlement == Cancelled then ShownCancelled
      else if s.payments != [] && Covered(s.payments) >= Total(s) then ShownPaid
      else if s.overdueSince.Some? then ShownOverdue
      else if s.payments == [] then ShownIssued else ShownPartPaid
  {}
}
