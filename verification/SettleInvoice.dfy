/** Recording payments, and the daily sweep that marks unpaid invoices overdue. */
module SettleInvoice {
  import opened Wrappers
  import opened Rounding
  import opened Money
  import opened Text
  import opened Listing
  import opened Invoice

  type InvoiceId = nat

  datatype PaymentCommand = PaymentCommand(
    invoice: InvoiceId, paymentId: string, amountMinor: int, receivedOn: Instant, paidBy: string,
    chequeNumber: Option<string>, chequeDate: Option<Instant>, discountMinor: Option<int>, discountReason: Option<string>)

  datatype SettleConflict = NoSuchInvoice | NotAMethod | Refused(conflict: InvoiceConflict)

  function Trimmed(text: Option<string>): Option<string> {
    if text.None? || Trim(text.value) == "" then None else Some(Trim(text.value))
  }

  function PaymentOf(c: PaymentCommand, currency: Currency): Payment {
    Payment(c.paymentId, Money(c.amountMinor, currency), c.receivedOn, c.paidBy, Trimmed(c.chequeNumber), c.chequeDate,
            Money(if c.discountMinor.Some? then c.discountMinor.value else 0, currency), Trimmed(c.discountReason))
  }

  function AfterRecord(invoices: seq<InvoiceSnapshot>, c: PaymentCommand, methods: set<string>):
    (seq<InvoiceSnapshot>, Result<int, SettleConflict>)
  {
    if c.invoice >= |invoices| then (invoices, Err(NoSuchInvoice))
    else if c.paidBy !in methods then (invoices, Err(NotAMethod))
    else match AfterPayment(invoices[c.invoice], PaymentOf(c, invoices[c.invoice].currency))
      case Err(e) => (invoices, Err(Refused(e)))
      case Ok(s) => (invoices[c.invoice := s], Ok(Balance(s)))
  }

  // ----- What a recorded payment does -----

  function OrNothing(minor: Option<int>): int {
    match minor
    case Some(m) => m
    case None => 0
  }

  predicate Keeps(text: Option<string>, given: Option<string>) {
    text == if given.Some? && Trim(given.value) != "" then Some(Trim(given.value)) else None
  }

  /** The payment bears what the command says, text without the spaces around it. */
  predicate Bears(p: Payment, c: PaymentCommand, currency: Currency) {
    && p.id == c.paymentId && p.receivedOn == c.receivedOn && p.paidBy == c.paidBy
    && p.amount == Money(c.amountMinor, currency) && p.discount == Money(OrNothing(c.discountMinor), currency)
    && Keeps(p.chequeNumber, c.chequeNumber) && p.chequeDate == c.chequeDate && Keeps(p.discountReason, c.discountReason)
  }

  /** A command is taken exactly if all of this holds, and is told the first of it that fails. */
  lemma RecordedIff(invoices: seq<InvoiceSnapshot>, c: PaymentCommand, methods: set<string>)
    ensures AfterRecord(invoices, c, methods).1.Ok? <==>
      && c.invoice < |invoices| && c.paidBy in methods
      && invoices[c.invoice].settlement != Cancelled && c.amountMinor > 0 && c.receivedOn >= invoices[c.invoice].issuedOn
      && forall n :: 0 <= n < |invoices[c.invoice].payments| ==> invoices[c.invoice].payments[n].id != c.paymentId
    ensures AfterRecord(invoices, c, methods).1.Err? ==>
      && AfterRecord(invoices, c, methods).0 == invoices
      && AfterRecord(invoices, c, methods).1.error ==
           if c.invoice >= |invoices| then NoSuchInvoice
           else if c.paidBy !in methods then NotAMethod
           else Refused(
             if invoices[c.invoice].settlement == Cancelled then WasCancelled
             else if c.amountMinor <= 0 then NotForAnything
             else if c.receivedOn < invoices[c.invoice].issuedOn then PredatesInvoice
             else AlreadyRecorded)
  {}

  /**
    What a recorded payment leaves: what came and what was dropped are both taken off what is owed, and only an
    invoice of which nothing is owed any more is paid.
   */
  lemma RecordedTakesOff(invoices: seq<InvoiceSnapshot>, c: PaymentCommand, methods: set<string>)
    requires AfterRecord(invoices, c, methods).1.Ok?
    ensures c.invoice < |invoices|
    ensures var after, balance := AfterRecord(invoices, c, methods).0, AfterRecord(invoices, c, methods).1.value;
            var s := invoices[c.invoice];
            var owed := Total(s) - Sum(Received(s.payments)) - Sum(Forgiven(s.payments)) - c.amountMinor - OrNothing(c.discountMinor);
            && |after| == |invoices| && (forall i :: 0 <= i < |invoices| && i != c.invoice ==> after[i] == invoices[i])
            && balance == (if owed > 0 then owed else 0)
            && SameDocument(s, after[c.invoice])
            && after[c.invoice].settlement == (if owed > 0 then PartPaid else Paid)
            && after[c.invoice].overdueSince == (if owed > 0 then s.overdueSince else None)
  {
    var s := invoices[c.invoice];
    CoveredWithOneMore(s.payments, PaymentOf(c, s.currency));
  }

  lemma RecordedBears(invoices: seq<InvoiceSnapshot>, c: PaymentCommand, methods: set<string>)
    requires AfterRecord(invoices, c, methods).1.Ok?
    ensures c.invoice < |invoices| && |AfterRecord(invoices, c, methods).0| == |invoices|
    ensures var s, t := invoices[c.invoice], AfterRecord(invoices, c, methods).0[c.invoice];
            && |t.payments| == |s.payments| + 1 && t.payments[..|s.payments|] == s.payments
            && Bears(t.payments[|s.payments|], c, s.currency)
            && Sum(Received(t.payments)) == Sum(Received(s.payments)) + c.amountMinor
            && Sum(Forgiven(t.payments)) == Sum(Forgiven(s.payments)) + OrNothing(c.discountMinor)
  {
    var s, p := invoices[c.invoice], PaymentOf(c, invoices[c.invoice].currency);
    assert Received(s.payments + [p])[..|s.payments|] == Received(s.payments);
    assert Forgiven(s.payments + [p])[..|s.payments|] == Forgiven(s.payments);
  }

  // ----- The morning sweep -----

  predicate Late(s: InvoiceSnapshot, asOf: Instant) {
    s.settlement in {Issued, PartPaid} && s.dueOn < asOf
  }

  /** Unsettled and past due, the longest overdue first, whether they are marked already or not. */
  function LateKeys(invoices: seq<InvoiceSnapshot>, asOf: Instant): Keys {
    seq(|invoices|, i requires 0 <= i < |invoices| => if Late(invoices[i], asOf) then Some(invoices[i].dueOn) else None)
  }

  function Sweeping(invoices: seq<InvoiceSnapshot>, ids: seq<InvoiceId>, asOf: Instant): seq<InvoiceSnapshot> {
    if ids == [] then invoices
    else
      var before, id := Sweeping(invoices, ids[..|ids| - 1], asOf), ids[|ids| - 1];
      if id < |before| && before[id].overdueSince.None? && AfterMarkOverdue(before[id], asOf).Ok?
      then before[id := AfterMarkOverdue(before[id], asOf).value]
      else before
  }

  function Marked(s: InvoiceSnapshot, asOf: Instant): InvoiceSnapshot {
    if s.overdueSince.Some? then s else s.(overdueSince := Some(asOf))
  }

  /** Every listed invoice bears a mark afterwards, the one it had if it had one, and no other is touched. */
  lemma {:induction false} ListedAreMarked(invoices: seq<InvoiceSnapshot>, ids: seq<InvoiceId>, asOf: Instant)
    requires forall n :: 0 <= n < |ids| ==> ids[n] < |invoices| && Late(invoices[ids[n]], asOf)
    requires forall m, n :: 0 <= m < n < |ids| ==> ids[m] != ids[n]
    ensures var after := Sweeping(invoices, ids, asOf);
            && |after| == |invoices|
            && forall i :: 0 <= i < |invoices| ==> after[i] == if i in ids then Marked(invoices[i], asOf) else invoices[i]
  {
    if ids != [] {
      var init, last := ids[..|ids| - 1], ids[|ids| - 1];
      ListedAreMarked(invoices, init, asOf);
      assert last !in init;
      assert forall i :: i in ids <==> i in init || i == last;
    }
  }

  /** How many of the listed invoices have no mark yet. */
  function Unmarked(invoices: seq<InvoiceSnapshot>, ids: seq<InvoiceId>): nat {
    if ids == [] then 0
    else
      var id := ids[|ids| - 1];
      Unmarked(invoices, ids[..|ids| - 1]) + if id < |invoices| && invoices[id].overdueSince.None? then 1 else 0
  }

  /** A sweep meets each invoice as it was before the sweep began. */
  lemma {:induction false} NextIsUntouched(invoices: seq<InvoiceSnapshot>, asOf: Instant, limit: nat,
                                           ids: seq<InvoiceId>, n: nat)
    requires IsFirst(LateKeys(invoices, asOf), limit, ids) && n < |ids|
    ensures ids[n] < |invoices| && |Sweeping(invoices, ids[..n], asOf)| == |invoices|
    ensures Sweeping(invoices, ids[..n], asOf)[ids[n]] == invoices[ids[n]]
    ensures AfterMarkOverdue(invoices[ids[n]], asOf).Ok?
  {
    ListedAreMarked(invoices, ids[..n], asOf);
  }

  class SettlementDesk {
    var invoices: seq<InvoiceSnapshot>

    constructor (invoices: seq<InvoiceSnapshot>)
      ensures this.invoices == invoices
    {
      this.invoices := invoices;
    }

    method Record(c: PaymentCommand, methods: set<string>) returns (outcome: Result<int, SettleConflict>)
      modifies this
      ensures (invoices, outcome) == AfterRecord(old(invoices), c, methods)
    {
      if c.invoice >= |invoices| {
        return Err(NoSuchInvoice);
      }
      if c.paidBy !in methods {
        return Err(NotAMethod);
      }
      var invoice := new Invoice(invoices[c.invoice]);
      var recorded := invoice.RecordPayment(PaymentOf(c, invoice.state.currency));
      if recorded.Err? {
        return Err(Refused(recorded.error));
      }
      invoices := invoices[c.invoice := invoice.state];
      return Ok(Balance(invoice.state));
    }

    /** Visits every listed invoice, whatever became of those before it. */
    method SweepOverdue(asOf: Instant, limit: nat) returns (marked: nat, skipped: nat, ids: seq<InvoiceId>)
      modifies this
      ensures IsFirst(LateKeys(old(invoices), asOf), limit, ids)
      ensures invoices == Sweeping(old(invoices), ids, asOf)
      ensures marked == Unmarked(old(invoices), ids) && marked + skipped == |ids|
    {
      ids := List(LateKeys(invoices, asOf), limit);
      marked, skipped := 0, 0;
      for n := 0 to |ids|
        invariant invoices == Sweeping(old(invoices), ids[..n], asOf) && |invoices| == |old(invoices)|
        invariant marked == Unmarked(old(invoices), ids[..n]) && marked + skipped == n
      {
        assert ids[..n + 1][..n] == ids[..n];
        NextIsUntouched(old(invoices), asOf, limit, ids, n);
        var invoice := new Invoice(invoices[ids[n]]);
        if invoice.state.overdueSince.Some? {
          skipped := skipped + 1;
          continue;
        }
        var result := invoice.MarkOverdue(asOf);
        if result.Err? {
          skipped := skipped + 1;
          continue;
        }
        invoices := invoices[ids[n] := invoice.state];
        marked := marked + 1;
      }
      assert ids[..|ids|] == ids;
    }
  }

  ghost predicate Sweeps(invoices: seq<InvoiceSnapshot>, asOf: Instant, limit: nat, listings: seq<seq<InvoiceId>>)
    decreases |listings|
  {
    listings != [] ==>
      IsFirst(LateKeys(invoices, asOf), limit, listings[0])
      && Sweeps(Sweeping(invoices, listings[0], asOf), asOf, limit, listings[1..])
  }

  function AfterSweeps(invoices: seq<InvoiceSnapshot>, asOf: Instant, listings: seq<seq<InvoiceId>>): seq<InvoiceSnapshot>
    decreases |listings|
  {
    if listings == [] then invoices else AfterSweeps(Sweeping(invoices, listings[0], asOf), asOf, listings[1..])
  }

  /** Marking an invoice does not take it off the list, so every sweep of a morning lists the same ones. */
  lemma {:induction false} SweepKeepsKeys(invoices: seq<InvoiceSnapshot>, asOf: Instant, limit: nat, ids: seq<InvoiceId>)
    requires IsFirst(LateKeys(invoices, asOf), limit, ids)
    ensures LateKeys(Sweeping(invoices, ids, asOf), asOf) == LateKeys(invoices, asOf)
    ensures |Sweeping(invoices, ids, asOf)| == |invoices|
    ensures forall i :: 0 <= i < |invoices| ==>
      Sweeping(invoices, ids, asOf)[i] == if i in ids then Marked(invoices[i], asOf) else invoices[i]
  {
    ListedAreMarked(invoices, ids, asOf);
  }

  /** If those late fit in one batch a single sweep marks them all, and sweeping again changes nothing. */
  lemma {:induction false} OneBatchMarksAll(invoices: seq<InvoiceSnapshot>, asOf: Instant, limit: nat,
                                            ids: seq<InvoiceId>, again: seq<InvoiceId>)
    requires IsFirst(LateKeys(invoices, asOf), limit, ids) && |Wanted(LateKeys(invoices, asOf))| <= limit
    requires IsFirst(LateKeys(Sweeping(invoices, ids, asOf), asOf), limit, again)
    ensures var after := Sweeping(invoices, ids, asOf);
            && |after| == |invoices|
            && (forall i :: 0 <= i < |invoices| ==>
                  after[i] == if Late(invoices[i], asOf) then Marked(invoices[i], asOf) else invoices[i])
            && Sweeping(after, again, asOf) == after
  {
    SweepKeepsKeys(invoices, asOf, limit, ids);
    ListsWhatFits(LateKeys(invoices, asOf), limit, ids);
    forall i | 0 <= i < |invoices| ensures i in ids <==> Late(invoices[i], asOf) {
      assert i in ids <==> i in Members(ids);
      assert i in Wanted(LateKeys(invoices, asOf)) <==> Late(invoices[i], asOf);
    }
    SweepKeepsKeys(Sweeping(invoices, ids, asOf), asOf, limit, again);
  }

  /** Unsettled invoices due no later than this one, itself among them. */
  function UpTo(keys: Keys, i: InvoiceId): set<nat>
    requires i < |keys| && keys[i].Some?
  {
    set j | 0 <= j < |keys| && keys[j].Some? && keys[j].value <= keys[i].value
  }

  lemma ListedIfAmongFirst(keys: Keys, limit: nat, ids: seq<InvoiceId>, i: InvoiceId)
    requires IsFirst(keys, limit, ids) && i < |keys| && keys[i].Some? && |UpTo(keys, i)| <= limit
    ensures i in ids
  {
    if i !in ids {
      MembersCount(ids);
      forall m | m in Members(ids) ensures m in UpTo(keys, i) - {i} {
        assert keys[m].value <= keys[i].value;
      }
      SmallerSet(Members(ids), UpTo(keys, i) - {i});
    }
  }

  /**
    Otherwise, wherever a tie falls: an unmarked invoice is marked by the first sweep if those due up to its
    day fit one batch, and by no sweep of the morning if a batch or more fell due before it.
   */
  lemma {:induction false} MarkedOrNever(invoices: seq<InvoiceSnapshot>, asOf: Instant, limit: nat,
                                         listings: seq<seq<InvoiceId>>, i: InvoiceId)
    requires Sweeps(invoices, asOf, limit, listings) && listings != []
    requires i < |invoices| && Late(invoices[i], asOf) && invoices[i].overdueSince.None?
    ensures i < |AfterSweeps(invoices, asOf, listings)|
    ensures |UpTo(LateKeys(invoices, asOf), i)| <= limit ==> AfterSweeps(invoices, asOf, listings)[i].overdueSince.Some?
    ensures |Earlier(LateKeys(invoices, asOf), i)| >= limit ==> AfterSweeps(invoices, asOf, listings)[i].overdueSince.None?
    decreases |listings|
  {
    var keys := LateKeys(invoices, asOf);
    SweepKeepsKeys(invoices, asOf, limit, listings[0]);
    var after := Sweeping(invoices, listings[0], asOf);
    if |UpTo(keys, i)| <= limit {
      ListedIfAmongFirst(keys, limit, listings[0], i);
      assert i in UpTo(keys, i);
    }
    if |Earlier(keys, i)| >= limit {
      ShutOut(keys, limit, listings[0], Earlier(keys, i), i);
    }
    if i in listings[0] {
      MarksStay(after, asOf, limit, listings[1..], i);
    } else if |listings| > 1 {
      MarkedOrNever(after, asOf, limit, listings[1..], i);
    }
  }

  /** Without ties that is exact: the first sweep marks it, or none ever does. */
  lemma {:induction false} MarkedIffEarlyEnough(invoices: seq<InvoiceSnapshot>, asOf: Instant, limit: nat,
                                                listings: seq<seq<InvoiceId>>, i: InvoiceId)
    requires Sweeps(invoices, asOf, limit, listings) && listings != []
    requires i < |invoices| && Late(invoices[i], asOf) && invoices[i].overdueSince.None?
    requires DistinctKeys(LateKeys(invoices, asOf))
    ensures i < |AfterSweeps(invoices, asOf, listings)|
    ensures AfterSweeps(invoices, asOf, listings)[i].overdueSince.Some? <==> |Earlier(LateKeys(invoices, asOf), i)| < limit
  {
    NoTies(LateKeys(invoices, asOf), i);
    MarkedOrNever(invoices, asOf, limit, listings, i);
  }

  lemma NoTies(keys: Keys, i: InvoiceId)
    requires i < |keys| && keys[i].Some? && DistinctKeys(keys)
    ensures |UpTo(keys, i)| == |Earlier(keys, i)| + 1
  {
    assert UpTo(keys, i) == Earlier(keys, i) + {i};
  }

  lemma {:induction false} MarksStay(invoices: seq<InvoiceSnapshot>, asOf: Instant, limit: nat,
                                     listings: seq<seq<InvoiceId>>, i: InvoiceId)
    requires Sweeps(invoices, asOf, limit, listings) && i < |invoices| && invoices[i].overdueSince.Some?
    ensures i < |AfterSweeps(invoices, asOf, listings)| && AfterSweeps(invoices, asOf, listings)[i] == invoices[i]
    decreases |listings|
  {
    if listings != [] {
      SweepKeepsKeys(invoices, asOf, limit, listings[0]);
      MarksStay(Sweeping(invoices, listings[0], asOf), asOf, limit, listings[1..], i);
    }
  }

  /** What a sweep leaves of each invoice: a mark of this moment on every listed one that is unsettled, past due and unmarked. */
  lemma {:induction false} SweptSays(invoices: seq<InvoiceSnapshot>, asOf: Instant, limit: nat, ids: seq<InvoiceId>, i: InvoiceId)
    requires IsFirst(LateKeys(invoices, asOf), limit, ids) && i < |invoices|
    ensures |Sweeping(invoices, ids, asOf)| == |invoices|
    ensures Sweeping(invoices, ids, asOf)[i] ==
      if i in ids && invoices[i].overdueSince.None? then invoices[i].(overdueSince := Some(asOf)) else invoices[i]
    ensures i in ids ==> invoices[i].settlement in {Issued, PartPaid} && invoices[i].dueOn < asOf
    ensures invoices[i].settlement in {Issued, PartPaid} && invoices[i].dueOn < asOf && i !in ids ==>
      |ids| == limit && forall n :: 0 <= n < |ids| ==> ids[n] < |invoices| && invoices[ids[n]].dueOn <= invoices[i].dueOn
  {
    SweepKeepsKeys(invoices, asOf, limit, ids);
    var keys := LateKeys(invoices, asOf);
    assert keys[i].Some? <==> invoices[i].settlement in {Issued, PartPaid} && invoices[i].dueOn < asOf;
  }

  // ----- Payments, new invoices and sweeps of any day -----

  datatype DeskStep =
    | Pay(command: PaymentCommand, methods: set<string>)
    | Raised(invoice: InvoiceSnapshot)
    | Sweep(asOf: Instant, ids: seq<InvoiceId>)

  function AfterStep(invoices: seq<InvoiceSnapshot>, step: DeskStep): seq<InvoiceSnapshot> {
    match step
    case Pay(command, methods) => AfterRecord(invoices, command, methods).0
    case Raised(invoice) => invoices + [invoice]
    case Sweep(asOf, ids) => Sweeping(invoices, ids, asOf)
  }

  function AfterSteps(invoices: seq<InvoiceSnapshot>, steps: seq<DeskStep>): seq<InvoiceSnapshot>
    decreases |steps|
  {
    if steps == [] then invoices else AfterSteps(AfterStep(invoices, steps[0]), steps[1..])
  }

  ghost predicate DistinctDue(invoices: seq<InvoiceSnapshot>) {
    forall i, j :: 0 <= i < j < |invoices| ==> invoices[i].dueOn != invoices[j].dueOn
  }

  /** Each sweep lists what the query gives, no two invoices fall due together, and this one is never settled. */
  ghost predicate Unfolds(invoices: seq<InvoiceSnapshot>, limit: nat, steps: seq<DeskStep>, i: InvoiceId)
    decreases |steps|
  {
    && DistinctDue(invoices) && i < |invoices| && invoices[i].settlement in {Issued, PartPaid}
    && (steps != [] ==>
          && (steps[0].Sweep? ==> IsFirst(LateKeys(invoices, steps[0].asOf), limit, steps[0].ids))
          && Unfolds(AfterStep(invoices, steps[0]), limit, steps[1..], i))
  }

  /** A sweep comes to it: it is late by then, and fewer than a batch of the unsettled ones fell due before it. */
  predicate Reaches(invoices: seq<InvoiceSnapshot>, limit: nat, step: DeskStep, i: InvoiceId)
    requires i < |invoices|
  {
    step.Sweep? && Late(invoices[i], step.asOf) && |Earlier(LateKeys(invoices, step.asOf), i)| < limit
  }

  ghost predicate SomeSweepReaches(invoices: seq<InvoiceSnapshot>, limit: nat, steps: seq<DeskStep>, i: InvoiceId)
    decreases |steps|
  {
    steps != [] && i < |invoices| &&
      (Reaches(invoices, limit, steps[0], i) || SomeSweepReaches(AfterStep(invoices, steps[0]), limit, steps[1..], i))
  }

  lemma StepMarks(invoices: seq<InvoiceSnapshot>, limit: nat, step: DeskStep, i: InvoiceId)
    requires DistinctDue(invoices) && i < |invoices| && invoices[i].settlement in {Issued, PartPaid}
    requires step.Sweep? ==> IsFirst(LateKeys(invoices, step.asOf), limit, step.ids)
    requires i < |AfterStep(invoices, step)| && AfterStep(invoices, step)[i].settlement in {Issued, PartPaid}
    ensures AfterStep(invoices, step)[i].overdueSince.Some? <==>
      invoices[i].overdueSince.Some? || Reaches(invoices, limit, step, i)
  {
    if step.Sweep? {
      SweepKeepsKeys(invoices, step.asOf, limit, step.ids);
      if Late(invoices[i], step.asOf) {
        ListedIffEarlyEnough(LateKeys(invoices, step.asOf), limit, step.ids, i);
      }
    }
  }

  /**
    Over any run of payments, new invoices and sweeps, an invoice not settled meanwhile bears a mark at the
    end exactly if it had one, or at one of the sweeps fewer than a batch of unsettled ones stood before it.
   */
  lemma {:induction false} MarkedIffSomeSweepReachesIt(invoices: seq<InvoiceSnapshot>, limit: nat, steps: seq<DeskStep>, i: InvoiceId)
    requires Unfolds(invoices, limit, steps, i)
    ensures i < |AfterSteps(invoices, steps)|
    ensures AfterSteps(invoices, steps)[i].overdueSince.Some? <==>
      invoices[i].overdueSince.Some? || SomeSweepReaches(invoices, limit, steps, i)
    decreases |steps|
  {
    if steps != [] {
      StepMarks(invoices, limit, steps[0], i);
      MarkedIffSomeSweepReachesIt(AfterStep(invoices, steps[0]), limit, steps[1..], i);
    }
  }

  const ONE_LINE := [InvoiceLine("project", "vat_return", 3600, Money(100, AED), 100, None)]
  const OLDER := InvoiceSnapshot("client", 0, None, "1", Issued, AED, ONE_LINE, [], 0, 0, 1, None, "user")
  const YOUNGER := InvoiceSnapshot("client", 1, None, "2", Issued, AED, ONE_LINE, [], 0, 0, 2, None, "user")

  lemma BothAreRaised()
    ensures AfterRaise("client", 0, "1", None, AED, ONE_LINE, 0, 0, 1, "user") == Ok(OLDER)
    ensures AfterRaise("client", 1, "2", None, AED, ONE_LINE, 0, 0, 2, "user") == Ok(YOUNGER)
  {
    NothingToTrim("1");
    NothingToTrim("2");
    NothingToTrim("project");
  }

  lemma {:induction false} OlderIsListed(keys: Keys)
    requires keys == [Some(1), Some(2)]
    ensures IsFirst(keys, 1, [0]) && |Earlier(keys, 1)| >= 1
  {
    assert 0 in Earlier(keys, 1);
    SmallerSet({0}, Earlier(keys, 1));
  }

  lemma {:induction false} OlderInTheWay(invoices: seq<InvoiceSnapshot>, listings: seq<seq<InvoiceId>>)
    requires invoices == [OLDER, YOUNGER] && Sweeps(invoices, 3, 1, listings) && listings != []
    ensures Sweeps(invoices, 3, 1, [[0]])
    ensures |AfterSweeps(invoices, 3, listings)| > 1 && AfterSweeps(invoices, 3, listings)[1].overdueSince.None?
  {
    OlderIsListed(LateKeys(invoices, 3));
    MarkedOrNever(invoices, 3, 1, listings, 1);
    assert [[0]][1..] == [];
  }

  /** Two invoices just raised, both late, and batches of one: the older is listed every time, and the younger never marked. */
  lemma {:induction false} YoungerNeverMarked(listings: seq<seq<InvoiceId>>)
    requires Sweeps([OLDER, YOUNGER], 3, 1, listings) && listings != []
    ensures AfterRaise("client", 0, "1", None, AED, ONE_LINE, 0, 0, 1, "user") == Ok(OLDER)
    ensures AfterRaise("client", 1, "2", None, AED, ONE_LINE, 0, 0, 2, "user") == Ok(YOUNGER)
    ensures Late(YOUNGER, 3) && Sweeps([OLDER, YOUNGER], 3, 1, [[0]])
    ensures var after := AfterSweeps([OLDER, YOUNGER], 3, listings); |after| > 1 && after[1].overdueSince.None?
  {
    BothAreRaised();
    OlderInTheWay([OLDER, YOUNGER], listings);
  }
}
