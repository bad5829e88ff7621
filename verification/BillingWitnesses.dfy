/** Two runs of the billing use cases, each from empty tables: a fee charged twice, and a cancellation nothing keeps. */
module BillingWitnesses {
  import opened Wrappers
  import opened Rounding
  import opened Money
  import opened Text
  import opened Statement
  import opened GenerateStatement
  import opened BillingPipeline
  import opened BillingRuns
  import I = Invoice
  import T = InvoiceStore

  lemma {:induction false} OneStepMore(w: World, steps: seq<Step>, step: Step)
    requires Legal(w, steps) && Enabled(Run(w, steps), step)
    ensures Legal(w, steps + [step]) && Run(w, steps + [step]) == Next(Run(w, steps), step)
    decreases |steps|
  {
    if steps == [] {
      assert [] + [step] == [step] && [step][1..] == [];
    } else {
      OneStepMore(Next(w, steps[0]), steps[1..], step);
      assert (steps + [step])[1..] == steps[1..] + [step];
    }
  }

  lemma ReachedNext(w: World, step: Step, after: World, first: nat)
    requires Reached(w, first) && Enabled(w, step) && after == Next(w, step)
    ensures Reached(after, first)
  {
    var steps :| Legal(World([], [], [], first), steps) && Run(World([], [], [], first), steps) == w;
    OneStepMore(World([], [], [], first), steps, step);
  }

  lemma EmptyIsReached(first: nat)
    ensures Reached(World([], [], [], first), first)
  {
    assert Legal(World([], [], [], first), []) && Run(World([], [], [], first), []) == World([], [], [], first);
  }

  // ----- One piece of work on a fixed fee -----

  const FEE := Money(500_000, AED)

  function Worked(month: int): TimeEntry {
    TimeEntry("client", "project", "vat", "vat_return", Day(2026, month, 5), Some("user"), 3600, FixedWork, Some(FEE.minor),
              true, true, true, None)
  }

  function Rate(day: Day): Money {
    Money(0, AED)
  }

  function FeeLine(month: int): StatementLine {
    StatementLine("project", "vat_return", Day(2026, month, 5), Some("user"), 3600, Fixed(FEE), false, None, None, None)
  }

  function Billing(month: int): Snapshot {
    Snapshot("client", Day(2026, month, 1), Day(2026, month, 28), StatementState.Draft, AED, [FeeLine(month)], "user", 0, None, None)
  }

  function OnStatement(month: int, statement: StatementId): TimeEntry {
    Worked(month).(line := Some(LineRef(statement, 0)))
  }

  function GenerateFor(month: int, id: EntryId): Step {
    Generate("client", Day(2026, month, 1), Day(2026, month, 28), [Worked(month).AsWork(id)], AED, Rate, "user", 0)
  }

  lemma OneGroup(item: BillableWork)
    ensures Grouped([item]) == [Group(KeyOf(item), [item])] && Seconds([item]) == item.seconds
  {
    assert [item][..0] == [];
    assert Grouped([]) == [];
  }

  lemma DraftedFor(month: int, id: EntryId)
    ensures var work := [Worked(month).AsWork(id)];
            DraftFrom("client", Day(2026, month, 1), Day(2026, month, 28), work, AED, Rate, "user", 0) == Ok(Billing(month))
  {
    var item := Worked(month).AsWork(id);
    var group := Group(KeyOf(item), [item]);
    OneGroup(item);
    assert Priced(group, AED, Rate) == Ok(FeeLine(month));
    assert [group][..0] == [];
    assert AllPriced([], AED, Rate) == Ok([]);
    assert [] + [FeeLine(month)] == [FeeLine(month)];
    assert AllPriced([group], AED, Rate) == Ok([FeeLine(month)]);
  }

  /** The last entry recorded is the only one waiting, and a statement is made of it. */
  lemma GeneratedFor(w: World, month: int, first: nat)
    requires Reached(w, first) && w.entries != [] && w.entries[|w.entries| - 1] == Worked(month)
    requires forall e :: 0 <= e < |w.entries| - 1 ==> w.entries[e].line.Some?
    ensures Reached(w.(entries := w.entries[|w.entries| - 1 := OnStatement(month, |w.statements|)],
                       statements := w.statements + [Billing(month)]), first)
  {
    var id := |w.entries| - 1;
    var item := Worked(month).AsWork(id);
    DraftedFor(month, id);
    OneGroup(item);
    var groups := [Group(KeyOf(item), [item])];
    assert groups[..0] == [];
    assert IdsOf([item]) == {id};
    assert AttachGroups(w.entries, |w.statements|, []) == w.entries;
    assert AttachGroups(w.entries, |w.statements|, groups) == Attach(w.entries, LineRef(|w.statements|, 0), {id});
    assert Attach(w.entries, LineRef(|w.statements|, 0), {id}) == w.entries[id := OnStatement(month, |w.statements|)];
    OnlyListing(w, month);
    ReachedNext(w, GenerateFor(month, id), w.(entries := w.entries[id := OnStatement(month, |w.statements|)],
                                              statements := w.statements + [Billing(month)]), first);
  }

  lemma OnlyListing(w: World, month: int)
    requires w.entries != [] && w.entries[|w.entries| - 1] == Worked(month)
    requires forall e :: 0 <= e < |w.entries| - 1 ==> w.entries[e].line.Some?
    ensures Enabled(w, GenerateFor(month, |w.entries| - 1))
  {
    var id := |w.entries| - 1;
    var work := [Worked(month).AsWork(id)];
    assert work[0].entryId == id;
  }

  lemma RecordedFor(w: World, month: int, first: nat)
    requires Reached(w, first)
    ensures Reached(w.(entries := w.entries + [Worked(month)]), first)
  {
    NothingToTrim("project");
    ReachedNext(w, Record(Worked(month)), w.(entries := w.entries + [Worked(month)]), first);
  }

  /** The month's work recorded and billed, after so many others. */
  lemma {:induction false} BilledIsReached(before: World, recorded: World, after: World, month: int, first: nat)
    requires Reached(before, first) && forall e :: 0 <= e < |before.entries| ==> before.entries[e].line.Some?
    requires recorded == before.(entries := before.entries + [Worked(month)])
    requires after == before.(entries := before.entries + [OnStatement(month, |before.statements|)],
                              statements := before.statements + [Billing(month)])
    ensures Reached(after, first)
  {
    RecordedFor(before, month, first);
    GeneratedFor(recorded, month, first);
    assert recorded.entries[|before.entries| := OnStatement(month, |before.statements|)] == after.entries;
  }

  lemma OneIsReached(w: World, first: nat)
    requires w == World([OnStatement(1, 0)], [Billing(1)], [], first)
    ensures Reached(w, first)
  {
    var empty := World([], [], [], first);
    EmptyIsReached(first);
    assert [] + [OnStatement(1, 0)] == [OnStatement(1, 0)] && [] + [Billing(1)] == [Billing(1)];
    BilledIsReached(empty, empty.(entries := [] + [Worked(1)]), w, 1, first);
  }

  lemma TwoAreReached(one: World, two: World)
    requires one == World([OnStatement(1, 0)], [Billing(1)], [], 1)
    requires two == World([OnStatement(1, 0), OnStatement(2, 1)], [Billing(1), Billing(2)], [], 1)
    ensures Reached(two, 1)
  {
    OneIsReached(one, 1);
    assert [OnStatement(1, 0)] + [OnStatement(2, 1)] == [OnStatement(1, 0), OnStatement(2, 1)];
    assert [Billing(1)] + [Billing(2)] == [Billing(1), Billing(2)];
    BilledIsReached(one, one.(entries := one.entries + [Worked(2)]), two, 2, 1);
  }

  /** Work on one project in January and in February: each month's statement charges the whole fee. */
  lemma FeeChargedTwice() returns (w: World)
    ensures Reached(w, 1) && |w.statements| == 2 && |w.entries| == 2
    ensures w.entries[0].project == w.entries[1].project && w.entries[0].feeMinor == w.entries[1].feeMinor == Some(FEE.minor)
    ensures forall s :: 0 <= s < 2 ==> w.entries[s].line == Some(LineRef(s, 0)) && Total(w.statements[s].lines) == FEE.minor
  {
    w := World([OnStatement(1, 0), OnStatement(2, 1)], [Billing(1), Billing(2)], [], 1);
    TwoAreReached(World([OnStatement(1, 0)], [Billing(1)], [], 1), w);
    FeeIsTotal(1);
    FeeIsTotal(2);
  }

  lemma FeeIsTotal(month: int)
    ensures Total(Billing(month).lines) == FEE.minor
  {
    assert LineAmount(FeeLine(month)) == FEE.minor;
    assert Amounts(Billing(month).lines) == [FEE.minor];
    assert [FEE.minor][..0] == [];
    assert Sum([FEE.minor]) == Sum([FEE.minor][..0]) + FEE.minor;
  }

  // ----- An invoice, and its cancellation -----

  function Agreed(): Snapshot {
    Billing(1).(state := StatementState.Approved, approvedAt := Some(1), approvedBy := Some("user"))
  }

  const REQUEST := RaiseRequest(0, None, {}, Settings(500, 30), 2, "user")

  lemma ApprovedIsReached(w: World, agreed: World)
    requires w == World([OnStatement(1, 0)], [Billing(1)], [], 2071) && agreed == w.(statements := [Agreed()])
    ensures Reached(agreed, 2071)
  {
    OneIsReached(w, 2071);
    FeeIsTotal(1);
    assert [Billing(1)][0 := Agreed()] == [Agreed()];
    ReachedNext(w, Revise(0, Approve("user", 1)), agreed, 2071);
  }

  lemma RaisedHere(w: World, first: nat)
    requires Reached(w, first) && Enabled(w, Raise(REQUEST)) && RefusedFirst(w, REQUEST).None?
    ensures Reached(AfterRaise(w, REQUEST).0, first)
    ensures RaisedFrom(w, REQUEST).Ok? && T.Storable(RaisedFrom(w, REQUEST).value)
    ensures AfterRaise(w, REQUEST).0.invoices == w.invoices + [RaisedFrom(w, REQUEST).value]
  {
    T.RaisedIsStored(w, REQUEST, first);
    ReachedIsSound(w, first);
    NothingRefusesAfterTheNumber(w, REQUEST, first);
    ReachedNext(w, Raise(REQUEST), AfterRaise(w, REQUEST).0, first);
  }

  lemma MayRaise(w: World)
    requires w == World([OnStatement(1, 0)], [Agreed()], [], 2071)
    ensures Enabled(w, Raise(REQUEST)) && RefusedFirst(w, REQUEST).None?
  {
    assert w.statements[0].lines[0] == FeeLine(1);
    assert BilledLines(w.statements[0].lines) != [];
  }

  /** An invoice is raised and stored, and cancelled with a reason: the invoice agrees, and the table does not. */
  lemma CancelledCannotBeSaved() returns (w: World)
    ensures Reached(w, 2071) && |w.invoices| == 1
    ensures T.Accepts(T.Tables(None, [], map[]), w.invoices[0])
    ensures var stored := T.Saved(T.Tables(None, [], map[]), w.invoices[0]);
            I.AfterCancel(w.invoices[0], "duplicate").Ok? && !T.Accepts(stored, I.AfterCancel(w.invoices[0], "duplicate").value)
  {
    var before := World([OnStatement(1, 0)], [Agreed()], [], 2071);
    ApprovedIsReached(World([OnStatement(1, 0)], [Billing(1)], [], 2071), before);
    w := RaisedFirst(before);
    NothingToTrim("duplicate");
    T.CancelledIsNotStored(w.invoices[0], "duplicate");
  }

  lemma RaisedFirst(before: World) returns (w: World)
    requires before == World([OnStatement(1, 0)], [Agreed()], [], 2071) && Reached(before, 2071)
    ensures Reached(w, 2071) && |w.invoices| == 1 && T.Storable(w.invoices[0])
  {
    MayRaise(before);
    RaisedHere(before, 2071);
    w := AfterRaise(before, REQUEST).0;
  }
}
