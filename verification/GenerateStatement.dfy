/** Turning recorded work into the lines of a statement: grouping and pricing. */
module GenerateStatement {
  import opened Wrappers
  import opened Rounding
  import opened Money
  import opened Statement

  type EntryId = nat

  datatype WorkPricing = HourlyWork | FixedWork | RetainerWork

  /** One piece of approved, unbilled work, as the reader hands it over. */
  datatype BillableWork = BillableWork(
    entryId: EntryId, project: string, clientService: string, service: string, performedOn: Day,
    user: Option<string>, seconds: int, pricing: WorkPricing, feeMinor: Option<int>)

  datatype GroupKey =
    | RetainerMonth(clientService: string, year: int, month: int)
    | FixedProject(project: string)
    | HourlyDay(project: string, day: Day, user: string)

  datatype Group = Group(key: GroupKey, items: seq<BillableWork>)

  function KeyOf(item: BillableWork): GroupKey {
    match item.pricing
    case RetainerWork => RetainerMonth(item.clientService, item.performedOn.year, item.performedOn.month)
    case FixedWork => FixedProject(item.project)
    case HourlyWork => HourlyDay(item.project, item.performedOn, if item.user.Some? then item.user.value else "")
  }

  /** Where the group stands in the order groups were first seen, or past the end. */
  function IndexOf(groups: seq<Group>, key: GroupKey): (i: nat)
    ensures i <= |groups|
    ensures i < |groups| ==> groups[i].key == key
    ensures forall j :: 0 <= j < i ==> groups[j].key != key
  {
    if groups == [] then 0
    else if groups[0].key == key then 0
    else 1 + IndexOf(groups[1..], key)
  }

  function AddTo(groups: seq<Group>, item: BillableWork): seq<Group> {
    var i := IndexOf(groups, KeyOf(item));
    if i < |groups| then groups[i := Group(groups[i].key, groups[i].items + [item])]
    else groups + [Group(KeyOf(item), [item])]
  }

  function Grouped(work: seq<BillableWork>): seq<Group> {
    if work == [] then [] else AddTo(Grouped(work[..|work| - 1]), work[|work| - 1])
  }

  method GroupBy(work: seq<BillableWork>) returns (groups: seq<Group>)
    ensures groups == Grouped(work)
  {
    groups := [];
    for n := 0 to |work|
      invariant groups == Grouped(work[..n])
    {
      var item := work[n];
      var existing := IndexOf(groups, KeyOf(item));
      if existing < |groups| {
        groups := groups[existing := Group(groups[existing].key, groups[existing].items + [item])];
      } else {
        groups := groups + [Group(KeyOf(item), [item])];
      }
      assert work[..n + 1][..n] == work[..n];
    }
    assert work[..|work|] == work;
  }

  /** The work with a given key, in the order it came. */
  function WithKey(work: seq<BillableWork>, key: GroupKey): seq<BillableWork> {
    if work == [] then []
    else
      var rest, last := WithKey(work[..|work| - 1], key), work[|work| - 1];
      if KeyOf(last) == key then rest + [last] else rest
  }

  function Seconds(work: seq<BillableWork>): int {
    if work == [] then 0 else Seconds(work[..|work| - 1]) + work[|work| - 1].seconds
  }

  function Worked(groups: seq<Group>): seq<int> {
    seq(|groups|, i requires 0 <= i < |groups| => Seconds(groups[i].items))
  }

  ghost predicate OnePerKey(groups: seq<Group>) {
    forall i, j :: 0 <= i < j < |groups| ==> groups[i].key != groups[j].key
  }

  ghost predicate EachHoldsItsKey(groups: seq<Group>, work: seq<BillableWork>) {
    forall i :: 0 <= i < |groups| ==> groups[i].items == WithKey(work, groups[i].key) && groups[i].items != []
  }

  ghost predicate NoneLeftOut(groups: seq<Group>, work: seq<BillableWork>) {
    forall n :: 0 <= n < |work| ==> IndexOf(groups, KeyOf(work[n])) < |groups|
  }

  /** There is one group per key, it is not empty, and it holds that key's work and nothing else. */
  ghost predicate Partition(groups: seq<Group>, work: seq<BillableWork>) {
    && OnePerKey(groups) && EachHoldsItsKey(groups, work) && NoneLeftOut(groups, work)
    && Sum(Worked(groups)) == Seconds(work)
  }

  lemma {:induction false} IndexOfIs(groups: seq<Group>, i: nat)
    requires i < |groups| && forall j, k :: 0 <= j < k < |groups| ==> groups[j].key != groups[k].key
    ensures IndexOf(groups, groups[i].key) == i
  {
    var _ := IndexOf(groups, groups[i].key);
  }

  lemma {:induction false} GroupedPartitions(work: seq<BillableWork>)
    ensures Partition(Grouped(work), work)
  {
    if work != [] {
      var n := |work| - 1;
      GroupedPartitions(work[..n]);
      AddingKeepsPartition(Grouped(work[..n]), work[..n], work[n]);
      assert work == work[..n] + [work[n]];
    }
  }

  lemma {:induction false} NoneWithKey(groups: seq<Group>, work: seq<BillableWork>, key: GroupKey)
    requires IndexOf(groups, key) == |groups|
    requires forall n :: 0 <= n < |work| ==> IndexOf(groups, KeyOf(work[n])) < |groups|
    ensures WithKey(work, key) == []
  {
    if work != [] {
      NoneWithKey(groups, work[..|work| - 1], key);
      assert IndexOf(groups, KeyOf(work[|work| - 1])) < |groups|;
    }
  }

  lemma {:induction false} AddingKeepsPartition(groups: seq<Group>, work: seq<BillableWork>, item: BillableWork)
    requires Partition(groups, work)
    ensures Partition(AddTo(groups, item), work + [item])
  {
    AddingLeavesNoneOut(groups, work, item);
    if IndexOf(groups, KeyOf(item)) < |groups| {
      JoinsGroup(groups, work, item);
    } else {
      OpensGroup(groups, work, item);
    }
  }

  lemma AddingLeavesNoneOut(groups: seq<Group>, work: seq<BillableWork>, item: BillableWork)
    requires NoneLeftOut(groups, work)
    ensures NoneLeftOut(AddTo(groups, item), work + [item])
  {
    var after, all := AddTo(groups, item), work + [item];
    forall m | 0 <= m < |all| ensures IndexOf(after, KeyOf(all[m])) < |after| {
      assert after[IndexOf(groups, KeyOf(all[m]))].key == KeyOf(all[m]);
    }
  }

  lemma {:induction false} WithOneMore(work: seq<BillableWork>, item: BillableWork, key: GroupKey)
    ensures WithKey(work + [item], key) == if KeyOf(item) == key then WithKey(work, key) + [item] else WithKey(work, key)
    ensures Seconds(work + [item]) == Seconds(work) + item.seconds
  {
    assert (work + [item])[..|work|] == work;
  }

  /** The group at home, with one more item. */
  function Joined(groups: seq<Group>, home: nat, item: BillableWork): seq<Group>
    requires home < |groups|
  {
    groups[home := Group(groups[home].key, groups[home].items + [item])]
  }

  lemma {:induction false} JoiningHolds(groups: seq<Group>, work: seq<BillableWork>, home: nat, item: BillableWork)
    requires OnePerKey(groups) && EachHoldsItsKey(groups, work) && home < |groups| && groups[home].key == KeyOf(item)
    ensures EachHoldsItsKey(Joined(groups, home, item), work + [item])
  {
    forall i | 0 <= i < |groups| ensures Joined(groups, home, item)[i].items == WithKey(work + [item], groups[i].key) {
      WithOneMore(work, item, groups[i].key);
      if i != home { assert groups[i].key != groups[home].key; }
    }
  }

  lemma {:induction false} JoinsGroup(groups: seq<Group>, work: seq<BillableWork>, item: BillableWork)
    requires Partition(groups, work) && IndexOf(groups, KeyOf(item)) < |groups|
    ensures var after := AddTo(groups, item);
            OnePerKey(after) && EachHoldsItsKey(after, work + [item]) && Sum(Worked(after)) == Seconds(work + [item])
  {
    var home := IndexOf(groups, KeyOf(item));
    assert AddTo(groups, item) == Joined(groups, home, item);
    JoiningHolds(groups, work, home, item);
    JoiningAddsHours(groups, home, item);
    WithOneMore(work, item, KeyOf(item));
  }

  lemma JoiningAddsHours(groups: seq<Group>, home: nat, item: BillableWork)
    requires home < |groups|
    ensures Sum(Worked(Joined(groups, home, item))) == Sum(Worked(groups)) + item.seconds
  {
    var items := groups[home].items;
    assert (items + [item])[..|items|] == items;
    assert Worked(Joined(groups, home, item)) == Worked(groups)[home := Seconds(items) + item.seconds];
    SumUpdate(Worked(groups), home, Seconds(items) + item.seconds);
  }

  lemma {:induction false} OpeningHolds(groups: seq<Group>, work: seq<BillableWork>, item: BillableWork)
    requires EachHoldsItsKey(groups, work) && NoneLeftOut(groups, work) && IndexOf(groups, KeyOf(item)) == |groups|
    ensures EachHoldsItsKey(groups + [Group(KeyOf(item), [item])], work + [item])
  {
    NoneWithKey(groups, work, KeyOf(item));
    WithOneMore(work, item, KeyOf(item));
    forall i | 0 <= i < |groups| ensures groups[i].items == WithKey(work + [item], groups[i].key) {
      WithOneMore(work, item, groups[i].key);
    }
  }

  lemma {:induction false} OpensGroup(groups: seq<Group>, work: seq<BillableWork>, item: BillableWork)
    requires Partition(groups, work) && IndexOf(groups, KeyOf(item)) == |groups|
    ensures var after := AddTo(groups, item);
            OnePerKey(after) && EachHoldsItsKey(after, work + [item]) && Sum(Worked(after)) == Seconds(work + [item])
  {
    assert AddTo(groups, item) == groups + [Group(KeyOf(item), [item])];
    OpeningHolds(groups, work, item);
    OpenedOnce(groups, item);
    WorkedWithOneMore(groups, Group(KeyOf(item), [item]));
    OneAlone(item);
    WithOneMore(work, item, KeyOf(item));
  }

  lemma OpenedOnce(groups: seq<Group>, item: BillableWork)
    requires OnePerKey(groups) && IndexOf(groups, KeyOf(item)) == |groups|
    ensures OnePerKey(groups + [Group(KeyOf(item), [item])])
  {
    var _ := IndexOf(groups, KeyOf(item));
  }

  lemma OneAlone(item: BillableWork)
    ensures Seconds([item]) == item.seconds
  {
    assert [item][..0] == [];
  }

  lemma WorkedWithOneMore(groups: seq<Group>, group: Group)
    ensures Sum(Worked(groups + [group])) == Sum(Worked(groups)) + Seconds(group.items)
  {
    assert Worked(groups + [group])[..|groups|] == Worked(groups);
  }

  lemma {:induction false} ItemsHaveKey(work: seq<BillableWork>, key: GroupKey)
    ensures forall i :: 0 <= i < |WithKey(work, key)| ==> KeyOf(WithKey(work, key)[i]) == key
    ensures forall i :: 0 <= i < |WithKey(work, key)| ==> WithKey(work, key)[i] in work
    ensures forall n :: 0 <= n < |work| && KeyOf(work[n]) == key ==> work[n] in WithKey(work, key)
  {
    if work != [] {
      var k := |work| - 1;
      ItemsHaveKey(work[..k], key);
      forall n | 0 <= n < |work| && KeyOf(work[n]) == key ensures work[n] in WithKey(work, key) {
        if n < k { assert work[n] == work[..k][n]; }
      }
    }
  }

  /** Every entry lands in exactly one group, its key's, and the groups' hours add up to all the hours. */
  lemma {:induction false} EachEntryInOneGroup(work: seq<BillableWork>, n: nat)
    requires n < |work|
    ensures var groups := Grouped(work);
            var home := IndexOf(groups, KeyOf(work[n]));
            && home < |groups|
            && (forall g :: 0 <= g < |groups| ==> (work[n] in groups[g].items <==> g == home))
            && Sum(Worked(groups)) == Seconds(work)
  {
    GroupedPartitions(work);
    var groups := Grouped(work);
    var home := IndexOf(groups, KeyOf(work[n]));
    forall g | 0 <= g < |groups| ensures work[n] in groups[g].items <==> g == home {
      ItemsHaveKey(work, groups[g].key);
      if g != home { assert groups[g].key != groups[home].key; }
    }
  }

  // ----- Pricing -----

  datatype GenerateConflict = PeriodEndsFirst | NothingUnbilled | NoFeeAgreed | MixedCurrencies | Drafting(conflict: Conflict)

  function PlainLine(first: BillableWork, worked: int, pricing: Pricing): StatementLine {
    StatementLine(first.project, first.service, first.performedOn, first.user, worked, pricing, false, None, None, None)
  }

  function Priced(group: Group, currency: Currency, perHourOn: Day -> Money): Result<StatementLine, GenerateConflict>
    requires group.items != []
  {
    var first, worked := group.items[0], Seconds(group.items);
    if first.pricing != HourlyWork then
      if first.feeMinor.None? then Err(NoFeeAgreed)
      else Ok(PlainLine(first, worked, Fixed(Money(first.feeMinor.value, currency))))
    else if perHourOn(first.performedOn).currency != currency then Err(MixedCurrencies)
    else Ok(PlainLine(first, worked, Hourly(perHourOn(first.performedOn))))
  }

  ghost predicate NoneEmpty(groups: seq<Group>) {
    forall i :: 0 <= i < |groups| ==> groups[i].items != []
  }

  /** The lines in group order; the first group that cannot be priced stops everything. */
  function AllPriced(groups: seq<Group>, currency: Currency, perHourOn: Day -> Money):
    Result<seq<StatementLine>, GenerateConflict>
    requires NoneEmpty(groups)
  {
    if groups == [] then Ok([])
    else
      var init := AllPriced(groups[..|groups| - 1], currency, perHourOn);
      if init.Err? then init
      else
        var last := Priced(groups[|groups| - 1], currency, perHourOn);
        if last.Err? then Err(last.error) else Ok(init.value + [last.value])
  }

  method PriceLines(groups: seq<Group>, currency: Currency, perHourOn: Day -> Money)
    returns (lines: Result<seq<StatementLine>, GenerateConflict>)
    requires NoneEmpty(groups)
    ensures lines == AllPriced(groups, currency, perHourOn)
  {
    var done: seq<StatementLine> := [];
    for g := 0 to |groups|
      invariant AllPriced(groups[..g], currency, perHourOn) == Ok(done)
    {
      assert groups[..g + 1][..g] == groups[..g];
      var line := Priced(groups[g], currency, perHourOn);
      if line.Err? {
        StopsAt(groups, g + 1, currency, perHourOn, line.error);
        return Err(line.error);
      }
      done := done + [line.value];
    }
    assert groups[..|groups|] == groups;
    return Ok(done);
  }

  lemma {:induction false} StopsAt(groups: seq<Group>, g: nat, currency: Currency, perHourOn: Day -> Money,
                                   e: GenerateConflict)
    requires NoneEmpty(groups) && g <= |groups| && AllPriced(groups[..g], currency, perHourOn) == Err(e)
    ensures AllPriced(groups, currency, perHourOn) == Err(e)
    decreases |groups|
  {
    if g < |groups| {
      assert groups[..|groups| - 1][..g] == groups[..g];
      StopsAt(groups[..|groups| - 1], g, currency, perHourOn, e);
    } else {
      assert groups[..g] == groups;
    }
  }

  lemma {:induction false} LinesFollowGroups(groups: seq<Group>, currency: Currency, perHourOn: Day -> Money)
    requires NoneEmpty(groups) && AllPriced(groups, currency, perHourOn).Ok?
    ensures var lines := AllPriced(groups, currency, perHourOn).value;
            && |lines| == |groups|
            && Hours(lines) == Worked(groups)
            && (forall g :: 0 <= g < |groups| ==> Priced(groups[g], currency, perHourOn) == Ok(lines[g]))
  {
    if groups != [] {
      LinesFollowGroups(groups[..|groups| - 1], currency, perHourOn);
    }
  }

  /** The lines of a statement carry all the work it was generated from, no second of it twice. */
  lemma {:induction false} GenerationKeepsTheHours(work: seq<BillableWork>, currency: Currency, perHourOn: Day -> Money)
    requires NoneEmpty(Grouped(work)) && AllPriced(Grouped(work), currency, perHourOn).Ok?
    ensures TotalWorked(AllPriced(Grouped(work), currency, perHourOn).value) == Seconds(work)
  {
    GroupedPartitions(work);
    LinesFollowGroups(Grouped(work), currency, perHourOn);
  }

  /** Each hourly entry is on a line with its own day's rate, whatever else is on the statement. */
  lemma {:induction false} PricedAtItsOwnDay(work: seq<BillableWork>, currency: Currency, perHourOn: Day -> Money, n: nat)
    requires n < |work| && work[n].pricing == HourlyWork
    requires NoneEmpty(Grouped(work)) && AllPriced(Grouped(work), currency, perHourOn).Ok?
    ensures var g := IndexOf(Grouped(work), KeyOf(work[n]));
            var lines := AllPriced(Grouped(work), currency, perHourOn).value;
            && g < |lines|
            && lines[g].pricing == Hourly(perHourOn(work[n].performedOn))
            && lines[g].performedOn == work[n].performedOn && lines[g].project == work[n].project
  {
    FirstHasItsKey(work, n);
    LinesFollowGroups(Grouped(work), currency, perHourOn);
  }

  lemma {:induction false} FirstHasItsKey(work: seq<BillableWork>, n: nat)
    requires n < |work|
    ensures var groups := Grouped(work);
            var g := IndexOf(groups, KeyOf(work[n]));
            g < |groups| && groups[g].items != [] && KeyOf(groups[g].items[0]) == KeyOf(work[n])
  {
    GroupedPartitions(work);
    ItemsHaveKey(work, KeyOf(work[n]));
  }

  /** The lines of a statement that charge a project's fee. */
  function FeeLines(work: seq<BillableWork>, project: string): set<nat> {
    set g | 0 <= g < |Grouped(work)| && Grouped(work)[g].key == FixedProject(project)
  }

  ghost predicate FeeIs(work: seq<BillableWork>, project: string, fee: int) {
    forall n :: 0 <= n < |work| && KeyOf(work[n]) == FixedProject(project) ==> work[n].feeMinor == Some(fee)
  }

  lemma {:induction false} OneFeeLine(work: seq<BillableWork>, project: string, n: nat)
    requires n < |work| && KeyOf(work[n]) == FixedProject(project)
    ensures FeeLines(work, project) == {IndexOf(Grouped(work), FixedProject(project))}
  {
    GroupedPartitions(work);
    var groups := Grouped(work);
    var home := IndexOf(groups, KeyOf(work[n]));
    forall g | g in FeeLines(work, project) ensures g == home {
      assert groups[g].key == groups[home].key;
    }
  }

  lemma {:induction false} FirstFee(work: seq<BillableWork>, g: nat, project: string, fee: int)
    requires g in FeeLines(work, project) && FeeIs(work, project, fee)
    ensures Grouped(work)[g].items != []
    ensures Grouped(work)[g].items[0].feeMinor == Some(fee) && Grouped(work)[g].items[0].pricing == FixedWork
  {
    GroupedPartitions(work);
    ItemsHaveKey(work, FixedProject(project));
    var first := Grouped(work)[g].items[0];
    assert first in WithKey(work, FixedProject(project));
    var n :| 0 <= n < |work| && work[n] == first;
  }

  /**
    A project's fee is charged once on every statement that has any of its work, in full and whatever
    the hours: so once again on each later statement, should the work run into another period.
   */
  lemma {:induction false} FeeOncePerStatement(work: seq<BillableWork>, currency: Currency,
        perHourOn: Day -> Money, project: string, fee: int, n: nat)
    requires NoneEmpty(Grouped(work)) && AllPriced(Grouped(work), currency, perHourOn).Ok? && FeeIs(work, project, fee)
    requires n < |work| && KeyOf(work[n]) == FixedProject(project)
    ensures var lines, g := AllPriced(Grouped(work), currency, perHourOn).value, IndexOf(Grouped(work), FixedProject(project));
            FeeLines(work, project) == {g} && g < |lines| && lines[g].pricing == Fixed(Money(fee, currency))
  {
    LinesFollowGroups(Grouped(work), currency, perHourOn);
    OneFeeLine(work, project, n);
    var g := IndexOf(Grouped(work), FixedProject(project));
    assert g in FeeLines(work, project);
    FirstFee(work, g, project, fee);
  }

  // ----- The order the rows come in does not matter -----

  lemma {:induction false} SecondsOfConcat(a: seq<BillableWork>, b: seq<BillableWork>)
    ensures Seconds(a + b) == Seconds(a) + Seconds(b)
  {
    if b == [] {
      assert a + b == a;
    } else {
      assert (a + b)[..|a + b| - 1] == a + b[..|b| - 1];
      SecondsOfConcat(a, b[..|b| - 1]);
    }
  }

  lemma {:induction false} WithKeyOfConcat(a: seq<BillableWork>, b: seq<BillableWork>, key: GroupKey)
    ensures WithKey(a + b, key) == WithKey(a, key) + WithKey(b, key)
  {
    if b == [] {
      assert a + b == a;
    } else {
      assert (a + b)[..|a + b| - 1] == a + b[..|b| - 1];
      WithKeyOfConcat(a, b[..|b| - 1], key);
    }
  }

  lemma {:induction false} SecondsIgnoreOrder(a: seq<BillableWork>, b: seq<BillableWork>, key: GroupKey)
    requires multiset(a) == multiset(b)
    ensures Seconds(WithKey(a, key)) == Seconds(WithKey(b, key))
    decreases |a|
  {
    if a == [] {
      assert |multiset(b)| == |b|;
    } else {
      var n := |a| - 1;
      assert a[n] in multiset(a);
      var m :| 0 <= m < |b| && b[m] == a[n];
      BothWithoutOne(a, b, m);
      SecondsIgnoreOrder(a[..n], AllBut(b, m), key);
      TakingOneOut(a, n, key);
      TakingOneOut(b, m, key);
      assert a[..n] + a[n + 1..] == a[..n];
    }
  }

  lemma {:induction false} TakingOneOut(work: seq<BillableWork>, n: nat, key: GroupKey)
    requires n < |work|
    ensures Seconds(WithKey(work, key))
         == Seconds(WithKey(work[..n] + work[n + 1..], key)) + Seconds(WithKey([work[n]], key))
  {
    var before, item, after := work[..n], [work[n]], work[n + 1..];
    assert work == before + item + after;
    WithKeyOfConcat(before + item, after, key);
    WithKeyOfConcat(before, item, key);
    WithKeyOfConcat(before, after, key);
    SecondsOfConcat(WithKey(before, key) + WithKey(item, key), WithKey(after, key));
    SecondsOfConcat(WithKey(before, key), WithKey(item, key));
    SecondsOfConcat(WithKey(before, key), WithKey(after, key));
  }

  /** What a client can check an hourly line by: whose afternoon, how long, and for how much. */
  datatype HourlyCharge = HourlyCharge(key: GroupKey, worked: int, amount: int)

  function ChargeOfGroup(group: Group, perHourOn: Day -> Money): HourlyCharge
    requires group.key.HourlyDay?
  {
    HourlyCharge(group.key, Seconds(group.items), AmountFor(perHourOn(group.key.day).minor, Seconds(group.items)))
  }

  function HourlyCharges(groups: seq<Group>, perHourOn: Day -> Money): set<HourlyCharge> {
    set i | 0 <= i < |groups| && groups[i].key.HourlyDay? :: ChargeOfGroup(groups[i], perHourOn)
  }

  /** Whatever order the rows come in, a group is there under its key, with the same time. */
  lemma {:induction false} GroupInBoth(a: seq<BillableWork>, b: seq<BillableWork>, i: nat) returns (j: nat)
    requires multiset(a) == multiset(b) && i < |Grouped(a)|
    ensures j < |Grouped(b)| && Grouped(b)[j].key == Grouped(a)[i].key
    ensures Seconds(Grouped(b)[j].items) == Seconds(Grouped(a)[i].items)
  {
    GroupedPartitions(a);
    GroupedPartitions(b);
    var key := Grouped(a)[i].key;
    ItemsHaveKey(a, key);
    var first := Grouped(a)[i].items[0];
    assert first in multiset(a);
    var n :| 0 <= n < |b| && b[n] == first;
    j := IndexOf(Grouped(b), KeyOf(b[n]));
    SecondsIgnoreOrder(a, b, key);
  }

  lemma SameCharge(g: Group, h: Group, perHourOn: Day -> Money)
    requires g.key.HourlyDay? && h.key == g.key && Seconds(h.items) == Seconds(g.items)
    ensures ChargeOfGroup(h, perHourOn) == ChargeOfGroup(g, perHourOn)
  {}

  lemma {:induction false} ChargesInBoth(a: seq<BillableWork>, b: seq<BillableWork>, perHourOn: Day -> Money)
    requires multiset(a) == multiset(b)
    ensures HourlyCharges(Grouped(a), perHourOn) <= HourlyCharges(Grouped(b), perHourOn)
  {
    forall charge | charge in HourlyCharges(Grouped(a), perHourOn) ensures charge in HourlyCharges(Grouped(b), perHourOn) {
      var i :| 0 <= i < |Grouped(a)| && Grouped(a)[i].key.HourlyDay? && charge == ChargeOfGroup(Grouped(a)[i], perHourOn);
      var j := GroupInBoth(a, b, i);
      SameCharge(Grouped(a)[i], Grouped(b)[j], perHourOn);
    }
  }

  /** The same rows in another order make as many groups, and the hourly ones of the same hours. */
  lemma {:induction false} GroupsIgnoreOrder(a: seq<BillableWork>, b: seq<BillableWork>, perHourOn: Day -> Money)
    requires multiset(a) == multiset(b)
    ensures HourlyCharges(Grouped(a), perHourOn) == HourlyCharges(Grouped(b), perHourOn)
    ensures |Grouped(a)| == |Grouped(b)|
  {
    ChargesInBoth(a, b, perHourOn);
    ChargesInBoth(b, a, perHourOn);
    KeysOfGroups(a);
    KeysOfGroups(b);
    assert (set item | item in a :: KeyOf(item)) == (set item | item in b :: KeyOf(item)) by {
      assert forall item :: item in a <==> item in multiset(a);
      assert forall item :: item in b <==> item in multiset(b);
    }
  }

  lemma {:induction false} KeysOfGroups(work: seq<BillableWork>)
    ensures |Grouped(work)| == |set item | item in work :: KeyOf(item)|
  {
    GroupedPartitions(work);
    var groups := Grouped(work);
    var keys := set item | item in work :: KeyOf(item);
    DistinctKeys(groups);
    assert KeysOf(groups) == keys by {
      forall key | key in keys ensures key in KeysOf(groups) {
        var item :| item in work && KeyOf(item) == key;
        var n :| 0 <= n < |work| && work[n] == item;
        assert groups[IndexOf(groups, KeyOf(work[n]))].key == key;
      }
      forall key | key in KeysOf(groups) ensures key in keys {
        var i :| 0 <= i < |groups| && groups[i].key == key;
        ItemsHaveKey(work, key);
        assert groups[i].items[0] in work;
      }
    }
  }

  ghost function KeysOf(groups: seq<Group>): set<GroupKey> {
    set i | 0 <= i < |groups| :: groups[i].key
  }

  lemma {:induction false} DistinctKeys(groups: seq<Group>)
    requires forall i, j :: 0 <= i < j < |groups| ==> groups[i].key != groups[j].key
    ensures |KeysOf(groups)| == |groups|
  {
    if groups != [] {
      var k := |groups| - 1;
      DistinctKeys(groups[..k]);
      assert KeysOf(groups) == KeysOf(groups[..k]) + {groups[k].key} by {
        forall i | 0 <= i < k ensures groups[..k][i] == groups[i] {}
        assert forall i :: 0 <= i < k ==> groups[i].key in KeysOf(groups[..k]) by {
          forall i | 0 <= i < k ensures groups[i].key in KeysOf(groups[..k]) { assert groups[..k][i].key == groups[i].key; }
        }
      }
      assert groups[k].key !in KeysOf(groups[..k]);
    }
  }

  /** Of an hourly line everything counts; a fee line has its day and person from whichever row came first. */
  datatype Charge = ByTheHour(line: StatementLine) | ByFee(fee: Money, worked: int)

  function ChargeOf(line: StatementLine): Charge {
    match line.pricing
    case Hourly(_) => ByTheHour(line)
    case Fixed(fee) => ByFee(fee, line.worked)
  }

  function Charges(lines: seq<StatementLine>): seq<Charge> {
    seq(|lines|, i requires 0 <= i < |lines| => ChargeOf(lines[i]))
  }

  /** A project has one service and one subscription, a subscription one fee, and a user an identifier: the reader joins them. */
  predicate FromOneReader(x: BillableWork, y: BillableWork) {
    && (x.project == y.project ==> x.service == y.service && x.clientService == y.clientService)
    && (x.clientService == y.clientService ==> x.feeMinor == y.feeMinor)
    && x.user != Some("") && y.user != Some("")
  }

  lemma PricedAlike(g: Group, h: Group, currency: Currency, perHourOn: Day -> Money)
    requires g.items != [] && h.items != [] && Seconds(g.items) == Seconds(h.items)
    requires KeyOf(g.items[0]) == KeyOf(h.items[0]) && FromOneReader(g.items[0], h.items[0])
    ensures Priced(g, currency, perHourOn).Ok? <==> Priced(h, currency, perHourOn).Ok?
    ensures Priced(g, currency, perHourOn).Ok? ==>
      ChargeOf(Priced(g, currency, perHourOn).value) == ChargeOf(Priced(h, currency, perHourOn).value)
  {}

  lemma {:induction false} AllPricedIff(groups: seq<Group>, currency: Currency, perHourOn: Day -> Money)
    requires NoneEmpty(groups)
    ensures AllPriced(groups, currency, perHourOn).Ok? <==>
      forall g :: 0 <= g < |groups| ==> Priced(groups[g], currency, perHourOn).Ok?
  {
    if groups != [] {
      AllPricedIff(groups[..|groups| - 1], currency, perHourOn);
    }
  }

  /** The same key and time, and first rows of the same reader. */
  ghost predicate Alike(g: Group, h: Group) {
    && g.items != [] && h.items != [] && Seconds(g.items) == Seconds(h.items)
    && KeyOf(g.items[0]) == g.key == h.key == KeyOf(h.items[0]) && FromOneReader(g.items[0], h.items[0])
  }

  /** Each key once on either side, and the same group under it. */
  ghost predicate Match(groups: seq<Group>, others: seq<Group>) {
    && |groups| == |others| && OnePerKey(groups) && OnePerKey(others)
    && (forall i :: 0 <= i < |groups| ==> exists j :: 0 <= j < |others| && Alike(groups[i], others[j]))
  }

  lemma {:induction false} AlikeInBoth(a: seq<BillableWork>, b: seq<BillableWork>, i: nat) returns (j: nat)
    requires multiset(a) == multiset(b) && forall x, y :: x in a && y in a ==> FromOneReader(x, y)
    requires i < |Grouped(a)|
    ensures j < |Grouped(b)| && Alike(Grouped(a)[i], Grouped(b)[j])
  {
    j := GroupInBoth(a, b, i);
    GroupedPartitions(a);
    GroupedPartitions(b);
    ItemsHaveKey(a, Grouped(a)[i].key);
    ItemsHaveKey(b, Grouped(a)[i].key);
    assert Grouped(b)[j].items[0] in multiset(b);
  }

  lemma {:induction false} GroupsMatch(a: seq<BillableWork>, b: seq<BillableWork>)
    requires multiset(a) == multiset(b) && forall x, y :: x in a && y in a ==> FromOneReader(x, y)
    ensures Match(Grouped(a), Grouped(b))
  {
    GroupsIgnoreOrder(a, b, day => Money(0, AED));
    GroupedPartitions(a);
    GroupedPartitions(b);
    forall i | 0 <= i < |Grouped(a)| ensures exists j :: 0 <= j < |Grouped(b)| && Alike(Grouped(a)[i], Grouped(b)[j]) {
      var j := AlikeInBoth(a, b, i);
    }
  }

  lemma {:induction false} PricedInBoth(groups: seq<Group>, others: seq<Group>, currency: Currency, perHourOn: Day -> Money)
    requires Match(groups, others) && NoneEmpty(groups) && NoneEmpty(others)
    requires AllPriced(others, currency, perHourOn).Ok?
    ensures AllPriced(groups, currency, perHourOn).Ok?
  {
    AllPricedIff(groups, currency, perHourOn);
    AllPricedIff(others, currency, perHourOn);
    forall i | 0 <= i < |groups| ensures Priced(groups[i], currency, perHourOn).Ok? {
      var j :| 0 <= j < |others| && Alike(groups[i], others[j]);
      PricedAlike(groups[i], others[j], currency, perHourOn);
    }
  }

  /** Where each value of one side stands on the other, no two in one place. */
  ghost predicate Places<T>(va: seq<T>, vb: seq<T>, at: seq<nat>) {
    && |at| == |va| == |vb|
    && (forall i :: 0 <= i < |at| ==> at[i] < |vb| && vb[at[i]] == va[i])
    && (forall i, j :: 0 <= i < j < |at| ==> at[i] != at[j])
  }

  lemma {:induction false} SamePlaced<T>(va: seq<T>, vb: seq<T>, at: seq<nat>)
    requires Places(va, vb, at)
    ensures multiset(va) == multiset(vb)
    decreases |va|
  {
    if va != [] {
      var n := |va| - 1;
      var m := at[n];
      AllButIs(va, n);
      AllButIs(vb, m);
      var rest := seq(n, i requires 0 <= i < n => if at[i] < m then at[i] else at[i] - 1);
      assert forall i :: 0 <= i < n ==> at[i] != m;
      SamePlaced(AllBut(va, n), AllBut(vb, m), rest);
    }
  }

  /** Where each group stands among the others. */
  function Homes(groups: seq<Group>, others: seq<Group>): (at: seq<nat>)
    ensures |at| == |groups|
  {
    seq(|groups|, i requires 0 <= i < |groups| => IndexOf(others, groups[i].key))
  }

  lemma {:induction false} HomesAreTheirs(groups: seq<Group>, others: seq<Group>)
    requires Match(groups, others)
    ensures var at := Homes(groups, others);
            && (forall i :: 0 <= i < |groups| ==> at[i] < |others| && Alike(groups[i], others[at[i]]))
            && (forall i, j :: 0 <= i < j < |at| ==> at[i] != at[j])
  {
    var at := Homes(groups, others);
    forall i | 0 <= i < |groups| ensures at[i] < |others| && Alike(groups[i], others[at[i]]) {
      var j :| 0 <= j < |others| && Alike(groups[i], others[j]);
      IndexOfIs(others, j);
    }
    forall i, j | 0 <= i < j < |at| ensures at[i] != at[j] {
      assert groups[i].key != groups[j].key;
    }
  }

  /**
    Reading the same rows in another order: pricing goes through for both or for neither, and the two
    statements charge the same, the hourly lines being the very same lines.
   */
  lemma {:induction false} OrderDoesNotMatter(a: seq<BillableWork>, b: seq<BillableWork>, currency: Currency, perHourOn: Day -> Money)
    requires multiset(a) == multiset(b) && NoneEmpty(Grouped(a)) && NoneEmpty(Grouped(b))
    requires forall x, y :: x in a && y in a ==> FromOneReader(x, y)
    ensures AllPriced(Grouped(a), currency, perHourOn).Ok? <==> AllPriced(Grouped(b), currency, perHourOn).Ok?
    ensures AllPriced(Grouped(a), currency, perHourOn).Ok? ==>
      var lines, others := AllPriced(Grouped(a), currency, perHourOn).value, AllPriced(Grouped(b), currency, perHourOn).value;
      multiset(Charges(lines)) == multiset(Charges(others)) && Total(lines) == Total(others)
  {
    forall x | x in b ensures x in a { assert x in multiset(b); }
    GroupsMatch(a, b);
    GroupsMatch(b, a);
    if AllPriced(Grouped(a), currency, perHourOn).Ok? {
      PricedInBoth(Grouped(b), Grouped(a), currency, perHourOn);
    }
    if AllPriced(Grouped(b), currency, perHourOn).Ok? {
      PricedInBoth(Grouped(a), Grouped(b), currency, perHourOn);
      SameCharges(Grouped(a), Grouped(b), currency, perHourOn);
    }
  }

  lemma {:induction false} SameCharges(groups: seq<Group>, others: seq<Group>, currency: Currency, perHourOn: Day -> Money)
    requires Match(groups, others) && NoneEmpty(groups) && NoneEmpty(others)
    requires AllPriced(groups, currency, perHourOn).Ok? && AllPriced(others, currency, perHourOn).Ok?
    ensures var lines, theirs := AllPriced(groups, currency, perHourOn).value, AllPriced(others, currency, perHourOn).value;
            multiset(Charges(lines)) == multiset(Charges(theirs)) && Total(lines) == Total(theirs)
  {
    var lines, theirs := AllPriced(groups, currency, perHourOn).value, AllPriced(others, currency, perHourOn).value;
    var at := Homes(groups, others);
    LinesFollowGroups(groups, currency, perHourOn);
    LinesFollowGroups(others, currency, perHourOn);
    HomesAreTheirs(groups, others);
    FreshAmounts(groups, currency, perHourOn);
    FreshAmounts(others, currency, perHourOn);
    forall i | 0 <= i < |lines|
      ensures Charges(lines)[i] == Charges(theirs)[at[i]] && Amounts(lines)[i] == Amounts(theirs)[at[i]]
    {
      PricedAlike(groups[i], others[at[i]], currency, perHourOn);
    }
    SamePlaced(Charges(lines), Charges(theirs), at);
    SamePlaced(Amounts(lines), Amounts(theirs), at);
    SumIgnoresOrder(Amounts(lines), Amounts(theirs));
  }

  function AmountOfCharge(charge: Charge): int {
    match charge
    case ByTheHour(line) => LineAmount(line)
    case ByFee(fee, _) => fee.minor
  }

  /** A line just priced is charged as worked. */
  lemma {:induction false} FreshAmounts(groups: seq<Group>, currency: Currency, perHourOn: Day -> Money)
    requires NoneEmpty(groups) && AllPriced(groups, currency, perHourOn).Ok?
    ensures var lines := AllPriced(groups, currency, perHourOn).value;
            forall i :: 0 <= i < |lines| ==> LineAmount(lines[i]) == AmountOfCharge(ChargeOf(lines[i]))
  {
    LinesFollowGroups(groups, currency, perHourOn);
    var lines := AllPriced(groups, currency, perHourOn).value;
    forall i | 0 <= i < |lines| ensures LineAmount(lines[i]) == AmountOfCharge(ChargeOf(lines[i])) {
      assert Priced(groups[i], currency, perHourOn) == Ok(lines[i]);
    }
  }
}
