/**
  Which work stands on one line of a generated statement and what the line charges, said of the entries and the
  lines and not of the keys they are grouped by.
 */
module LinesOfWork {
  import opened Wrappers
  import opened Rounding
  import opened Money
  import opened Statement
  import opened GenerateStatement
  import opened BillingPipeline
  import opened AttachedHours
  import R = BillingRuns

  /** No user and an empty identifier read alike. */
  predicate SamePerson(a: Option<string>, b: Option<string>) {
    a == b || (a in {None, Some("")} && b in {None, Some("")})
  }

  predicate SameMonth(a: Day, b: Day) {
    a.year == b.year && a.month == b.month
  }

  /** Retainer work of one subscription and month, fixed work of one project, or hourly work of one project, day and person. */
  predicate Together(x: BillableWork, y: BillableWork) {
    || (x.pricing == RetainerWork && y.pricing == RetainerWork && x.clientService == y.clientService
        && SameMonth(x.performedOn, y.performedOn))
    || (x.pricing == FixedWork && y.pricing == FixedWork && x.project == y.project)
    || (x.pricing == HourlyWork && y.pricing == HourlyWork && x.project == y.project && x.performedOn == y.performedOn
        && SamePerson(x.user, y.user))
  }

  lemma SameKeyIff(x: BillableWork, y: BillableWork)
    ensures KeyOf(x) == KeyOf(y) <==> Together(x, y)
  {}

  // ----- A statement just generated -----

  datatype Asked = Asked(
    client: string, from: Day, to: Day, work: seq<BillableWork>, currency: Currency, perHourOn: Day -> Money,
    createdBy: string, now: Instant)

  ghost predicate Generates(w: World, a: Asked, after: World) {
    && IsListing(w.entries, a.client, a.from, a.to, a.work)
    && AfterGenerate(w, a.client, a.from, a.to, a.work, a.currency, a.perHourOn, a.createdBy, a.now) == Ok(after)
  }

  /** The line an entry of the listing stands on. */
  function LineOn(after: World, item: BillableWork): Option<LineRef>
    requires item.entryId < |after.entries|
  {
    after.entries[item.entryId].line
  }

  lemma {:induction false} StandsOnItsGroup(w: World, a: Asked, after: World, n: nat)
    requires Generates(w, a, after) && n < |a.work|
    ensures a.work[n].entryId < |after.entries|
    ensures LineOn(after, a.work[n]) == Some(LineRef(|w.statements|, IndexOf(Grouped(a.work), KeyOf(a.work[n]))))
    ensures IndexOf(Grouped(a.work), KeyOf(a.work[n])) < |Grouped(a.work)|
  {
    var groups := Grouped(a.work);
    var g := IndexOf(groups, KeyOf(a.work[n]));
    R.ListingIsListed(w.entries, a.client, a.from, a.to, a.work);
    GroupedIsListed(w.entries, a.work);
    EachEntryInOneGroup(a.work, n);
    AttachedEntry(w.entries, |w.statements|, groups, a.work[n].entryId);
    var i :| 0 <= i < |groups[g].items| && groups[g].items[i] == a.work[n];
    assert a.work[n].entryId in IdsOf(groups[g].items);
  }

  /** Two entries of the listing stand on one line exactly if they belong together, and every one stands on some line. */
  lemma {:induction false} OnOneLineIff(w: World, a: Asked, after: World, m: nat, n: nat)
    requires Generates(w, a, after) && m < |a.work| && n < |a.work|
    ensures a.work[m].entryId < |after.entries| && a.work[n].entryId < |after.entries|
    ensures LineOn(after, a.work[m]).Some? && LineOn(after, a.work[m]).value.statement == |w.statements|
    ensures LineOn(after, a.work[m]) == LineOn(after, a.work[n]) <==> Together(a.work[m], a.work[n])
  {
    StandsOnItsGroup(w, a, after, m);
    StandsOnItsGroup(w, a, after, n);
    SameKeyIff(a.work[m], a.work[n]);
    assert Grouped(a.work)[IndexOf(Grouped(a.work), KeyOf(a.work[m]))].key == KeyOf(a.work[m]);
    assert Grouped(a.work)[IndexOf(Grouped(a.work), KeyOf(a.work[n]))].key == KeyOf(a.work[n]);
  }

  ghost predicate FeeAgreed(work: seq<BillableWork>, item: BillableWork, fee: int) {
    forall m :: 0 <= m < |work| && Together(work[m], item) ==> work[m].feeMinor == Some(fee)
  }

  lemma {:induction false} PricedFromFirst(w: World, a: Asked, after: World, n: nat)
    requires Generates(w, a, after) && n < |a.work|
    ensures |after.statements| == |w.statements| + 1
    ensures var lines, g := after.statements[|w.statements|].lines, IndexOf(Grouped(a.work), KeyOf(a.work[n]));
            && g < |lines| && g < |Grouped(a.work)| && Grouped(a.work)[g].items != []
            && Priced(Grouped(a.work)[g], a.currency, a.perHourOn) == Ok(lines[g])
            && var first := Grouped(a.work)[g].items[0]; first in a.work && Together(first, a.work[n])
  {
    var g := IndexOf(Grouped(a.work), KeyOf(a.work[n]));
    GroupedPartitions(a.work);
    LinesFollowGroups(Grouped(a.work), a.currency, a.perHourOn);
    EachEntryInOneGroup(a.work, n);
    ItemsHaveKey(a.work, KeyOf(a.work[n]));
    var first := Grouped(a.work)[g].items[0];
    SameKeyIff(first, a.work[n]);
  }

  /**
    What an entry's line charges: the rate of its own day, or the fee agreed for the work it belongs with, whatever
    the time; and whose work it names.
   */
  lemma {:induction false} LineCharges(w: World, a: Asked, after: World, n: nat, fee: int)
    requires Generates(w, a, after) && n < |a.work|
    requires a.work[n].pricing != HourlyWork ==> FeeAgreed(a.work, a.work[n], fee)
    ensures a.work[n].entryId < |after.entries| && LineOn(after, a.work[n]).Some? && |after.statements| == |w.statements| + 1
    ensures var lines, l, item := after.statements[|w.statements|].lines, LineOn(after, a.work[n]).value.line, a.work[n];
            && l < |lines| && !lines[l].excluded && lines[l].adjustedTo.None?
            && lines[l].pricing == (if item.pricing == HourlyWork then Hourly(a.perHourOn(item.performedOn)) else Fixed(Money(fee, a.currency)))
            && LineAmount(lines[l]) == (if item.pricing == HourlyWork then AmountFor(a.perHourOn(item.performedOn).minor, lines[l].worked) else fee)
            && (item.pricing == HourlyWork ==> lines[l].project == item.project && lines[l].performedOn == item.performedOn
                                               && SamePerson(lines[l].user, item.user))
            && (item.pricing == FixedWork ==> lines[l].project == item.project)
            && (item.pricing == RetainerWork ==> SameMonth(lines[l].performedOn, item.performedOn))
  {
    StandsOnItsGroup(w, a, after, n);
    PricedFromFirst(w, a, after, n);
    var first := Grouped(a.work)[IndexOf(Grouped(a.work), KeyOf(a.work[n]))].items[0];
    var m :| 0 <= m < |a.work| && a.work[m] == first;
  }

  // ----- The first row of a line -----

  /** No earlier row stands with it. */
  ghost predicate OpensLine(work: seq<BillableWork>, n: nat) {
    n < |work| && forall k :: 0 <= k < n ==> !Together(work[k], work[n])
  }

  lemma {:induction false} FirstWithKey(work: seq<BillableWork>, n: nat)
    requires OpensLine(work, n)
    ensures WithKey(work, KeyOf(work[n])) != [] && WithKey(work, KeyOf(work[n]))[0] == work[n]
  {
    var key := KeyOf(work[n]);
    if n == |work| - 1 {
      forall k | 0 <= k < n ensures KeyOf(work[..n][k]) != key { SameKeyIff(work[k], work[n]); }
      NoneHasKey(work[..n], key);
    } else {
      var init := work[..|work| - 1];
      forall k | 0 <= k < n ensures !Together(init[k], init[n]) {}
      FirstWithKey(init, n);
    }
  }

  lemma {:induction false} NoneHasKey(work: seq<BillableWork>, key: GroupKey)
    requires forall k :: 0 <= k < |work| ==> KeyOf(work[k]) != key
    ensures WithKey(work, key) == []
  {
    if work != [] { NoneHasKey(work[..|work| - 1], key); }
  }

  /** A line has its project, service, day and person from the first row that stands on it. */
  lemma {:induction false} FirstRowNames(w: World, a: Asked, after: World, n: nat)
    requires Generates(w, a, after) && OpensLine(a.work, n)
    ensures a.work[n].entryId < |after.entries| && LineOn(after, a.work[n]).Some? && |after.statements| == |w.statements| + 1
    ensures var lines, l, item := after.statements[|w.statements|].lines, LineOn(after, a.work[n]).value.line, a.work[n];
            && l < |lines| && lines[l].project == item.project && lines[l].service == item.service
            && lines[l].performedOn == item.performedOn && lines[l].user == item.user
            && !lines[l].excluded && lines[l].excludedReason.None? && lines[l].adjustedTo.None? && lines[l].adjustedReason.None?
  {
    StandsOnItsGroup(w, a, after, n);
    PricedFromFirst(w, a, after, n);
    FirstWithKey(a.work, n);
    GroupedPartitions(a.work);
  }

  lemma {:induction false} GroupsInOrder(work: seq<BillableWork>, m: nat, n: nat)
    requires OpensLine(work, m) && OpensLine(work, n) && m < n
    ensures IndexOf(Grouped(work), KeyOf(work[m])) < IndexOf(Grouped(work), KeyOf(work[n])) < |Grouped(work)|
  {
    var init := work[..|work| - 1];
    forall k | 0 <= k < m ensures !Together(init[k], init[m]) {}
    if n == |work| - 1 {
      LastOpensGroup(work, m);
    } else {
      forall k | 0 <= k < n ensures !Together(init[k], init[n]) {}
      GroupsInOrder(init, m, n);
      var groups, last := Grouped(init), work[|work| - 1];
      GroupedPartitions(init);
      IndexStays(groups, last, KeyOf(work[m]));
      IndexStays(groups, last, KeyOf(work[n]));
    }
  }

  lemma {:induction false} LastOpensGroup(work: seq<BillableWork>, m: nat)
    requires m < |work| - 1 && OpensLine(work, |work| - 1)
    ensures IndexOf(Grouped(work), KeyOf(work[m])) < IndexOf(Grouped(work), KeyOf(work[|work| - 1])) < |Grouped(work)|
  {
    var init, last := work[..|work| - 1], work[|work| - 1];
    var groups := Grouped(init);
    GroupedPartitions(init);
    EachEntryInOneGroup(init, m);
    forall k | 0 <= k < |init| ensures KeyOf(init[k]) != KeyOf(last) { SameKeyIff(work[k], last); }
    NotThere(groups, init, KeyOf(last));
    IndexStays(groups, last, KeyOf(work[m]));
    IndexOfLast(groups, last);
  }

  lemma {:induction false} NotThere(groups: seq<Group>, work: seq<BillableWork>, key: GroupKey)
    requires Partition(groups, work) && forall k :: 0 <= k < |work| ==> KeyOf(work[k]) != key
    ensures IndexOf(groups, key) == |groups|
  {
    NoneHasKey(work, key);
    forall j | 0 <= j < |groups| ensures groups[j].key != key {
      assert groups[j].items == WithKey(work, groups[j].key) && groups[j].items != [];
    }
  }

  lemma {:induction false} IndexStays(groups: seq<Group>, item: BillableWork, key: GroupKey)
    requires OnePerKey(groups) && IndexOf(groups, key) < |groups|
    ensures IndexOf(AddTo(groups, item), key) == IndexOf(groups, key)
  {
    var i, after := IndexOf(groups, key), AddTo(groups, item);
    assert after[i].key == key;
    assert forall j :: 0 <= j < i ==> after[j].key != key;
    var _ := IndexOf(after, key);
  }

  lemma {:induction false} IndexOfLast(groups: seq<Group>, item: BillableWork)
    requires IndexOf(groups, KeyOf(item)) == |groups|
    ensures IndexOf(AddTo(groups, item), KeyOf(item)) == |groups| && |AddTo(groups, item)| == |groups| + 1
  {
    var after := AddTo(groups, item);
    assert after[|groups|].key == KeyOf(item);
    assert forall j :: 0 <= j < |groups| ==> after[j].key != KeyOf(item);
    var _ := IndexOf(after, KeyOf(item));
  }

  /** Lines stand in the order in which their first rows were listed. */
  lemma {:induction false} LinesInOrder(w: World, a: Asked, after: World, m: nat, n: nat)
    requires Generates(w, a, after) && OpensLine(a.work, m) && OpensLine(a.work, n) && m < n
    ensures a.work[m].entryId < |after.entries| && a.work[n].entryId < |after.entries|
    ensures LineOn(after, a.work[m]).Some? && LineOn(after, a.work[n]).Some?
    ensures LineOn(after, a.work[m]).value.line < LineOn(after, a.work[n]).value.line
  {
    StandsOnItsGroup(w, a, after, m);
    StandsOnItsGroup(w, a, after, n);
    GroupsInOrder(a.work, m, n);
  }

  // ----- A retainer, month by month -----

  /** The retainer work of one subscription, in the order it was listed. */
  function RetainedFor(work: seq<BillableWork>, clientService: string): (items: seq<BillableWork>)
    ensures forall i :: 0 <= i < |items| ==>
      items[i] in work && items[i].pricing == RetainerWork && items[i].clientService == clientService
    ensures forall item :: item in work && item.pricing == RetainerWork && item.clientService == clientService ==> item in items
  {
    if work == [] then []
    else
      var init, last := RetainedFor(work[..|work| - 1], clientService), work[|work| - 1];
      assert work == work[..|work| - 1] + [last];
      if last.pricing == RetainerWork && last.clientService == clientService then init + [last] else init
  }

  function Months(items: seq<BillableWork>): seq<(int, int)> {
    seq(|items|, i requires 0 <= i < |items| => (items[i].performedOn.year, items[i].performedOn.month))
  }

  function LinesUnder(after: World, items: seq<BillableWork>): seq<Option<LineRef>>
    requires forall i :: 0 <= i < |items| ==> items[i].entryId < |after.entries|
  {
    seq(|items|, i requires 0 <= i < |items| => LineOn(after, items[i]))
  }

  ghost function Values<T>(s: seq<T>): set<T> {
    set i | 0 <= i < |s| :: s[i]
  }

  lemma {:induction false} AsManyValues<A, B>(a: seq<A>, b: seq<B>)
    requires |a| == |b| && forall i, j :: 0 <= i < |a| && 0 <= j < |a| ==> (a[i] == a[j] <==> b[i] == b[j])
    ensures |Values(a)| == |Values(b)|
  {
    if a != [] {
      var k := |a| - 1;
      AsManyValues(a[..k], b[..k]);
      OneMoreValue(a);
      OneMoreValue(b);
      assert a[k] in Values(a[..k]) <==> b[k] in Values(b[..k]) by {
        if a[k] in Values(a[..k]) {
          var i :| 0 <= i < k && a[..k][i] == a[k];
          assert b[..k][i] == b[k];
        }
        if b[k] in Values(b[..k]) {
          var i :| 0 <= i < k && b[..k][i] == b[k];
          assert a[..k][i] == a[k];
        }
      }
    }
  }

  lemma {:induction false} OneMoreValue<T>(s: seq<T>)
    requires s != []
    ensures Values(s) == Values(s[..|s| - 1]) + {s[|s| - 1]}
  {
    var init := s[..|s| - 1];
    forall x ensures x in Values(s) <==> x in Values(init) + {s[|s| - 1]} {
      if x in Values(init) {
        var i :| 0 <= i < |init| && init[i] == x;
        assert s[i] == x;
      }
      if x in Values(s) {
        var i :| 0 <= i < |s| && s[i] == x;
        assert i < |init| ==> init[i] == x;
      }
    }
  }

  lemma {:induction false} RetainerLineIff(w: World, a: Asked, after: World, x: BillableWork, y: BillableWork)
    requires Generates(w, a, after) && x in a.work && y in a.work
    requires x.pricing == RetainerWork && y.pricing == RetainerWork && x.clientService == y.clientService
    ensures x.entryId < |after.entries| && y.entryId < |after.entries|
    ensures LineOn(after, x) == LineOn(after, y) <==> SameMonth(x.performedOn, y.performedOn)
  {
    var m :| 0 <= m < |a.work| && a.work[m] == x;
    var n :| 0 <= n < |a.work| && a.work[n] == y;
    OnOneLineIff(w, a, after, m, n);
  }

  ghost predicate RetainerAgreed(work: seq<BillableWork>, clientService: string, fee: int) {
    forall n :: 0 <= n < |work| && work[n].pricing == RetainerWork && work[n].clientService == clientService ==>
      work[n].feeMinor == Some(fee)
  }

  ghost predicate ChargesFee(w: World, after: World, item: BillableWork, fee: int) {
    && item.entryId < |after.entries| && |after.statements| == |w.statements| + 1
    && var lines := after.statements[|w.statements|].lines;
       LineOn(after, item).Some? && LineOn(after, item).value.line < |lines| && LineAmount(lines[LineOn(after, item).value.line]) == fee
  }

  lemma {:induction false} RetainerLineCharges(w: World, a: Asked, after: World, clientService: string, fee: int, item: BillableWork)
    requires Generates(w, a, after) && RetainerAgreed(a.work, clientService, fee)
    requires item in a.work && item.pricing == RetainerWork && item.clientService == clientService
    ensures ChargesFee(w, after, item, fee)
  {
    var n :| 0 <= n < |a.work| && a.work[n] == item;
    LineCharges(w, a, after, n, fee);
  }

  /** Where two stand on one line exactly if they fall in one month, there are as many lines as months. */
  lemma {:induction false} OneLinePerMonth(after: World, items: seq<BillableWork>)
    requires forall i :: 0 <= i < |items| ==> items[i].entryId < |after.entries|
    requires forall i, j :: 0 <= i < |items| && 0 <= j < |items| ==>
      (LineOn(after, items[i]) == LineOn(after, items[j]) <==> SameMonth(items[i].performedOn, items[j].performedOn))
    ensures |Values(LinesUnder(after, items))| == |Values(Months(items))|
  {
    AsManyValues(LinesUnder(after, items), Months(items));
  }

  /**
    A subscription's retainer has as many lines as there are months with work for it, and each of them charges the
    whole fee: once a month, however much or little was worked and on however many projects.
   */
  lemma {:induction false} RetainerFeePerMonth(w: World, a: Asked, after: World, clientService: string, fee: int)
    requires Generates(w, a, after) && RetainerAgreed(a.work, clientService, fee)
    ensures var items := RetainedFor(a.work, clientService);
            && (forall i :: 0 <= i < |items| ==> ChargesFee(w, after, items[i], fee))
            && |Values(LinesUnder(after, items))| == |Values(Months(items))|
  {
    var items := RetainedFor(a.work, clientService);
    forall i | 0 <= i < |items| ensures ChargesFee(w, after, items[i], fee) {
      RetainerLineCharges(w, a, after, clientService, fee, items[i]);
    }
    forall i, j | 0 <= i < |items| && 0 <= j < |items|
      ensures LineOn(after, items[i]) == LineOn(after, items[j]) <==> SameMonth(items[i].performedOn, items[j].performedOn)
    {
      RetainerLineIff(w, a, after, items[i], items[j]);
    }
    OneLinePerMonth(after, items);
  }

  /** Whose statement it is, for which days, in which currency, and who made it when. */
  lemma DraftIsFor(w: World, a: Asked, after: World)
    requires Generates(w, a, after)
    ensures |after.statements| == |w.statements| + 1 && after.statements[..|w.statements|] == w.statements
    ensures after.invoices == w.invoices && after.nextNumber == w.nextNumber
    ensures var s := after.statements[|w.statements|];
            && s.client == a.client && s.periodStart == a.from && s.periodEnd == a.to && s.currency == a.currency
            && s.state == StatementState.Draft && s.createdBy == a.createdBy && s.createdAt == a.now
            && s.approvedAt.None? && s.approvedBy.None?
  {}
}
