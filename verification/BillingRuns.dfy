/**
  What every run of the billing use cases keeps. Each step is one unit of work. Time belongs to another
  module: so a step may also record any entry, or make anything at all of one that no statement has.
 */
module BillingRuns {
  import opened Wrappers
  import opened Rounding
  import opened Money
  import opened Text
  import opened Statement
  import opened GenerateStatement
  import opened BillingPipeline
  import opened AttachedHours
  import I = Invoice

  datatype Step =
    | Record(entry: TimeEntry)
    | Edit(id: EntryId, entry: TimeEntry)
    | Generate(client: string, from: Day, to: Day, work: seq<BillableWork>, currency: Currency,
               perHourOn: Day -> Money, createdBy: string, at: Instant)
    | Revise(statement: StatementId, revision: Revision)
    | Raise(request: RaiseRequest)
    | Release(statement: StatementId, reason: string, mayUnlink: bool)

  /** A project has a name, and a fee is not negative: the database checks both. */
  predicate SoundEntry(e: TimeEntry) {
    !I.Blank(e.project) && (e.feeMinor.Some? ==> e.feeMinor.value >= 0)
  }

  /** An entry may be edited while no statement has it; and the ranges the configuration and the rate type allow. */
  ghost predicate Enabled(w: World, step: Step) {
    match step
    case Record(entry) => entry.line.None? && SoundEntry(entry)
    case Edit(id, entry) => id < |w.entries| && w.entries[id].line.None? && entry.line.None? && SoundEntry(entry)
    case Generate(client, from, to, work, _, perHourOn, _, _) =>
      && IsListing(w.entries, client, from, to, work)
      && (forall day :: perHourOn(day).minor >= 0)
    case Raise(request) =>
      0 <= request.settings.vatBasisPoints <= BASIS_POINTS && request.settings.paymentTermsDays >= 0
    case _ => true
  }

  function Next(w: World, step: Step): World {
    match step
    case Record(entry) => w.(entries := w.entries + [entry])
    case Edit(id, entry) => w.(entries := if id < |w.entries| then w.entries[id := entry] else w.entries)
    case Generate(client, from, to, work, currency, perHourOn, createdBy, at) =>
      (match AfterGenerate(w, client, from, to, work, currency, perHourOn, createdBy, at)
       case Ok(after) => after
       case Err(_) => w)
    case Revise(statement, revision) => AfterRevision(w, statement, revision)
    case Raise(request) => AfterRaise(w, request).0
    case Release(statement, reason, mayUnlink) => AfterRelease(w, statement, reason, mayUnlink).0
  }

  // ----- The invariant, one part per concern -----

  ghost predicate EntriesSound(w: World) {
    forall e :: 0 <= e < |w.entries| ==>
      && SoundEntry(w.entries[e])
      && (w.entries[e].line.Some? ==>
            var ref := w.entries[e].line.value;
            && w.entries[e].Chargeable()
            && ref.statement < |w.statements| && ref.line < |w.statements[ref.statement].lines|
            && w.statements[ref.statement].state != Cancelled)
  }

  ghost predicate StatementSound(s: Snapshot) {
    && SoundLines(s.lines, s.currency)
    && (forall l :: 0 <= l < |s.lines| ==> !I.Blank(s.lines[l].project))
    && (s.state in {Approved, Invoiced} ==> Total(s.lines) > 0)
  }

  ghost predicate StatementsSound(w: World) {
    forall s :: 0 <= s < |w.statements| ==> StatementSound(w.statements[s])
  }

  /** Every line of a statement that was not cancelled stands for exactly the time attached to it. */
  ghost predicate HoursSound(w: World) {
    forall s, l :: 0 <= s < |w.statements| && w.statements[s].state != Cancelled && 0 <= l < |w.statements[s].lines| ==>
      w.statements[s].lines[l].worked == SecondsAt(w.entries, Some(LineRef(s, l)))
  }

  ghost predicate InvoicesSound(w: World) {
    && (forall k :: 0 <= k < |w.invoices| ==>
          var s := w.invoices[k].statement;
          && s < |w.statements| && w.statements[s].state == Invoiced
          && I.Net(w.invoices[k]) == Total(w.statements[s].lines))
    && (forall k, m :: 0 <= k < m < |w.invoices| ==> w.invoices[k].statement != w.invoices[m].statement)
    && (forall s :: 0 <= s < |w.statements| && w.statements[s].state == Invoiced ==> InvoicedBy(w, s))
  }

  ghost predicate InvoicedBy(w: World, s: StatementId) {
    exists k :: 0 <= k < |w.invoices| && w.invoices[k].statement == s
  }

  /** The firm's own sequence, carried on: the k-th invoice has the k-th number, and no number is missing. */
  ghost predicate NumbersSound(w: World, first: nat) {
    && w.nextNumber == first + |w.invoices|
    && (forall k :: 0 <= k < |w.invoices| ==> w.invoices[k].number == PrintNat(first + k))
  }

  /** Hours standing on statements that were not cancelled. */
  function BilledHours(statements: seq<Snapshot>): seq<int> {
    seq(|statements|, s requires 0 <= s < |statements| =>
      if statements[s].state == Cancelled then 0 else TotalWorked(statements[s].lines))
  }

  ghost predicate HoursConserved(w: World) {
    Sum(BilledHours(w.statements)) + SecondsAt(w.entries, None) == ChargeableSeconds(w.entries)
  }

  ghost predicate Sound(w: World, first: nat) {
    && EntriesSound(w) && StatementsSound(w) && HoursSound(w)
    && InvoicesSound(w) && NumbersSound(w, first) && HoursConserved(w)
  }

  // ----- Recording time -----

  lemma RecordKeepsHours(w: World, entry: TimeEntry, after: World)
    requires HoursSound(w) && HoursConserved(w) && entry.line.None? && after == w.(entries := w.entries + [entry])
    ensures HoursSound(after) && HoursConserved(after)
  {
    forall s, l | 0 <= s < |w.statements| && w.statements[s].state != Cancelled && 0 <= l < |w.statements[s].lines|
      ensures after.statements[s].lines[l].worked == SecondsAt(after.entries, Some(LineRef(s, l)))
    {
      OneMoreEntry(w.entries, entry, Some(LineRef(s, l)));
    }
    OneMoreEntry(w.entries, entry, None);
  }

  lemma SameInvoices(w: World, after: World)
    requires InvoicesSound(w) && after == w.(entries := after.entries)
    ensures InvoicesSound(after)
  {
    forall s | 0 <= s < |after.statements| && after.statements[s].state == Invoiced ensures InvoicedBy(after, s) {
      assert InvoicedBy(w, s);
    }
  }

  lemma RecordKeeps(w: World, entry: TimeEntry, first: nat)
    requires Sound(w, first) && entry.line.None? && SoundEntry(entry)
    ensures Sound(w.(entries := w.entries + [entry]), first)
  {
    var after := w.(entries := w.entries + [entry]);
    RecordKeepsHours(w, entry, after);
    SameInvoices(w, after);
  }

  lemma OneMoreEntry(entries: seq<TimeEntry>, entry: TimeEntry, at: Option<LineRef>)
    ensures SecondsAt(entries + [entry], at) == SecondsAt(entries, at) + WeightAt(entry, at)
    ensures ChargeableSeconds(entries + [entry]) == ChargeableSeconds(entries) + ChargeableIn(entry)
  {
    var all := entries + [entry];
    assert WeightsAt(all, at)[..|entries|] == WeightsAt(entries, at);
    assert ChargeableEach(all)[..|entries|] == ChargeableEach(entries);
  }

  lemma {:induction false} OneOtherEntry(entries: seq<TimeEntry>, id: EntryId, entry: TimeEntry, at: Option<LineRef>)
    requires id < |entries|
    ensures SecondsAt(entries[id := entry], at) == SecondsAt(entries, at) - WeightAt(entries[id], at) + WeightAt(entry, at)
  {
    assert WeightsAt(entries[id := entry], at) == WeightsAt(entries, at)[id := WeightAt(entry, at)];
    SumUpdate(WeightsAt(entries, at), id, WeightAt(entry, at));
  }

  lemma {:induction false} OneOtherChargeable(entries: seq<TimeEntry>, id: EntryId, entry: TimeEntry)
    requires id < |entries|
    ensures ChargeableSeconds(entries[id := entry]) == ChargeableSeconds(entries) - ChargeableIn(entries[id]) + ChargeableIn(entry)
  {
    assert ChargeableEach(entries[id := entry]) == ChargeableEach(entries)[id := ChargeableIn(entry)];
    SumUpdate(ChargeableEach(entries), id, ChargeableIn(entry));
  }

  /** An entry that no statement has weighs on no line, and in the waiting pool just what it is chargeable for. */
  lemma EditKeepsHours(w: World, id: EntryId, entry: TimeEntry, after: World)
    requires HoursSound(w) && HoursConserved(w) && id < |w.entries| && w.entries[id].line.None? && entry.line.None?
    requires after == w.(entries := w.entries[id := entry])
    ensures HoursSound(after) && HoursConserved(after)
  {
    forall s, l | 0 <= s < |w.statements| && w.statements[s].state != Cancelled && 0 <= l < |w.statements[s].lines|
      ensures after.statements[s].lines[l].worked == SecondsAt(after.entries, Some(LineRef(s, l)))
    {
      OneOtherEntry(w.entries, id, entry, Some(LineRef(s, l)));
    }
    OneOtherEntry(w.entries, id, entry, None);
    OneOtherChargeable(w.entries, id, entry);
  }

  lemma EditKeeps(w: World, id: EntryId, entry: TimeEntry, first: nat)
    requires Sound(w, first) && Enabled(w, Edit(id, entry))
    ensures Sound(Next(w, Edit(id, entry)), first)
  {
    var after := Next(w, Edit(id, entry));
    EditKeepsHours(w, id, entry, after);
    SameInvoices(w, after);
  }

  // ----- Generating -----

  lemma ListingIsListed(entries: seq<TimeEntry>, client: string, from: Day, to: Day, work: seq<BillableWork>)
    requires IsListing(entries, client, from, to, work)
    ensures Listed(entries, work)
  {}

  lemma {:induction false} SecondsAreNonNegative(items: seq<BillableWork>)
    requires forall i :: 0 <= i < |items| ==> items[i].seconds >= 0
    ensures Seconds(items) >= 0
  {
    if items != [] { SecondsAreNonNegative(items[..|items| - 1]); }
  }

  lemma GeneratedLineIsSound(entries: seq<TimeEntry>, group: Group, currency: Currency, perHourOn: Day -> Money)
    requires group.items != [] && Listed(entries, group.items) && Priced(group, currency, perHourOn).Ok?
    requires forall day :: perHourOn(day).minor >= 0
    requires forall i :: 0 <= i < |group.items| ==>
      SoundEntry(entries[group.items[i].entryId]) && group.items[i] == entries[group.items[i].entryId].AsWork(group.items[i].entryId)
    ensures SoundLine(Priced(group, currency, perHourOn).value, currency)
    ensures !I.Blank(Priced(group, currency, perHourOn).value.project)
  {
    SecondsAreNonNegative(group.items);
  }

  lemma {:induction false} GeneratedLinesAreSound(w: World, client: string, from: Day, to: Day, work: seq<BillableWork>, currency: Currency,
                               perHourOn: Day -> Money)
    requires IsListing(w.entries, client, from, to, work) && EntriesSound(w)
    requires forall day :: perHourOn(day).minor >= 0
    ensures NoneEmpty(Grouped(work)) && GroupsListed(w.entries, Grouped(work))
    ensures AllPriced(Grouped(work), currency, perHourOn).Ok? ==>
      var lines := AllPriced(Grouped(work), currency, perHourOn).value;
      && SoundLines(lines, currency) && Hours(lines) == Worked(Grouped(work))
      && (forall l :: 0 <= l < |lines| ==> !I.Blank(lines[l].project))
  {
    GroupedPartitions(work);
    var groups := Grouped(work);
    ListingIsListed(w.entries, client, from, to, work);
    GroupedIsListed(w.entries, work);
    if AllPriced(groups, currency, perHourOn).Ok? {
      LinesFollowGroups(groups, currency, perHourOn);
      var lines := AllPriced(groups, currency, perHourOn).value;
      forall g | 0 <= g < |groups| ensures SoundLine(lines[g], currency) && !I.Blank(lines[g].project) {
        ItemsHaveKey(work, groups[g].key);
        GeneratedLineIsSound(w.entries, groups[g], currency, perHourOn);
      }
    }
  }

  lemma {:induction false} GeneratedStatement(w: World, client: string, from: Day, to: Day, work: seq<BillableWork>, currency: Currency,
                           perHourOn: Day -> Money, createdBy: string, at: Instant)
    requires IsListing(w.entries, client, from, to, work) && EntriesSound(w)
    requires forall day :: perHourOn(day).minor >= 0
    requires AfterGenerate(w, client, from, to, work, currency, perHourOn, createdBy, at).Ok?
    ensures var after := AfterGenerate(w, client, from, to, work, currency, perHourOn, createdBy, at).value;
            GroupsListed(w.entries, Grouped(work)) && Generated(w, after, Grouped(work))
  {
    GeneratedLinesAreSound(w, client, from, to, work, currency, perHourOn);
  }

  /** A new draft whose lines are the groups, and the groups' entries attached to them. */
  ghost predicate Generated(w: World, after: World, groups: seq<Group>) {
    && |after.statements| == |w.statements| + 1
    && after == w.(statements := w.statements + [after.statements[|w.statements|]],
                   entries := AttachGroups(w.entries, |w.statements|, groups))
    && var s := after.statements[|w.statements|];
       s.state == Draft && StatementSound(s) && Hours(s.lines) == Worked(groups)
  }

  /** The hours of the new statement leave the waiting pool, and stand on its lines one for one. */
  lemma GenerateKeeps(w: World, step: Step, first: nat)
    requires Sound(w, first) && step.Generate? && Enabled(w, step)
    ensures Sound(Next(w, step), first)
  {
    var spec := AfterGenerate(w, step.client, step.from, step.to, step.work, step.currency, step.perHourOn, step.createdBy, step.at);
    if spec.Ok? {
      GeneratedStatement(w, step.client, step.from, step.to, step.work, step.currency, step.perHourOn, step.createdBy, step.at);
      AttachingKeeps(w, spec.value, Grouped(step.work), first);
    }
  }

  lemma AttachingKeeps(w: World, after: World, groups: seq<Group>, first: nat)
    requires Sound(w, first) && GroupsListed(w.entries, groups) && Generated(w, after, groups)
    ensures Sound(after, first)
  {
    var id := |w.statements|;
    assert |after.statements[id].lines| == |groups| by { assert |Hours(after.statements[id].lines)| == |Worked(groups)|; }
    AttachingKeepsEntries(w, after, groups);
    AttachingKeepsHours(w, after, groups);
    forall t | 0 <= t < |after.statements| && after.statements[t].state == Invoiced ensures InvoicedBy(after, t) {
      assert InvoicedBy(w, t);
    }
  }

  lemma AttachingKeepsHours(w: World, after: World, groups: seq<Group>)
    requires EntriesSound(w) && HoursSound(w) && HoursConserved(w)
    requires GroupsListed(w.entries, groups) && Generated(w, after, groups)
    ensures HoursSound(after) && HoursConserved(after)
  {
    var id := |w.statements|;
    var lines := after.statements[id].lines;
    forall t, l | 0 <= t <= id && after.statements[t].state != Cancelled && 0 <= l < |after.statements[t].lines|
      ensures after.statements[t].lines[l].worked == SecondsAt(after.entries, Some(LineRef(t, l)))
    {
      AttachGroupsMoves(w.entries, id, groups, LineRef(t, l));
      if t == id { assert Hours(lines)[l] == Worked(groups)[l]; }
    }
    AttachingConservesHours(w, after, groups);
  }

  lemma AttachingConservesHours(w: World, after: World, groups: seq<Group>)
    requires EntriesSound(w) && HoursConserved(w)
    requires GroupsListed(w.entries, groups) && Generated(w, after, groups)
    ensures HoursConserved(after)
  {
    var id := |w.statements|;
    AttachGroupsMoves(w.entries, id, groups, LineRef(id, 0));
    AttachGroupsKeepChargeable(w.entries, id, groups);
    BilledWithOneMore(w.statements, after.statements[id]);
    assert after.statements == w.statements + [after.statements[id]];
  }

  lemma BilledWithOneMore(statements: seq<Snapshot>, s: Snapshot)
    requires s.state != Cancelled
    ensures Sum(BilledHours(statements + [s])) == Sum(BilledHours(statements)) + TotalWorked(s.lines)
  {
    assert BilledHours(statements + [s])[..|statements|] == BilledHours(statements);
  }

  lemma {:induction false} AttachGroupsKeepChargeable(entries: seq<TimeEntry>, statement: StatementId, groups: seq<Group>)
    requires GroupsListed(entries, groups)
    ensures ChargeableSeconds(AttachGroups(entries, statement, groups)) == ChargeableSeconds(entries)
  {
    var after := AttachGroups(entries, statement, groups);
    NoEntries(statement, groups, entries);
    forall e | 0 <= e < |entries| ensures after[e] == entries[e].(line := after[e].line) {
      AttachedEntry(entries, statement, groups, e);
    }
    SameChargeable(entries, after);
  }

  lemma {:induction false} AttachingKeepsEntries(w: World, after: World, groups: seq<Group>)
    requires EntriesSound(w) && GroupsListed(w.entries, groups)
    requires |after.statements| == |w.statements| + 1 && |after.statements[|w.statements|].lines| == |groups|
    requires after.statements[..|w.statements|] == w.statements && after.statements[|w.statements|].state == Draft
    requires after.entries == AttachGroups(w.entries, |w.statements|, groups)
    ensures EntriesSound(after)
  {
    var id := |w.statements|;
    forall e | 0 <= e < |after.entries|
      ensures |after.entries| == |w.entries|
      ensures SoundEntry(after.entries[e])
      ensures after.entries[e].line.Some? ==>
        var ref := after.entries[e].line.value;
        && after.entries[e].Chargeable() && ref.statement < |after.statements|
        && ref.line < |after.statements[ref.statement].lines| && after.statements[ref.statement].state != Cancelled
    {
      NoEntries(id, groups, w.entries);
      AttachedEntry(w.entries, id, groups, e);
      assert SoundEntry(w.entries[e]);
      if g :| 0 <= g < |groups| && e in IdsOf(groups[g].items) {
        var i :| 0 <= i < |groups[g].items| && groups[g].items[i].entryId == e;
        assert w.entries[e].Chargeable();
      } else {
        assert after.entries[e] == w.entries[e];
        assert forall s :: 0 <= s < id ==> after.statements[s] == after.statements[..id][s];
      }
    }
  }

  lemma {:induction false} NoEntries(statement: StatementId, groups: seq<Group>, entries: seq<TimeEntry>)
    ensures |AttachGroups(entries, statement, groups)| == |entries|
  {
    if groups != [] { NoEntries(statement, groups[..|groups| - 1], entries); }
  }

  // ----- Revising -----

  lemma RevisionIsSound(s: Snapshot, revision: Revision)
    requires StatementSound(s) && Revised(s, revision).Ok?
    ensures var t := Revised(s, revision).value;
            && StatementSound(t)
            && s.state in {Draft, Approved} && t.state in {Draft, Approved}
            && Hours(t.lines) == Hours(s.lines)
  {
    if revision.Approve? {
      PositiveTotal(s.lines, s.currency);
    }
  }

  lemma ReviseKeeps(w: World, id: StatementId, revision: Revision, first: nat)
    requires Sound(w, first)
    ensures Sound(AfterRevision(w, id, revision), first)
  {
    if id < |w.statements| && Revised(w.statements[id], revision).Ok? {
      RevisionIsSound(w.statements[id], revision);
      ReplacingKeeps(w, id, Revised(w.statements[id], revision).value, first);
    }
  }

  lemma SameHours(a: seq<StatementLine>, b: seq<StatementLine>)
    requires Hours(a) == Hours(b)
    ensures |a| == |b| && forall l :: 0 <= l < |a| ==> a[l].worked == b[l].worked
  {
    assert |Hours(a)| == |Hours(b)|;
    forall l | 0 <= l < |a| ensures a[l].worked == b[l].worked {
      assert Hours(a)[l] == Hours(b)[l];
    }
  }

  lemma ReplacingKeepsHours(w: World, id: StatementId, t: Snapshot, after: World)
    requires EntriesSound(w) && HoursSound(w) && HoursConserved(w) && id < |w.statements|
    requires w.statements[id].state in {Draft, Approved} && t.state in {Draft, Approved}
    requires Hours(t.lines) == Hours(w.statements[id].lines) && after == w.(statements := w.statements[id := t])
    ensures EntriesSound(after) && HoursSound(after) && HoursConserved(after)
  {
    SameHours(t.lines, w.statements[id].lines);
    assert BilledHours(after.statements) == BilledHours(w.statements);
  }

  lemma ReplacingKeepsInvoices(w: World, id: StatementId, t: Snapshot, after: World)
    requires InvoicesSound(w) && id < |w.statements| && after == w.(statements := w.statements[id := t])
    requires w.statements[id].state in {Draft, Approved} && t.state in {Draft, Approved}
    ensures InvoicesSound(after)
  {
    forall s | 0 <= s < |after.statements| && after.statements[s].state == Invoiced ensures InvoicedBy(after, s) {
      assert InvoicedBy(w, s);
    }
  }

  lemma ReplacingKeeps(w: World, id: StatementId, t: Snapshot, first: nat)
    requires Sound(w, first) && id < |w.statements| && StatementSound(t)
    requires w.statements[id].state in {Draft, Approved} && t.state in {Draft, Approved}
    requires Hours(t.lines) == Hours(w.statements[id].lines)
    ensures Sound(w.(statements := w.statements[id := t]), first)
  {
    var after := w.(statements := w.statements[id := t]);
    ReplacingKeepsHours(w, id, t, after);
    ReplacingKeepsInvoices(w, id, t, after);
  }

  // ----- Raising -----

  /** The invoice's lines add up to the statement's total, none is refused, and there are none only if all were excluded. */
  ghost predicate BillsAll(lines: seq<StatementLine>, billed: seq<I.InvoiceLine>, currency: Currency) {
    && Sum(I.LineAmounts(billed)) == Total(lines)
    && (forall l :: 0 <= l < |billed| ==> I.LineFault(billed[l], currency).None?)
    && (billed == [] <==> forall l :: 0 <= l < |lines| ==> lines[l].excluded)
  }

  lemma {:induction false} BilledTotal(lines: seq<StatementLine>, currency: Currency)
    requires SoundLines(lines, currency) && forall l :: 0 <= l < |lines| ==> !I.Blank(lines[l].project)
    ensures BillsAll(lines, BilledLines(lines), currency)
  {
    if lines != [] {
      var init, last := lines[..|lines| - 1], lines[|lines| - 1];
      BilledTotal(init, currency);
      BillsOneMore(init, last, currency);
      assert lines == init + [last];
    }
  }

  lemma {:induction false} BillsOneMore(init: seq<StatementLine>, last: StatementLine, currency: Currency)
    requires SoundLine(last, currency) && !I.Blank(last.project) && BillsAll(init, BilledLines(init), currency)
    ensures BillsAll(init + [last], BilledLines(init + [last]), currency)
  {
    OneMoreBilled(init, last, currency);
    assert (init + [last])[|init|] == last;
    forall l | 0 <= l < |init| ensures (init + [last])[l] == init[l] {}
  }

  lemma {:induction false} OneMoreBilled(init: seq<StatementLine>, last: StatementLine, currency: Currency)
    requires SoundLine(last, currency) && !I.Blank(last.project)
    ensures BilledLines(init + [last]) == BilledLines(init) + if last.excluded then [] else [BilledLine(last)]
    ensures Total(init + [last]) == Total(init) + LineAmount(last)
    ensures Sum(I.LineAmounts(BilledLines(init + [last]))) == Sum(I.LineAmounts(BilledLines(init))) + LineAmount(last)
    ensures I.LineFault(BilledLine(last), currency).None?
  {
    assert (init + [last])[..|init|] == init;
    assert Amounts(init + [last])[..|init|] == Amounts(init);
    AmountIsNonNegative(last, currency);
    var billed := BilledLines(init);
    if !last.excluded {
      assert I.LineAmounts(billed + [BilledLine(last)])[..|billed|] == I.LineAmounts(billed);
    }
  }

  /** An approved statement has something to bill, and nothing on it that an invoice would refuse. */
  lemma ApprovedHasLines(s: Snapshot)
    requires StatementSound(s) && s.state == Approved
    ensures BilledLines(s.lines) != [] && I.FirstFault(BilledLines(s.lines), s.currency).None?
    ensures Sum(I.LineAmounts(BilledLines(s.lines))) == Total(s.lines)
  {
    BilledTotal(s.lines, s.currency);
    PositiveTotal(s.lines, s.currency);
  }

  /**
    Once the checks made before a number is drawn have passed, nothing refuses any more; and an
    approved statement is never refused for having every line excluded.
   */
  lemma NothingRefusesAfterTheNumber(w: World, r: RaiseRequest, first: nat)
    requires Sound(w, first) && Enabled(w, Raise(r))
    ensures RefusedFirst(w, r) != Some(AllExcluded)
    ensures RefusedFirst(w, r).None? ==> RaisedFrom(w, r).Ok? && AfterMarkInvoiced(w.statements[r.statement]).Ok?
    ensures RefusedFirst(w, r).None? ==>
      I.Net(RaisedFrom(w, r).value) == Total(w.statements[r.statement].lines)
      && RaisedFrom(w, r).value.number == PrintNat(w.nextNumber)
      && RaisedFrom(w, r).value.statement == r.statement
  {
    if r.statement < |w.statements| && w.statements[r.statement].state == Approved {
      ApprovedHasLines(w.statements[r.statement]);
      ApprovedIsRaised(w, r);
    }
  }

  lemma ApprovedIsRaised(w: World, r: RaiseRequest)
    requires Enabled(w, Raise(r)) && r.statement < |w.statements|
    requires var s := w.statements[r.statement];
             BilledLines(s.lines) != [] && I.FirstFault(BilledLines(s.lines), s.currency).None?
    ensures RaisedFrom(w, r).Ok? && RaisedFrom(w, r).value.lines == BilledLines(w.statements[r.statement].lines)
    ensures RaisedFrom(w, r).value.number == PrintNat(w.nextNumber) && RaisedFrom(w, r).value.statement == r.statement
  {
    PrintedIsTrimmed(w.nextNumber);
  }

  /** So a refused raise leaves everything as it was, the sequence included, and an accepted one takes the next number. */
  lemma {:induction false} RefusedRaiseTakesNoNumber(w: World, r: RaiseRequest, first: nat)
    requires Sound(w, first) && Enabled(w, Raise(r))
    ensures var (after, outcome) := AfterRaise(w, r);
            && (outcome.Err? ==> after == w)
            && (outcome.Ok? ==> outcome.value == PrintNat(first + |w.invoices|) && |after.invoices| == |w.invoices| + 1)
            && (outcome.Ok? <==> RefusedFirst(w, r).None?)
  {
    NothingRefusesAfterTheNumber(w, r, first);
  }

  lemma RaiseKeeps(w: World, r: RaiseRequest, first: nat)
    requires Sound(w, first) && Enabled(w, Raise(r))
    ensures Sound(AfterRaise(w, r).0, first)
  {
    NothingRefusesAfterTheNumber(w, r, first);
    if RefusedFirst(w, r).None? {
      RaisingKeeps(w, r, AfterRaise(w, r).0, RaisedFrom(w, r).value, first);
    }
  }

  ghost predicate RaisedInto(w: World, r: RaiseRequest, after: World, invoice: I.InvoiceSnapshot) {
    && r.statement < |w.statements| && w.statements[r.statement].state == Approved
    && after == w.(nextNumber := w.nextNumber + 1, invoices := w.invoices + [invoice],
                   statements := w.statements[r.statement := w.statements[r.statement].(state := Invoiced)])
    && invoice.statement == r.statement && invoice.number == PrintNat(w.nextNumber)
    && I.Net(invoice) == Total(w.statements[r.statement].lines)
  }

  lemma RaisingKeeps(w: World, r: RaiseRequest, after: World, invoice: I.InvoiceSnapshot, first: nat)
    requires Sound(w, first) && RaisedInto(w, r, after, invoice)
    ensures Sound(after, first)
  {
    RaisingKeepsStatements(w, r, after, invoice, first);
    RaisingKeepsInvoices(w, r, after, invoice);
    RaisingKeepsHours(w, r, after, invoice);
  }

  lemma RaisingKeepsStatements(w: World, r: RaiseRequest, after: World, invoice: I.InvoiceSnapshot, first: nat)
    requires StatementsSound(w) && NumbersSound(w, first) && RaisedInto(w, r, after, invoice)
    ensures StatementsSound(after) && NumbersSound(after, first)
  {
    assert StatementSound(w.statements[r.statement]);
  }

  lemma RaisingKeepsHours(w: World, r: RaiseRequest, after: World, invoice: I.InvoiceSnapshot)
    requires EntriesSound(w) && HoursSound(w) && HoursConserved(w) && RaisedInto(w, r, after, invoice)
    ensures EntriesSound(after) && HoursSound(after) && HoursConserved(after)
  {
    forall s | 0 <= s < |w.statements|
      ensures after.statements[s].lines == w.statements[s].lines
      ensures after.statements[s].state == Cancelled <==> w.statements[s].state == Cancelled
    {}
    assert BilledHours(after.statements) == BilledHours(w.statements);
  }

  lemma RaisingKeepsInvoices(w: World, r: RaiseRequest, after: World, invoice: I.InvoiceSnapshot)
    requires InvoicesSound(w) && RaisedInto(w, r, after, invoice)
    ensures InvoicesSound(after)
  {
    forall s | 0 <= s < |after.statements| && after.statements[s].state == Invoiced ensures InvoicedBy(after, s) {
      if s == r.statement {
        assert after.invoices[|w.invoices|].statement == s;
      } else {
        assert InvoicedBy(w, s);
        var k :| 0 <= k < |w.invoices| && w.invoices[k].statement == s;
        assert after.invoices[k].statement == s;
      }
    }
  }

  // ----- Releasing -----

  ghost predicate ReleasedInto(w: World, id: StatementId, after: World) {
    && id < |w.statements| && w.statements[id].state in {Draft, Approved}
    && after == w.(entries := Detach(w.entries, EntriesOn(w.entries, id)),
                   statements := w.statements[id := w.statements[id].(state := Cancelled)])
  }

  /** A statement with hours still on it was not cancelled before. */
  lemma ReleaseIs(w: World, id: StatementId, reason: string, mayUnlink: bool)
    requires EntriesSound(w)
    ensures var (after, outcome) := AfterRelease(w, id, reason, mayUnlink);
            (outcome.Err? ==> after == w) && (outcome.Ok? ==> ReleasedInto(w, id, after))
  {
    if AfterRelease(w, id, reason, mayUnlink).1.Ok? {
      var e :| e in EntriesOn(w.entries, id);
      assert w.statements[w.entries[e].line.value.statement].state != Cancelled;
    }
  }

  lemma ReleaseKeeps(w: World, id: StatementId, reason: string, mayUnlink: bool, first: nat)
    requires Sound(w, first)
    ensures Sound(AfterRelease(w, id, reason, mayUnlink).0, first)
  {
    var (after, outcome) := AfterRelease(w, id, reason, mayUnlink);
    ReleaseIs(w, id, reason, mayUnlink);
    if outcome.Ok? {
      ReleasingKeeps(w, id, after, first);
    }
  }

  lemma ReleasingKeepsInvoices(w: World, id: StatementId, after: World)
    requires InvoicesSound(w) && ReleasedInto(w, id, after)
    ensures InvoicesSound(after)
  {
    forall s | 0 <= s < |after.statements| && after.statements[s].state == Invoiced ensures InvoicedBy(after, s) {
      assert InvoicedBy(w, s);
    }
    forall k | 0 <= k < |w.invoices| ensures w.invoices[k].statement != id {
      assert w.statements[w.invoices[k].statement].state == Invoiced;
    }
  }

  lemma ReleasingKeeps(w: World, id: StatementId, after: World, first: nat)
    requires Sound(w, first) && ReleasedInto(w, id, after)
    ensures Sound(after, first)
  {
    assert StatementSound(w.statements[id]);
    ReleasingKeepsEntries(w, id, after);
    ReleasingKeepsOtherHours(w, id, after);
    ReleasingConservesHours(w, id, after);
    ReleasingKeepsInvoices(w, id, after);
  }

  lemma ReleasingKeepsEntries(w: World, id: StatementId, after: World)
    requires EntriesSound(w) && ReleasedInto(w, id, after)
    ensures EntriesSound(after)
  {
    forall e | 0 <= e < |after.entries|
      ensures SoundEntry(after.entries[e])
      ensures after.entries[e].line.Some? ==>
        after.entries[e] == w.entries[e] && after.entries[e].line.value.statement != id
    {
      assert SoundEntry(w.entries[e]);
      assert e in EntriesOn(w.entries, id) || after.entries[e] == w.entries[e];
    }
  }

  lemma ReleasingKeepsOtherHours(w: World, id: StatementId, after: World)
    requires EntriesSound(w) && HoursSound(w) && ReleasedInto(w, id, after)
    ensures HoursSound(after)
  {
    forall s, l | 0 <= s < |w.statements| && s != id && w.statements[s].state != Cancelled && 0 <= l < |w.statements[s].lines|
      ensures w.statements[s].lines[l].worked == SecondsAt(after.entries, Some(LineRef(s, l)))
    {
      DetachMoves(w.entries, id, |w.statements[id].lines|, LineRef(s, l));
    }
  }

  lemma ReleasingConservesHours(w: World, id: StatementId, after: World)
    requires EntriesSound(w) && HoursSound(w) && HoursConserved(w) && ReleasedInto(w, id, after)
    ensures HoursConserved(after)
  {
    var lines := w.statements[id].lines;
    HoursAreAttached(w.entries, id, lines);
    DetachMoves(w.entries, id, |lines|, LineRef(id, 0));
    assert BilledHours(after.statements) == BilledHours(w.statements)[id := 0];
    SumUpdate(BilledHours(w.statements), id, 0);
  }

  // ----- Every run -----

  lemma StepKeepsSound(w: World, step: Step, first: nat)
    requires Sound(w, first) && Enabled(w, step)
    ensures Sound(Next(w, step), first)
  {
    match step
    case Record(entry) => RecordKeeps(w, entry, first);
    case Edit(id, entry) => EditKeeps(w, id, entry, first);
    case Generate(_, _, _, _, _, _, _, _) => GenerateKeeps(w, step, first);
    case Revise(statement, revision) => ReviseKeeps(w, statement, revision, first);
    case Raise(request) => RaiseKeeps(w, request, first);
    case Release(statement, reason, mayUnlink) => ReleaseKeeps(w, statement, reason, mayUnlink, first);
  }

  ghost predicate Legal(w: World, steps: seq<Step>)
    decreases |steps|
  {
    steps != [] ==> Enabled(w, steps[0]) && Legal(Next(w, steps[0]), steps[1..])
  }

  function Run(w: World, steps: seq<Step>): World
    decreases |steps|
  {
    if steps == [] then w else Run(Next(w, steps[0]), steps[1..])
  }

  lemma {:induction false} RunKeepsSound(w: World, steps: seq<Step>, first: nat)
    requires Sound(w, first) && Legal(w, steps)
    ensures Sound(Run(w, steps), first)
    decreases |steps|
  {
    if steps != [] {
      StepKeepsSound(w, steps[0], first);
      RunKeepsSound(Next(w, steps[0]), steps[1..], first);
    }
  }

  /** The tables some run leaves behind, starting from empty ones and the firm's next number. */
  ghost predicate Reached(w: World, first: nat) {
    exists steps :: Legal(World([], [], [], first), steps) && Run(World([], [], [], first), steps) == w
  }

  lemma EmptyIsSound(first: nat)
    ensures Sound(World([], [], [], first), first)
  {}

  lemma ReachedIsSound(w: World, first: nat)
    requires Reached(w, first)
    ensures Sound(w, first)
  {
    var steps :| Legal(World([], [], [], first), steps) && Run(World([], [], [], first), steps) == w;
    EmptyIsSound(first);
    RunKeepsSound(World([], [], [], first), steps, first);
  }

  /** No second is lost or billed twice: what stands on statements and what waits is all there is. */
  lemma NoHourLostOrBilledTwice(w: World, first: nat)
    requires Reached(w, first)
    ensures Sum(BilledHours(w.statements)) + SecondsAt(w.entries, None) == ChargeableSeconds(w.entries)
    ensures HoursSound(w) && EntriesSound(w)
  {
    ReachedIsSound(w, first);
  }

  /** Every approved or invoiced statement keeps at least one line of positive amount. */
  lemma ApprovedHasSomethingToBill(w: World, first: nat, s: StatementId)
    requires Reached(w, first) && s < |w.statements| && w.statements[s].state in {Approved, Invoiced}
    ensures exists l :: 0 <= l < |w.statements[s].lines| && !w.statements[s].lines[l].excluded
                        && LineAmount(w.statements[s].lines[l]) > 0
  {
    ReachedIsSound(w, first);
    assert StatementSound(w.statements[s]);
    PositiveTotal(w.statements[s].lines, w.statements[s].currency);
  }

  lemma InvoicedIffBilled(w: World, s: StatementId)
    requires InvoicesSound(w) && s < |w.statements|
    ensures w.statements[s].state == Invoiced <==> InvoicedBy(w, s)
  {}

  lemma NumbersDiffer(w: World, first: nat, k: nat, m: nat)
    requires NumbersSound(w, first) && k < m < |w.invoices|
    ensures w.invoices[k].number != w.invoices[m].number
  {
    PrintThenParse(first + k);
    PrintThenParse(first + m);
  }

  /** Invoice numbers are the firm's sequence carried on, with nothing missing and nothing repeated. */
  lemma NumbersAreGapless(w: World, first: nat)
    requires Reached(w, first)
    ensures NumbersSound(w, first)
    ensures forall k, m :: 0 <= k < m < |w.invoices| ==> w.invoices[k].number != w.invoices[m].number
  {
    ReachedIsSound(w, first);
    forall k, m | 0 <= k < m < |w.invoices| ensures w.invoices[k].number != w.invoices[m].number {
      NumbersDiffer(w, first, k, m);
    }
  }

  /** A statement has an invoice exactly when it is marked invoiced, never two, and each invoice bills its statement's total. */
  lemma OneInvoicePerStatement(w: World, first: nat, s: StatementId)
    requires Reached(w, first) && s < |w.statements|
    ensures w.statements[s].state == Invoiced <==> InvoicedBy(w, s)
    ensures InvoicesSound(w)
  {
    ReachedIsSound(w, first);
    InvoicedIffBilled(w, s);
  }

  ghost predicate KeptInvoiced(w: World, after: World, e: EntryId)
    requires e < |w.entries| && w.entries[e].line.Some? && w.entries[e].line.value.statement < |w.statements|
  {
    var s := w.entries[e].line.value.statement;
    && e < |after.entries| && after.entries[e] == w.entries[e]
    && s < |after.statements| && after.statements[s] == w.statements[s]
  }

  lemma StepKeepsInvoiced(w: World, step: Step, first: nat, e: EntryId)
    requires Sound(w, first) && Enabled(w, step) && e < |w.entries| && w.entries[e].line.Some?
    requires w.statements[w.entries[e].line.value.statement].state == Invoiced
    ensures KeptInvoiced(w, Next(w, step), e)
  {
    match step
    case Record(_) =>
    case Edit(_, _) =>
    case Generate(_, _, _, _, _, _, _, _) => GenerateKeepsInvoiced(w, step, e);
    case Revise(statement, revision) => ReviseKeepsInvoiced(w, statement, revision, e);
    case Raise(r) => RaiseKeepsInvoiced(w, r, e);
    case Release(statement, reason, mayUnlink) => ReleaseKeepsInvoiced(w, statement, reason, mayUnlink, e);
  }

  lemma ReviseKeepsInvoiced(w: World, id: StatementId, revision: Revision, e: EntryId)
    requires EntriesSound(w) && e < |w.entries| && w.entries[e].line.Some?
    requires w.statements[w.entries[e].line.value.statement].state == Invoiced
    ensures KeptInvoiced(w, AfterRevision(w, id, revision), e)
  {}

  lemma RaiseKeepsInvoiced(w: World, r: RaiseRequest, e: EntryId)
    requires EntriesSound(w) && e < |w.entries| && w.entries[e].line.Some?
    requires w.statements[w.entries[e].line.value.statement].state == Invoiced
    ensures KeptInvoiced(w, AfterRaise(w, r).0, e)
  {}

  lemma ReleaseKeepsInvoiced(w: World, id: StatementId, reason: string, mayUnlink: bool, e: EntryId)
    requires EntriesSound(w) && e < |w.entries| && w.entries[e].line.Some?
    requires w.statements[w.entries[e].line.value.statement].state == Invoiced
    ensures KeptInvoiced(w, AfterRelease(w, id, reason, mayUnlink).0, e)
  {}

  lemma GenerateKeepsInvoiced(w: World, step: Step, e: EntryId)
    requires EntriesSound(w) && step.Generate? && Enabled(w, step) && e < |w.entries| && w.entries[e].line.Some?
    ensures var after, s := Next(w, step), w.entries[e].line.value.statement;
            && e < |after.entries| && after.entries[e] == w.entries[e]
            && s < |w.statements| <= |after.statements| && after.statements[s] == w.statements[s]
  {
    var spec := AfterGenerate(w, step.client, step.from, step.to, step.work, step.currency, step.perHourOn, step.createdBy, step.at);
    if spec.Ok? {
      GeneratedStatement(w, step.client, step.from, step.to, step.work, step.currency, step.perHourOn, step.createdBy, step.at);
      AttachedEntry(w.entries, |w.statements|, Grouped(step.work), e);
      NotListed(w.entries, Grouped(step.work), e);
    }
  }

  lemma NotListed(entries: seq<TimeEntry>, groups: seq<Group>, e: EntryId)
    requires GroupsListed(entries, groups) && e < |entries| && entries[e].line.Some?
    ensures forall g :: 0 <= g < |groups| ==> e !in IdsOf(groups[g].items)
  {}

  /** Once a statement is invoiced it and the time behind it stay as they are, whatever happens after. */
  lemma {:induction false} InvoicedTimeIsFrozen(w: World, steps: seq<Step>, first: nat, e: EntryId)
    requires Sound(w, first) && Legal(w, steps) && e < |w.entries| && w.entries[e].line.Some?
    requires w.statements[w.entries[e].line.value.statement].state == Invoiced
    ensures var after, s := Run(w, steps), w.entries[e].line.value.statement;
            && e < |after.entries| && after.entries[e] == w.entries[e]
            && s < |after.statements| && after.statements[s] == w.statements[s]
    decreases |steps|
  {
    if steps != [] {
      StepKeepsSound(w, steps[0], first);
      StepKeepsInvoiced(w, steps[0], first, e);
      InvoicedTimeIsFrozen(Next(w, steps[0]), steps[1..], first, e);
    }
  }
}
