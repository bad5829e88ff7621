/**
  From recorded time to an invoice: the tables, and the use cases that run against them, each in
  one unit of work. A refusal returns normally, so whatever was written before it stays written.
 */
module BillingPipeline {
  import opened Wrappers
  import opened Rounding
  import opened Money
  import opened Text
  import opened Statement
  import opened GenerateStatement
  import I = Invoice

  type StatementId = nat

  datatype LineRef = LineRef(statement: StatementId, line: LineId)

  datatype TimeEntry = TimeEntry(
    client: string, project: string, clientService: string, service: string, performedOn: Day, user: Option<string>,
    seconds: int, pricing: WorkPricing, feeMinor: Option<int>, billable: bool, ended: bool, approved: bool,
    line: Option<LineRef>)
  {
    predicate Chargeable() {
      billable && ended && approved && seconds > 0
    }

    predicate Waiting(forClient: string, from: Day, to: Day) {
      && client == forClient && line.None? && Chargeable()
      && from.NotAfter(performedOn) && performedOn.NotAfter(to)
    }

    function AsWork(id: EntryId): BillableWork {
      BillableWork(id, project, clientService, service, performedOn, user, seconds, pricing, feeMinor)
    }
  }

  datatype World = World(
    entries: seq<TimeEntry>, statements: seq<Snapshot>, invoices: seq<I.InvoiceSnapshot>, nextNumber: nat)

  /** The reader's answer: the waiting entries, each once, in whatever order the database gives them. */
  ghost predicate IsListing(entries: seq<TimeEntry>, client: string, from: Day, to: Day, work: seq<BillableWork>) {
    && (forall n :: 0 <= n < |work| ==>
          var id := work[n].entryId;
          id < |entries| && entries[id].Waiting(client, from, to) && work[n] == entries[id].AsWork(id))
    && (forall m, n :: 0 <= m < n < |work| ==> work[m].entryId != work[n].entryId)
    && (forall id :: 0 <= id < |entries| && entries[id].Waiting(client, from, to) ==>
          exists n :: 0 <= n < |work| && work[n].entryId == id)
  }

  // ----- Attaching and releasing -----

  function IdsOf(items: seq<BillableWork>): set<EntryId> {
    set i | 0 <= i < |items| :: items[i].entryId
  }

  function Attach(entries: seq<TimeEntry>, ref: LineRef, ids: set<EntryId>): seq<TimeEntry> {
    seq(|entries|, e requires 0 <= e < |entries| =>
      if e in ids && entries[e].line.None? then entries[e].(line := Some(ref)) else entries[e])
  }

  function AttachGroups(entries: seq<TimeEntry>, statement: StatementId, groups: seq<Group>): seq<TimeEntry> {
    if groups == [] then entries
    else
      var g := |groups| - 1;
      Attach(AttachGroups(entries, statement, groups[..g]), LineRef(statement, g), IdsOf(groups[g].items))
  }

  function EntriesOn(entries: seq<TimeEntry>, statement: StatementId): set<EntryId> {
    set e | 0 <= e < |entries| && entries[e].line.Some? && entries[e].line.value.statement == statement
  }

  function Detach(entries: seq<TimeEntry>, ids: set<EntryId>): seq<TimeEntry> {
    seq(|entries|, e requires 0 <= e < |entries| => if e in ids then entries[e].(line := None) else entries[e])
  }

  // ----- The use cases -----

  /** The statement the listed work makes, if nothing about it is refused. */
  function DraftFrom(client: string, from: Day, to: Day, work: seq<BillableWork>, currency: Currency,
                     perHourOn: Day -> Money, createdBy: string, now: Instant): Result<Snapshot, GenerateConflict>
  {
    if !from.NotAfter(to) then Err(PeriodEndsFirst)
    else if work == [] then Err(NothingUnbilled)
    else
      GroupedPartitions(work);
      match AllPriced(Grouped(work), currency, perHourOn)
      case Err(e) => Err(e)
      case Ok(lines) =>
        match AfterDraft(client, from, to, currency, lines, createdBy, now)
        case Err(e) => Err(Drafting(e))
        case Ok(statement) => Ok(statement)
  }

  function AfterGenerate(w: World, client: string, from: Day, to: Day, work: seq<BillableWork>, currency: Currency,
                         perHourOn: Day -> Money, createdBy: string, now: Instant): Result<World, GenerateConflict>
  {
    match DraftFrom(client, from, to, work, currency, perHourOn, createdBy, now)
    case Err(e) => Err(e)
    case Ok(statement) =>
      Ok(w.(statements := w.statements + [statement],
            entries := AttachGroups(w.entries, |w.statements|, Grouped(work))))
  }

  datatype Revision =
    | Exclude(line: LineId, reason: string)
    | Adjust(line: LineId, to: Money, reason: string)
    | Restore(line: LineId)
    | Approve(user: string, now: Instant)
    | Reopen

  function Revised(s: Snapshot, revision: Revision): Result<Snapshot, Conflict> {
    match revision
    case Exclude(line, reason) => AfterExclude(s, line, reason)
    case Adjust(line, to, reason) => AfterAdjust(s, line, to, reason)
    case Restore(line) => AfterRestore(s, line)
    case Approve(user, now) => AfterApprove(s, user, now)
    case Reopen => AfterReopen(s)
  }

  function AfterRevision(w: World, id: StatementId, revision: Revision): World {
    if id >= |w.statements| then w
    else match Revised(w.statements[id], revision)
      case Ok(s) => w.(statements := w.statements[id := s])
      case Err(_) => w
  }

  /** The quantity printed for a line, in hundredths, and the unit price printed beside it. */
  function PrintedAs(line: StatementLine): (int, Money) {
    var charged := Money(LineAmount(line), LineCurrency(line));
    if line.adjustedTo.Some? || line.excluded then (100, charged)
    else match line.pricing
      case Fixed(fee) => (100, fee)
      case Hourly(perHour) =>
        var centi := RoundHalfUp(line.worked * 100, SECONDS_PER_HOUR);
        if centi > 0 then (centi, perHour) else (100, charged)
  }

  function BilledLine(line: StatementLine): I.InvoiceLine {
    var (quantity, unit) := PrintedAs(line);
    I.InvoiceLine(line.project, line.service, line.worked, Money(LineAmount(line), LineCurrency(line)), quantity, Some(unit))
  }

  /** An invoice line for each line that was kept. */
  function BilledLines(lines: seq<StatementLine>): seq<I.InvoiceLine> {
    if lines == [] then []
    else
      var init, last := BilledLines(lines[..|lines| - 1]), lines[|lines| - 1];
      if last.excluded then init else init + [BilledLine(last)]
  }

  datatype Settings = Settings(vatBasisPoints: int, paymentTermsDays: int)

  const DAY: int := 86_400_000

  datatype RaiseConflict =
    | NoSuchStatement | InvoicedAlready | NotYetApproved | NotABranch | ChooseABranch | AllExcluded
    | NotRaised(invoice: I.InvoiceConflict) | NotMarked(statement: Conflict)

  datatype RaiseRequest = RaiseRequest(
    statement: StatementId, branchCode: Option<string>, liveBranches: set<string>, settings: Settings,
    now: Instant, issuedBy: string)

  /** The refusals that come before a number is drawn. */
  function RefusedFirst(w: World, r: RaiseRequest): Option<RaiseConflict> {
    if r.statement >= |w.statements| then Some(NoSuchStatement)
    else if w.statements[r.statement].state != Approved then
      Some(if w.statements[r.statement].state == Invoiced then InvoicedAlready else NotYetApproved)
    else if r.branchCode.Some? && r.branchCode.value !in r.liveBranches then Some(NotABranch)
    else if r.branchCode.None? && r.liveBranches != {} then Some(ChooseABranch)
    else if BilledLines(w.statements[r.statement].lines) == [] then Some(AllExcluded)
    else None
  }

  function RaisedFrom(w: World, r: RaiseRequest): Result<I.InvoiceSnapshot, I.InvoiceConflict>
    requires r.statement < |w.statements|
  {
    var s := w.statements[r.statement];
    I.AfterRaise(s.client, r.statement, PrintNat(w.nextNumber), r.branchCode, s.currency, BilledLines(s.lines),
                 r.settings.vatBasisPoints, r.now, r.now + r.settings.paymentTermsDays * DAY, r.issuedBy)
  }

  function AfterRaise(w: World, r: RaiseRequest): (World, Result<string, RaiseConflict>) {
    if RefusedFirst(w, r).Some? then (w, Err(RefusedFirst(w, r).value))
    else
      var drawn := w.(nextNumber := w.nextNumber + 1);
      match RaisedFrom(w, r)
      case Err(e) => (drawn, Err(NotRaised(e)))
      case Ok(invoice) =>
        var saved := drawn.(invoices := w.invoices + [invoice]);
        match AfterMarkInvoiced(w.statements[r.statement])
        case Err(e) => (saved, Err(NotMarked(e)))
        case Ok(marked) =>
          (saved.(statements := w.statements[r.statement := marked]), Ok(PrintNat(w.nextNumber)))
  }

  datatype ReleaseConflict =
    | NotAManager | NoReleaseReason | NoStatementToRelease | ReleaseInvoiced | NoHoursAttached | NotCancelled(conflict: Conflict)

  function AfterRelease(w: World, id: StatementId, reason: string, mayUnlink: bool): (World, Result<nat, ReleaseConflict>) {
    if !mayUnlink then (w, Err(NotAManager))
    else if |Trim(reason)| < 3 then (w, Err(NoReleaseReason))
    else if id >= |w.statements| then (w, Err(NoStatementToRelease))
    else if w.statements[id].state == Invoiced then (w, Err(ReleaseInvoiced))
    else if EntriesOn(w.entries, id) == {} then (w, Err(NoHoursAttached))
    else match AfterCancel(w.statements[id], Trim(reason))
      case Err(e) => (w, Err(NotCancelled(e)))
      case Ok(cancelled) =>
        (w.(entries := Detach(w.entries, EntriesOn(w.entries, id)), statements := w.statements[id := cancelled]),
         Ok(|EntriesOn(w.entries, id)|))
  }
}
