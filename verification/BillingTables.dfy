/**
  The use cases as they run: each reads the tables, works on the aggregates, and writes back in the
  order that leaves the least harm behind. What each makes of the tables is stated in full.
 */
module BillingTables {
  import opened Wrappers
  import opened Money
  import opened Text
  import opened Statement
  import opened GenerateStatement
  import opened BillingPipeline
  import I = Invoice

  class Tables {
    var entries: seq<TimeEntry>
    var statements: seq<Snapshot>
    var invoices: seq<I.InvoiceSnapshot>
    var nextNumber: nat

    ghost function AsWorld(): World
      reads this
    {
      World(entries, statements, invoices, nextNumber)
    }

    constructor (first: nat)
      ensures AsWorld() == World([], [], [], first)
    {
      entries, statements, invoices, nextNumber := [], [], [], first;
    }

    method UnbilledWork(client: string, from: Day, to: Day) returns (work: seq<BillableWork>)
      ensures IsListing(entries, client, from, to, work)
    {
      work := [];
      for e := 0 to |entries|
        invariant forall n :: 0 <= n < |work| ==>
          work[n].entryId < e && entries[work[n].entryId].Waiting(client, from, to)
          && work[n] == entries[work[n].entryId].AsWork(work[n].entryId)
        invariant forall m, n :: 0 <= m < n < |work| ==> work[m].entryId != work[n].entryId
        invariant forall id :: 0 <= id < e && entries[id].Waiting(client, from, to) ==>
          exists n :: 0 <= n < |work| && work[n].entryId == id
      {
        if entries[e].Waiting(client, from, to) {
          ghost var before := work;
          work := work + [entries[e].AsWork(e)];
          assert work[|before|].entryId == e;
          forall id | 0 <= id < e && entries[id].Waiting(client, from, to)
            ensures exists n :: 0 <= n < |work| && work[n].entryId == id
          {
            var n :| 0 <= n < |before| && before[n].entryId == id;
            assert work[n].entryId == id;
          }
        }
      }
    }

    /** Prices whatever the reader lists, and writes nothing yet. */
    method Prepare(client: string, from: Day, to: Day, currency: Currency, perHourOn: Day -> Money,
                   createdBy: string, now: Instant)
      returns (draft: Result<Snapshot, GenerateConflict>, work: seq<BillableWork>, groups: seq<Group>)
      ensures from.NotAfter(to) ==> IsListing(entries, client, from, to, work)
      ensures draft == DraftFrom(client, from, to, work, currency, perHourOn, createdBy, now)
      ensures groups == Grouped(work)
    {
      if !from.NotAfter(to) {
        return Err(PeriodEndsFirst), [], [];
      }
      work := UnbilledWork(client, from, to);
      groups := GroupBy(work);
      if |work| == 0 {
        return Err(NothingUnbilled), work, groups;
      }
      GroupedPartitions(work);
      var lines := PriceLines(groups, currency, perHourOn);
      if lines.Err? {
        return Err(lines.error), work, groups;
      }
      var drafted := AfterDraft(client, from, to, currency, lines.value, createdBy, now);
      return if drafted.Err? then Err(Drafting(drafted.error)) else Ok(drafted.value), work, groups;
    }

    /** The statement is saved first, and each group's entries attached only once its line exists. */
    method Generate(client: string, from: Day, to: Day, currency: Currency, perHourOn: Day -> Money,
                    createdBy: string, now: Instant)
      returns (r: Result<StatementId, GenerateConflict>, work: seq<BillableWork>)
      modifies this
      ensures from.NotAfter(to) ==> IsListing(old(entries), client, from, to, work)
      ensures match AfterGenerate(old(AsWorld()), client, from, to, work, currency, perHourOn, createdBy, now)
              case Ok(after) => AsWorld() == after && r == Ok(|old(statements)|)
              case Err(e) => AsWorld() == old(AsWorld()) && r == Err(e)
    {
      var draft, groups;
      draft, work, groups := Prepare(client, from, to, currency, perHourOn, createdBy, now);
      if draft.Err? {
        return Err(draft.error), work;
      }
      var id := SaveDraft(draft.value, groups);
      return Ok(id), work;
    }

    method SaveDraft(draft: Snapshot, groups: seq<Group>) returns (id: StatementId)
      modifies this
      ensures id == |old(statements)|
      ensures AsWorld() == old(AsWorld()).(statements := old(statements) + [draft],
                                           entries := AttachGroups(old(entries), id, groups))
    {
      id := |statements|;
      statements := statements + [draft];
      AttachLines(id, groups);
    }

    method AttachLines(statement: StatementId, groups: seq<Group>)
      modifies this`entries
      ensures entries == AttachGroups(old(entries), statement, groups)
    {
      for g := 0 to |groups|
        invariant entries == AttachGroups(old(entries), statement, groups[..g])
      {
        entries := Attach(entries, LineRef(statement, g), IdsOf(groups[g].items));
        assert groups[..g + 1][..g] == groups[..g];
      }
      assert groups[..|groups|] == groups;
    }

    /** Loads the statement, revises it, and saves it only if it agreed. */
    method Revise(id: StatementId, revision: Revision) returns (r: Option<Result<(), Conflict>>)
      modifies this
      ensures AsWorld() == AfterRevision(old(AsWorld()), id, revision)
      ensures r.Some? <==> id < |old(statements)|
      ensures r.Some? ==> (r.value.Ok? <==> Revised(old(statements)[id], revision).Ok?)
    {
      if id >= |statements| {
        return None;
      }
      var statement := new Statement(statements[id]);
      var said;
      match revision {
        case Exclude(line, reason) => said := statement.Exclude(line, reason);
        case Adjust(line, to, reason) => said := statement.Adjust(line, to, reason);
        case Restore(line) => said := statement.Restore(line);
        case Approve(user, now) => said := statement.Approve(user, now);
        case Reopen => said := statement.Reopen();
      }
      if said.Ok? {
        statements := statements[id := statement.state];
      }
      return Some(said);
    }

    method BillLines(lines: seq<StatementLine>) returns (billed: seq<I.InvoiceLine>)
      ensures billed == BilledLines(lines)
    {
      billed := [];
      for l := 0 to |lines|
        invariant billed == BilledLines(lines[..l])
      {
        if !lines[l].excluded {
          billed := billed + [BilledLine(lines[l])];
        }
        assert lines[..l + 1][..l] == lines[..l];
      }
      assert lines[..|lines|] == lines;
    }

    /** The number is drawn only once nothing the statement or the branch could say is left to refuse it. */
    method Raise(r: RaiseRequest) returns (outcome: Result<string, RaiseConflict>)
      modifies this
      ensures (AsWorld(), outcome) == AfterRaise(old(AsWorld()), r)
    {
      if r.statement >= |statements| {
        return Err(NoSuchStatement);
      }
      var statement := new Statement(statements[r.statement]);
      if statement.state.state != Approved {
        return Err(if statement.state.state == Invoiced then InvoicedAlready else NotYetApproved);
      }
      if r.branchCode.Some? && r.branchCode.value !in r.liveBranches {
        return Err(NotABranch);
      }
      if r.branchCode.None? && r.liveBranches != {} {
        return Err(ChooseABranch);
      }
      var lines := BillLines(statement.state.lines);
      if |lines| == 0 {
        return Err(AllExcluded);
      }
      var number := PrintNat(nextNumber);
      nextNumber := nextNumber + 1;
      var raised := I.AfterRaise(statement.state.client, r.statement, number, r.branchCode, statement.state.currency, lines,
                                 r.settings.vatBasisPoints, r.now, r.now + r.settings.paymentTermsDays * DAY, r.issuedBy);
      if raised.Err? {
        return Err(NotRaised(raised.error));
      }
      invoices := invoices + [raised.value];
      var marked := statement.MarkInvoiced();
      // The state was checked above, so the last refusal cannot fire.
      assert marked.Ok?;
      statements := statements[r.statement := statement.state];
      return Ok(number);
    }

    /** The hours are let go before the cancelled statement is saved. */
    method Release(id: StatementId, reason: string, mayUnlink: bool) returns (outcome: Result<nat, ReleaseConflict>)
      modifies this
      ensures (AsWorld(), outcome) == AfterRelease(old(AsWorld()), id, reason, mayUnlink)
    {
      if !mayUnlink {
        return Err(NotAManager);
      }
      var trimmed := Trim(reason);
      if |trimmed| < 3 {
        return Err(NoReleaseReason);
      }
      if id >= |statements| {
        return Err(NoStatementToRelease);
      }
      var statement := new Statement(statements[id]);
      if statement.state.state == Invoiced {
        return Err(ReleaseInvoiced);
      }
      var attached := EntriesOn(entries, id);
      if attached == {} {
        return Err(NoHoursAttached);
      }
      var cancelled := statement.Cancel(trimmed);
      if cancelled.Err? {
        return Err(NotCancelled(cancelled.error));
      }
      entries := Detach(entries, attached);
      statements := statements[id := statement.state];
      return Ok(|attached|);
    }
  }
}
