/** Statements: drafts under review, approved ones, and those that were invoiced or cancelled. */
module Statement {
  import opened Wrappers
  import opened Rounding
  import opened Money
  import opened Text

  /** A calendar day, as the firm's time zone has it. */
  datatype Day = Day(year: int, month: int, dayOfMonth: int) {
    predicate NotAfter(other: Day) {
      || year < other.year
      || (year == other.year && month < other.month)
      || (year == other.year && month == other.month && dayOfMonth <= other.dayOfMonth)
    }
  }

  type Instant = int

  datatype StatementState = Draft | Approved | Invoiced | Cancelled

  datatype Pricing = Hourly(perHour: Money) | Fixed(fee: Money)

  datatype StatementLine = StatementLine(
    project: string, service: string, performedOn: Day, user: Option<string>, worked: int, pricing: Pricing,
    excluded: bool, excludedReason: Option<string>, adjustedTo: Option<Money>, adjustedReason: Option<string>)

  /** A line is known by its place on the statement. */
  type LineId = nat

  datatype Snapshot = Snapshot(
    client: string, periodStart: Day, periodEnd: Day, state: StatementState, currency: Currency,
    lines: seq<StatementLine>, createdBy: string, createdAt: Instant,
    approvedAt: Option<Instant>, approvedBy: Option<string>)

  datatype Conflict =
    | PeriodBackwards | ForeignCurrency | NotDraft | NoReason | NoSuchLine | NotExcluded
    | NegativeAdjustment | NothingOnIt | NothingToBill | NotApproved | AlreadyInvoiced

  function LineCurrency(line: StatementLine): Currency {
    match line.pricing
    case Hourly(perHour) => perHour.currency
    case Fixed(fee) => fee.currency
  }

  /** The price of the work itself, with no regard to the review. */
  function AsWorked(line: StatementLine): int {
    match line.pricing
    case Hourly(perHour) => AmountFor(perHour.minor, line.worked)
    case Fixed(fee) => fee.minor
  }

  function LineAmount(line: StatementLine): int {
    if line.excluded then 0
    else if line.adjustedTo.Some? then line.adjustedTo.value.minor
    else AsWorked(line)
  }

  function Amounts(lines: seq<StatementLine>): seq<int> {
    seq(|lines|, i requires 0 <= i < |lines| => LineAmount(lines[i]))
  }

  function Total(lines: seq<StatementLine>): int {
    Sum(Amounts(lines))
  }

  function Hours(lines: seq<StatementLine>): seq<int> {
    seq(|lines|, i requires 0 <= i < |lines| => lines[i].worked)
  }

  function TotalWorked(lines: seq<StatementLine>): int {
    Sum(Hours(lines))
  }

  // ----- What each operation makes of a statement -----

  function AfterDraft(client: string, periodStart: Day, periodEnd: Day, currency: Currency,
                      lines: seq<StatementLine>, createdBy: string, now: Instant): Result<Snapshot, Conflict>
  {
    if !periodStart.NotAfter(periodEnd) then Err(PeriodBackwards)
    else if exists i :: 0 <= i < |lines| && LineCurrency(lines[i]) != currency then Err(ForeignCurrency)
    else Ok(Snapshot(client, periodStart, periodEnd, Draft, currency, lines, createdBy, now, None, None))
  }

  function AfterRevise(s: Snapshot, id: LineId, reason: string, change: (StatementLine, string) -> StatementLine):
    Result<Snapshot, Conflict>
  {
    if s.state != Draft then Err(NotDraft)
    else if |Trim(reason)| < 3 then Err(NoReason)
    else if id >= |s.lines| then Err(NoSuchLine)
    else Ok(s.(lines := s.lines[id := change(s.lines[id], Trim(reason))]))
  }

  function AfterExclude(s: Snapshot, id: LineId, reason: string): Result<Snapshot, Conflict> {
    AfterRevise(s, id, reason,
      (line: StatementLine, why: string) => line.(excluded := true, excludedReason := Some(why)))
  }

  function AfterAdjust(s: Snapshot, id: LineId, to: Money, reason: string): Result<Snapshot, Conflict> {
    if to.currency != s.currency then Err(ForeignCurrency)
    else if to.minor < 0 then Err(NegativeAdjustment)
    else AfterRevise(s, id, reason,
      (line: StatementLine, why: string) => line.(adjustedTo := Some(to), adjustedReason := Some(why)))
  }

  function AfterRestore(s: Snapshot, id: LineId): Result<Snapshot, Conflict> {
    if s.state != Draft then Err(NotDraft)
    else if id >= |s.lines| then Err(NoSuchLine)
    else if !s.lines[id].excluded then Err(NotExcluded)
    else Ok(s.(lines := s.lines[id := s.lines[id].(excluded := false, excludedReason := None)]))
  }

  function AfterApprove(s: Snapshot, user: string, now: Instant): Result<Snapshot, Conflict> {
    if s.state != Draft then Err(NotDraft)
    else if |s.lines| == 0 then Err(NothingOnIt)
    else if Total(s.lines) == 0 then Err(NothingToBill)
    else Ok(s.(state := Approved, approvedAt := Some(now), approvedBy := Some(user)))
  }

  function AfterReopen(s: Snapshot): Result<Snapshot, Conflict> {
    if s.state != Approved then Err(NotApproved)
    else Ok(s.(state := Draft, approvedAt := None, approvedBy := None))
  }

  function AfterMarkInvoiced(s: Snapshot): Result<Snapshot, Conflict> {
    if s.state != Approved then Err(NotApproved) else Ok(s.(state := Invoiced))
  }

  function AfterCancel(s: Snapshot, reason: string): Result<Snapshot, Conflict> {
    if s.state == Invoiced then Err(AlreadyInvoiced)
    else if |Trim(reason)| < 3 then Err(NoReason)
    else Ok(s.(state := Cancelled))
  }

  /** A call either goes through and leaves the state it should, or is refused and leaves it alone. */
  ghost predicate Became(before: Snapshot, after: Snapshot, should: Result<Snapshot, Conflict>, said: Result<(), Conflict>) {
    match should
    case Ok(s) => after == s && said == Ok(())
    case Err(e) => after == before && said == Err(e)
  }

  class Statement {
    var state: Snapshot

    constructor (state: Snapshot)
      ensures this.state == state
    {
      this.state := state;
    }

    method Exclude(id: LineId, reason: string) returns (r: Result<(), Conflict>)
      modifies this
      ensures Became(old(state), state, AfterExclude(old(state), id, reason), r)
    {
      r := MayRevise(id, reason);
      if r.Err? {
        return;
      }
      Replace(id, state.lines[id].(excluded := true, excludedReason := Some(Trim(reason))));
    }

    method Adjust(id: LineId, to: Money, reason: string) returns (r: Result<(), Conflict>)
      modifies this
      ensures Became(old(state), state, AfterAdjust(old(state), id, to, reason), r)
    {
      if to.currency != state.currency {
        return Err(ForeignCurrency);
      }
      if to.minor < 0 {
        return Err(NegativeAdjustment);
      }
      r := MayRevise(id, reason);
      if r.Err? {
        return;
      }
      Replace(id, state.lines[id].(adjustedTo := Some(to), adjustedReason := Some(Trim(reason))));
    }

    method Restore(id: LineId) returns (r: Result<(), Conflict>)
      modifies this
      ensures Became(old(state), state, AfterRestore(old(state), id), r)
    {
      if state.state != Draft {
        return Err(NotDraft);
      }
      if id >= |state.lines| {
        return Err(NoSuchLine);
      }
      if !state.lines[id].excluded {
        return Err(NotExcluded);
      }
      Replace(id, state.lines[id].(excluded := false, excludedReason := None));
      return Ok(());
    }

    method Approve(user: string, now: Instant) returns (r: Result<(), Conflict>)
      modifies this
      ensures Became(old(state), state, AfterApprove(old(state), user, now), r)
    {
      if state.state != Draft {
        return Err(NotDraft);
      }
      if |state.lines| == 0 {
        return Err(NothingOnIt);
      }
      var total := TotalOf();
      if total == 0 {
        return Err(NothingToBill);
      }
      state := state.(state := Approved, approvedAt := Some(now), approvedBy := Some(user));
      return Ok(());
    }

    method Reopen() returns (r: Result<(), Conflict>)
      modifies this
      ensures Became(old(state), state, AfterReopen(old(state)), r)
    {
      if state.state != Approved {
        return Err(NotApproved);
      }
      state := state.(state := Draft, approvedAt := None, approvedBy := None);
      return Ok(());
    }

    method MarkInvoiced() returns (r: Result<(), Conflict>)
      modifies this
      ensures Became(old(state), state, AfterMarkInvoiced(old(state)), r)
    {
      if state.state != Approved {
        return Err(NotApproved);
      }
      state := state.(state := Invoiced);
      return Ok(());
    }

    method Cancel(reason: string) returns (r: Result<(), Conflict>)
      modifies this
      ensures Became(old(state), state, AfterCancel(old(state), reason), r)
    {
      if state.state == Invoiced {
        return Err(AlreadyInvoiced);
      }
      if |Trim(reason)| < 3 {
        return Err(NoReason);
      }
      state := state.(state := Cancelled);
      return Ok(());
    }

    method TotalOf() returns (total: int)
      ensures total == Total(state.lines)
    {
      total := 0;
      for i := 0 to |state.lines|
        invariant total == Sum(Amounts(state.lines)[..i])
      {
        total := total + LineAmount(state.lines[i]);
        assert Amounts(state.lines)[..i + 1][..i] == Amounts(state.lines)[..i];
      }
      assert Amounts(state.lines)[..|state.lines|] == Amounts(state.lines);
    }

    method MayRevise(id: LineId, reason: string) returns (r: Result<(), Conflict>)
      ensures r == if state.state != Draft then Err(NotDraft)
                   else if |Trim(reason)| < 3 then Err(NoReason)
                   else if id >= |state.lines| then Err(NoSuchLine)
                   else Ok(())
    {
      if state.state != Draft {
        return Err(NotDraft);
      }
      if |Trim(reason)| < 3 {
        return Err(NoReason);
      }
      return if id < |state.lines| then Ok(()) else Err(NoSuchLine);
    }

    method Replace(id: LineId, line: StatementLine)
      requires id < |state.lines|
      modifies this
      ensures state == old(state).(lines := old(state).lines[id := line])
    {
      state := state.(lines := state.lines[id := line]);
    }
  }

  // ----- What holds of every statement -----

  /** A line as the database's checks and the kernel's own rules admit it. */
  predicate SoundLine(line: StatementLine, currency: Currency) {
    && line.worked >= 0
    && LineCurrency(line) == currency
    && (match line.pricing case Hourly(perHour) => perHour.minor >= 0 case Fixed(fee) => fee.minor >= 0)
    && (line.adjustedTo.Some? ==> line.adjustedTo.value.minor >= 0 && line.adjustedTo.value.currency == currency)
  }

  ghost predicate SoundLines(lines: seq<StatementLine>, currency: Currency) {
    forall i :: 0 <= i < |lines| ==> SoundLine(lines[i], currency)
  }

  lemma AmountIsNonNegative(line: StatementLine, currency: Currency)
    requires SoundLine(line, currency)
    ensures LineAmount(line) >= 0 && AsWorked(line) >= 0
  {
    if line.pricing.Hourly? {
      ScaledIsNonNegative(line.pricing.perHour.minor, line.worked, SECONDS_PER_HOUR);
    }
  }

  lemma {:induction false} PositiveTotal(lines: seq<StatementLine>, currency: Currency)
    requires SoundLines(lines, currency)
    ensures Total(lines) >= 0
    ensures Total(lines) > 0 <==> exists i :: 0 <= i < |lines| && !lines[i].excluded && LineAmount(lines[i]) > 0
  {
    if lines != [] {
      var k := |lines| - 1;
      PositiveTotal(lines[..k], currency);
      AmountIsNonNegative(lines[k], currency);
      assert Amounts(lines)[..k] == Amounts(lines[..k]);
      if Total(lines[..k]) > 0 {
        var i :| 0 <= i < k && !lines[..k][i].excluded && LineAmount(lines[..k][i]) > 0;
        assert lines[i] == lines[..k][i];
      }
      if i :| 0 <= i < |lines| && !lines[i].excluded && LineAmount(lines[i]) > 0 && i < k {
        assert lines[..k][i] == lines[i];
      }
    }
  }

  /** A draft is approved exactly when some line that was not excluded is worth something. */
  lemma ApprovedIffSomethingToBill(s: Snapshot, user: string, now: Instant)
    requires SoundLines(s.lines, s.currency)
    ensures AfterApprove(s, user, now).Ok? <==>
      s.state == Draft && exists i :: 0 <= i < |s.lines| && !s.lines[i].excluded && LineAmount(s.lines[i]) > 0
  {
    PositiveTotal(s.lines, s.currency);
  }

  /** What putting an excluded line back, or reopening an approved statement, undoes. */
  lemma Undone(s: Snapshot, id: LineId, reason: string, user: string, now: Instant)
    ensures AfterExclude(s, id, reason).Ok? && !s.lines[id].excluded && s.lines[id].excludedReason.None? ==>
      AfterRestore(AfterExclude(s, id, reason).value, id) == Ok(s)
    ensures AfterApprove(s, user, now).Ok? && s.approvedAt.None? && s.approvedBy.None? ==>
      AfterReopen(AfterApprove(s, user, now).value) == Ok(s)
  {
    if AfterExclude(s, id, reason).Ok? && !s.lines[id].excluded && s.lines[id].excludedReason.None? {
      var t := AfterExclude(s, id, reason).value;
      assert t.lines[id := s.lines[id]] == s.lines;
    }
  }

  /** Excluding or adjusting one line moves the total by the change in that line, and nothing else. */
  lemma {:induction false} TotalMovesWithLine(lines: seq<StatementLine>, id: LineId, line: StatementLine)
    requires id < |lines|
    ensures Total(lines[id := line]) == Total(lines) - LineAmount(lines[id]) + LineAmount(line)
    ensures line.worked == lines[id].worked ==> TotalWorked(lines[id := line]) == TotalWorked(lines)
  {
    var changed, k := lines[id := line], |lines| - 1;
    if id == k {
      assert Amounts(changed)[..k] == Amounts(lines)[..k];
      assert Hours(changed)[..k] == Hours(lines)[..k];
    } else {
      TotalMovesWithLine(lines[..k], id, line);
      assert changed[..k] == lines[..k][id := line];
      assert Amounts(changed)[..k] == Amounts(changed[..k]) && Amounts(lines)[..k] == Amounts(lines[..k]);
      assert Hours(changed)[..k] == Hours(changed[..k]) && Hours(lines)[..k] == Hours(lines[..k]);
    }
  }

  /**
    What a review does to the bill: excluding takes off what the line was worth, adjusting makes it
    the figure agreed (unless the line is off), restoring puts back what it comes to. The hours stay.
   */
  lemma RevisionsMoveTotal(s: Snapshot, id: LineId, to: Money, reason: string)
    ensures AfterExclude(s, id, reason).Ok? ==>
      Total(AfterExclude(s, id, reason).value.lines) == Total(s.lines) - LineAmount(s.lines[id])
    ensures AfterAdjust(s, id, to, reason).Ok? ==>
      && to.minor >= 0
      && Total(AfterAdjust(s, id, to, reason).value.lines)
         == Total(s.lines) - LineAmount(s.lines[id]) + if s.lines[id].excluded then 0 else to.minor
    ensures AfterRestore(s, id).Ok? ==>
      Total(AfterRestore(s, id).value.lines)
      == Total(s.lines) + if s.lines[id].adjustedTo.Some? then s.lines[id].adjustedTo.value.minor else AsWorked(s.lines[id])
    ensures AfterExclude(s, id, reason).Ok? ==> TotalWorked(AfterExclude(s, id, reason).value.lines) == TotalWorked(s.lines)
    ensures AfterAdjust(s, id, to, reason).Ok? ==> TotalWorked(AfterAdjust(s, id, to, reason).value.lines) == TotalWorked(s.lines)
    ensures AfterRestore(s, id).Ok? ==> TotalWorked(AfterRestore(s, id).value.lines) == TotalWorked(s.lines)
  {
    if id < |s.lines| {
      var line := s.lines[id];
      TotalMovesWithLine(s.lines, id, line.(excluded := true, excludedReason := Some(Trim(reason))));
      TotalMovesWithLine(s.lines, id, line.(adjustedTo := Some(to), adjustedReason := Some(Trim(reason))));
      TotalMovesWithLine(s.lines, id, line.(excluded := false, excludedReason := None));
    }
  }

  // ----- When each call goes through, and what it leaves -----

  /** The same but for one line. */
  predicate OnlyLine(s: Snapshot, t: Snapshot, id: LineId) {
    && t == s.(lines := t.lines) && |t.lines| == |s.lines|
    && forall l :: 0 <= l < |s.lines| && l != id ==> t.lines[l] == s.lines[l]
  }

  /** A line is excluded exactly if the statement is a draft, three characters of reason remain, and the line is there. */
  lemma ExcludedIff(s: Snapshot, id: LineId, reason: string)
    ensures AfterExclude(s, id, reason).Ok? <==> s.state == Draft && |Trim(reason)| >= 3 && id < |s.lines|
    ensures AfterExclude(s, id, reason).Ok? ==>
      var t := AfterExclude(s, id, reason).value;
      && OnlyLine(s, t, id)
      && t.lines[id] == s.lines[id].(excluded := true, excludedReason := Some(Trim(reason)))
      && LineAmount(t.lines[id]) == 0
  {}

  /** It is adjusted exactly if, besides, the figure is in the statement's currency and not below zero. */
  lemma AdjustedIff(s: Snapshot, id: LineId, to: Money, reason: string)
    ensures AfterAdjust(s, id, to, reason).Ok? <==>
      s.state == Draft && |Trim(reason)| >= 3 && id < |s.lines| && to.currency == s.currency && to.minor >= 0
    ensures AfterAdjust(s, id, to, reason).Ok? ==>
      var t := AfterAdjust(s, id, to, reason).value;
      && OnlyLine(s, t, id)
      && t.lines[id] == s.lines[id].(adjustedTo := Some(to), adjustedReason := Some(Trim(reason)))
      && (!s.lines[id].excluded ==> LineAmount(t.lines[id]) == to.minor)
  {}

  lemma RestoredIff(s: Snapshot, id: LineId)
    ensures AfterRestore(s, id).Ok? <==> s.state == Draft && id < |s.lines| && s.lines[id].excluded
    ensures AfterRestore(s, id).Ok? ==>
      OnlyLine(s, AfterRestore(s, id).value, id)
      && AfterRestore(s, id).value.lines[id] == s.lines[id].(excluded := false, excludedReason := None)
  {}

  /** Which way a statement may go from each state, and what is noted on the way. */
  lemma MovesIff(s: Snapshot, user: string, now: Instant, reason: string)
    ensures AfterApprove(s, user, now).Ok? ==>
      AfterApprove(s, user, now).value == s.(state := Approved, approvedAt := Some(now), approvedBy := Some(user))
    ensures AfterReopen(s).Ok? <==> s.state == Approved
    ensures AfterReopen(s).Ok? ==> AfterReopen(s).value == s.(state := Draft, approvedAt := None, approvedBy := None)
    ensures AfterMarkInvoiced(s).Ok? <==> s.state == Approved
    ensures AfterMarkInvoiced(s).Ok? ==> AfterMarkInvoiced(s).value == s.(state := Invoiced)
    ensures AfterCancel(s, reason).Ok? <==> s.state != Invoiced && |Trim(reason)| >= 3
    ensures AfterCancel(s, reason).Ok? ==> AfterCancel(s, reason).value == s.(state := Cancelled)
  {}

  /** What a refused call is told: of what is wrong, the first in this order. */
  lemma WhyRefused(s: Snapshot, id: LineId, to: Money, reason: string, user: string, now: Instant)
    ensures AfterExclude(s, id, reason).Err? ==>
      AfterExclude(s, id, reason).error == if s.state != Draft then NotDraft else if |Trim(reason)| < 3 then NoReason else NoSuchLine
    ensures AfterAdjust(s, id, to, reason).Err? ==>
      AfterAdjust(s, id, to, reason).error ==
        if to.currency != s.currency then ForeignCurrency else if to.minor < 0 then NegativeAdjustment
        else if s.state != Draft then NotDraft else if |Trim(reason)| < 3 then NoReason else NoSuchLine
    ensures AfterRestore(s, id).Err? ==>
      AfterRestore(s, id).error == if s.state != Draft then NotDraft else if id >= |s.lines| then NoSuchLine else NotExcluded
    ensures AfterApprove(s, user, now).Err? ==>
      AfterApprove(s, user, now).error == if s.state != Draft then NotDraft else if s.lines == [] then NothingOnIt else NothingToBill
    ensures AfterCancel(s, reason).Err? ==>
      AfterCancel(s, reason).error == if s.state == Invoiced then AlreadyInvoiced else NoReason
  {}
}
