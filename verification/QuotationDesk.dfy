/**
  Writing, sending and answering quotations: the use cases of the office and of the client who
  holds a link. Each is one unit of work, and a refusal keeps whatever it had already written.
 */
module QuotationDesk {
  import opened Wrappers
  import opened Listing
  import opened Money
  import opened Text
  import opened Quotation

  type QuotationId = nat

  const DAY: int := 86_400_000

  datatype Desk = Desk(quotations: seq<Snapshot>, nextNumber: nat)

  datatype DeskConflict =
    | ReferenceTaken | NotABranch | ChooseABranch | NoSuchQuotation | HowIsItPriced | NoEmailAddress
    | NotWithClient | LinkUnavailable | TableRefused | Refused(conflict: Conflict)

  // ----- What the tables keep -----

  /** Hours are kept as whole hundredths, and the day an offer lapses as a date. */
  function StoredLine(line: QuotationLine): QuotationLine {
    if line.pricing.Hours? then
      line.(pricing := Hours(Centi(line.pricing.hours) as real / 100.0, line.pricing.perHour))
    else line
  }

  function StoredLines(lines: seq<QuotationLine>): seq<QuotationLine> {
    seq(|lines|, i requires 0 <= i < |lines| => StoredLine(lines[i]))
  }

  /** The UTC date of a moment, as its midnight. */
  function DateOf(moment: Instant): Instant {
    moment - moment % DAY
  }

  function Stored(s: Snapshot): Snapshot {
    s.(lines := StoredLines(s.lines),
       validUntil := if s.validUntil.None? then None else Some(DateOf(s.validUntil.value)))
  }

  /** The line table's checks. */
  predicate Storable(line: QuotationLine) {
    && (match line.pricing
        case Hours(hours, perHour) => Centi(hours) > 0 && perHour.minor >= 0
        case FixedPrice(amount) => amount.minor >= 0)
    && 0 <= line.discount.minor <= QuotedPrice(line.pricing).minor
    && (line.vatBasisPoints.Some? ==> 0 <= line.vatBasisPoints.value <= BASIS_POINTS)
    && (|Trim(line.descriptionEn)| > 0 || |Trim(line.descriptionAr)| > 0)
  }

  predicate AllStorable(lines: seq<QuotationLine>) {
    forall i :: 0 <= i < |lines| ==> Storable(lines[i])
  }

  /** The quotation table's checks. */
  predicate RowHolds(s: Snapshot) {
    && |Trim(s.reference)| > 0
    && (s.state == Draft <==> s.sentAt.None?)
    && (s.state in {Accepted, Declined} <==> s.decidedAt.Some?)
    && (s.state == Expired ==> s.validUntil.Some?)
    && (s.sentAt.Some? ==> s.sentVia.Some?)
    && (s.linkTokenHash.None? <==> s.linkExpiresAt.None?)
  }

  function Saved(d: Desk, id: QuotationId, s: Snapshot): Desk
    requires id < |d.quotations|
  {
    d.(quotations := d.quotations[id := Stored(s)])
  }

  // ----- The office's use cases -----

  datatype DraftRequest = DraftRequest(
    client: string, branchCode: Option<string>, reference: Option<string>, currency: Currency,
    validUntil: Option<Instant>, notesEn: Option<string>, notesAr: Option<string>,
    liveBranches: set<string>, createdBy: string, now: Instant)

  predicate Draws(r: DraftRequest) {
    r.reference.None? || Trim(r.reference.value) == ""
  }

  function ReferenceFor(d: Desk, r: DraftRequest): string {
    if Draws(r) then PrintNat(d.nextNumber) else Trim(r.reference.value)
  }

  predicate Taken(d: Desk, reference: string) {
    exists i :: 0 <= i < |d.quotations| && d.quotations[i].reference == reference
  }

  function Numbered(d: Desk, r: DraftRequest): Desk {
    if Draws(r) then d.(nextNumber := d.nextNumber + 1) else d
  }

  function AfterDrafting(d: Desk, r: DraftRequest): (Desk, Result<QuotationId, DeskConflict>) {
    var drawn, reference := Numbered(d, r), ReferenceFor(d, r);
    if Taken(d, reference) then (drawn, Err(ReferenceTaken))
    else if r.branchCode.Some? && r.branchCode.value !in r.liveBranches then (drawn, Err(NotABranch))
    else match AfterDraft(r.client, reference, r.currency, r.createdBy, r.branchCode, r.validUntil, r.notesEn, r.notesAr, r.now)
      case Err(e) => (drawn, Err(Refused(e)))
      case Ok(s) => (drawn.(quotations := d.quotations + [Stored(s)]), Ok(|d.quotations|))
  }

  datatype LineCommand = LineCommand(
    lineId: nat, serviceCode: Option<string>, descriptionEn: Option<string>, descriptionAr: Option<string>,
    hours: Option<real>, perHourMinor: Option<int>, amountMinor: Option<int>, discountMinor: Option<int>,
    standardRated: bool)

  /** Exactly one of the two ways of pricing must be filled in; half of the first way counts as not. */
  function PriceIt(c: LineCommand, currency: Currency): Option<LinePricing> {
    var byHours := c.hours.Some? && c.perHourMinor.Some?;
    if byHours == c.amountMinor.Some? then None
    else if byHours then Some(Hours(c.hours.value, Money(c.perHourMinor.value, currency)))
    else Some(FixedPrice(Money(c.amountMinor.value, currency)))
  }

  function TrimmedOr(text: Option<string>): string {
    if text.Some? then Trim(text.value) else ""
  }

  function LineOf(c: LineCommand, pricing: LinePricing, currency: Currency, vatBasisPoints: int): QuotationLine {
    QuotationLine(c.lineId, c.serviceCode, TrimmedOr(c.descriptionEn), TrimmedOr(c.descriptionAr), pricing,
                  Money(if c.discountMinor.Some? then c.discountMinor.value else 0, currency),
                  if c.standardRated then Some(vatBasisPoints) else None)
  }

  /** A check the table makes throws, and takes the whole unit of work back. */
  function AfterAdding(d: Desk, id: QuotationId, c: LineCommand, vatBasisPoints: int): (Desk, Result<(), DeskConflict>) {
    if id >= |d.quotations| then (d, Err(NoSuchQuotation))
    else
      var s := d.quotations[id];
      match PriceIt(c, s.currency)
      case None => (d, Err(HowIsItPriced))
      case Some(pricing) =>
        match AfterAddLine(s, LineOf(c, pricing, s.currency, vatBasisPoints))
        case Err(e) => (d, Err(Refused(e)))
        case Ok(t) => if AllStorable(t.lines) then (Saved(d, id, t), Ok(())) else (d, Err(TableRefused))
  }

  datatype Change =
    | SetBranch(branchCode: Option<string>)
    | RemoveLine(line: nat)
    | Accept(now: Instant)
    | Decline(now: Instant)

  function Changed(s: Snapshot, change: Change): Result<Snapshot, Conflict> {
    match change
    case SetBranch(branchCode) => AfterSetBranch(s, branchCode)
    case RemoveLine(line) => AfterRemoveLine(s, line)
    case Accept(now) => AfterDecide(s, Accepted, now, Staff)
    case Decline(now) => AfterDecide(s, Declined, now, Staff)
  }

  function AfterChange(d: Desk, id: QuotationId, change: Change, liveBranches: set<string>): (Desk, Result<(), DeskConflict>) {
    if change.SetBranch? && change.branchCode.Some? && change.branchCode.value !in liveBranches then (d, Err(NotABranch))
    else if id >= |d.quotations| then (d, Err(NoSuchQuotation))
    else match Changed(d.quotations[id], change)
      case Err(e) => (d, Err(Refused(e)))
      case Ok(s) => (Saved(d, id, s), Ok(()))
  }

  /** The clock is read again at every step of sending, and the mail takes its time in between. */
  datatype SendRequest = SendRequest(
    deliver: bool, anyLiveBranch: bool, token: string, linkDays: int, asked: Instant, issued: Instant, sent: Instant,
    channel: Option<SentVia>)

  datatype Sending = Sending(desk: Desk, outcome: Result<SentVia, DeskConflict>, emailed: bool)

  function AfterSending(d: Desk, id: QuotationId, r: SendRequest): Sending {
    if id >= |d.quotations| then Sending(d, Err(NoSuchQuotation), false)
    else
      var s := d.quotations[id];
      if SendFault(s, r.asked).Some? then Sending(d, Err(Refused(SendFault(s, r.asked).value)), false)
      else if s.branchCode.None? && r.anyLiveBranch then Sending(d, Err(ChooseABranch), false)
      else if !r.deliver then Finished(d, id, s, ByHand, r.sent, false)
      else match AfterIssueLink(s, DigestOf(r.token), r.issued + r.linkDays * DAY, r.issued)
        case Err(e) => Sending(d, Err(Refused(e)), false)
        case Ok(linked) =>
          if r.channel.None? then Sending(d, Err(NoEmailAddress), false)
          else Finished(d, id, linked, r.channel.value, r.sent, true)
  }

  function Finished(d: Desk, id: QuotationId, s: Snapshot, via: SentVia, now: Instant, emailed: bool): Sending
    requires id < |d.quotations|
  {
    match AfterSend(s, now, via)
    case Err(e) => Sending(d, Err(Refused(e)), emailed)
    case Ok(t) => Sending(Saved(d, id, t), Ok(via), emailed)
  }

  function AfterSendAgain(d: Desk, id: QuotationId, token: string, linkDays: int, now: Instant, channel: Option<SentVia>):
    (Desk, Result<(), DeskConflict>)
  {
    if id >= |d.quotations| then (d, Err(NoSuchQuotation))
    else if d.quotations[id].state != Sent then (d, Err(NotWithClient))
    else match AfterIssueLink(d.quotations[id], DigestOf(token), now + linkDays * DAY, now)
      case Err(e) => (d, Err(Refused(e)))
      case Ok(linked) => if channel.None? then (d, Err(NoEmailAddress)) else (Saved(d, id, linked), Ok(()))
  }

  // ----- The expiry sweep -----

  /** The column is a date, so the query compares dates: an offer is listed from the day after its last. */
  predicate Lapsed(s: Snapshot, asOf: Instant) {
    s.state == Sent && s.validUntil.Some? && s.validUntil.value < DateOf(asOf)
  }

  /** Those out and lapsed, the longest lapsed first. */
  function LapsedKeys(quotations: seq<Snapshot>, asOf: Instant): Keys {
    seq(|quotations|, i requires 0 <= i < |quotations| =>
      if Lapsed(quotations[i], asOf) then Some(quotations[i].validUntil.value) else None)
  }

  /** What `expire` makes of the listed quotations, one after another; a refused one stays as it is. */
  function Expiring(quotations: seq<Snapshot>, ids: seq<QuotationId>, asOf: Instant): seq<Snapshot> {
    if ids == [] then quotations
    else
      var before, id := Expiring(quotations, ids[..|ids| - 1], asOf), ids[|ids| - 1];
      if id < |before| && AfterExpire(before[id], asOf).Ok? then before[id := Stored(AfterExpire(before[id], asOf).value)]
      else before
  }

  /** Every offer the query lists does expire, and no other is touched. */
  lemma {:induction false} ListedExpire(quotations: seq<Snapshot>, ids: seq<QuotationId>, asOf: Instant)
    requires forall n :: 0 <= n < |ids| ==> ids[n] < |quotations| && Lapsed(quotations[ids[n]], asOf)
    requires forall m, n :: 0 <= m < n < |ids| ==> ids[m] != ids[n]
    ensures var after := Expiring(quotations, ids, asOf);
            && |after| == |quotations|
            && forall i :: 0 <= i < |quotations| ==>
                 after[i] == if i in ids then Stored(quotations[i].(state := Expired)) else quotations[i]
  {
    if ids != [] {
      var init, last := ids[..|ids| - 1], ids[|ids| - 1];
      ListedExpire(quotations, init, asOf);
      assert last !in init;
      assert forall i :: i in ids <==> i in init || i == last;
    }
  }

  /** A sweep meets each offer as it was before the sweep began, and it does expire. */
  lemma NextExpires(quotations: seq<Snapshot>, asOf: Instant, limit: nat, ids: seq<QuotationId>, n: nat)
    requires IsFirst(LapsedKeys(quotations, asOf), limit, ids) && n < |ids|
    ensures ids[n] < |quotations| && |Expiring(quotations, ids[..n], asOf)| == |quotations|
    ensures Expiring(quotations, ids[..n], asOf)[ids[n]] == quotations[ids[n]]
    ensures AfterExpire(quotations[ids[n]], asOf).Ok?
  {
    ListedExpire(quotations, ids[..n], asOf);
  }

  // ----- The client's use cases -----

  /** Where the quotation with this digest is, or past the end. */
  function FindByLink(quotations: seq<Snapshot>, hash: Digest): (id: QuotationId)
    ensures id <= |quotations|
    ensures id < |quotations| ==> quotations[id].linkTokenHash == Some(hash)
    ensures forall i :: 0 <= i < id ==> quotations[i].linkTokenHash != Some(hash)
  {
    if quotations == [] then 0
    else if quotations[0].linkTokenHash == Some(hash) then 0
    else 1 + FindByLink(quotations[1..], hash)
  }

  /** The quotation a token opens at that moment. Every way of not opening one reads the same. */
  function Opens(quotations: seq<Snapshot>, token: string, now: Instant): (found: Option<QuotationId>)
    ensures found.Some? ==> found.value < |quotations|
  {
    if |token| == 0 then None
    else
      var id := FindByLink(quotations, DigestOf(token));
      if id < |quotations| && LinkLive(quotations[id], now) then Some(id) else None
  }

  function AfterOpen(d: Desk, token: string, checked: Instant, now: Instant): (Desk, Result<QuotationId, DeskConflict>) {
    match Opens(d.quotations, token, checked)
    case None => (d, Err(LinkUnavailable))
    case Some(id) => (Saved(d, id, AfterOpened(d.quotations[id], now)), Ok(id))
  }

  function AfterAnswer(d: Desk, token: string, accept: bool, checked: Instant, now: Instant): (Desk, Result<QuotationId, DeskConflict>) {
    match Opens(d.quotations, token, checked)
    case None => (d, Err(LinkUnavailable))
    case Some(id) =>
      match AfterDecide(d.quotations[id], if accept then Accepted else Declined, now, Client)
      case Err(e) => (d, Err(Refused(e)))
      case Ok(s) => (Saved(d, id, s), Ok(id))
  }

  // ----- The use cases as they run -----

  class Office {
    var quotations: seq<Snapshot>
    var nextNumber: nat

    ghost function AsDesk(): Desk
      reads this
    {
      Desk(quotations, nextNumber)
    }

    constructor (first: nat)
      ensures AsDesk() == Desk([], first)
    {
      quotations, nextNumber := [], first;
    }

    method Draft(r: DraftRequest) returns (outcome: Result<QuotationId, DeskConflict>)
      modifies this
      ensures (AsDesk(), outcome) == AfterDrafting(old(AsDesk()), r)
    {
      var reference := if r.reference.Some? then Trim(r.reference.value) else "";
      if reference == "" {
        reference := PrintNat(nextNumber);
        nextNumber := nextNumber + 1;
      }
      if exists i :: 0 <= i < |quotations| && quotations[i].reference == reference {
        return Err(ReferenceTaken);
      }
      if r.branchCode.Some? && r.branchCode.value !in r.liveBranches {
        return Err(NotABranch);
      }
      var draft := AfterDraft(r.client, reference, r.currency, r.createdBy, r.branchCode, r.validUntil,
                              r.notesEn, r.notesAr, r.now);
      if draft.Err? {
        return Err(Refused(draft.error));
      }
      quotations := quotations + [Stored(draft.value)];
      return Ok(|quotations| - 1);
    }

    method AddLine(id: QuotationId, c: LineCommand, vatBasisPoints: int) returns (outcome: Result<(), DeskConflict>)
      modifies this
      ensures (AsDesk(), outcome) == AfterAdding(old(AsDesk()), id, c, vatBasisPoints)
    {
      if id >= |quotations| {
        return Err(NoSuchQuotation);
      }
      var quotation := new Quotation(quotations[id]);
      var currency := quotation.state.currency;
      var pricing := PriceIt(c, currency);
      if pricing.None? {
        return Err(HowIsItPriced);
      }
      var added := quotation.AddLine(LineOf(c, pricing.value, currency, vatBasisPoints));
      if added.Err? {
        return Err(Refused(added.error));
      }
      if !AllStorable(quotation.state.lines) {
        return Err(TableRefused);
      }
      quotations := quotations[id := Stored(quotation.state)];
      return Ok(());
    }

    /** Setting the branch, taking off a line, and recording the client's answer. */
    method Apply(id: QuotationId, change: Change, liveBranches: set<string>) returns (outcome: Result<(), DeskConflict>)
      modifies this
      ensures (AsDesk(), outcome) == AfterChange(old(AsDesk()), id, change, liveBranches)
    {
      if change.SetBranch? && change.branchCode.Some? && change.branchCode.value !in liveBranches {
        return Err(NotABranch);
      }
      if id >= |quotations| {
        return Err(NoSuchQuotation);
      }
      var quotation := new Quotation(quotations[id]);
      var done;
      match change {
        case SetBranch(branchCode) => done := quotation.SetBranch(branchCode);
        case RemoveLine(line) => done := quotation.RemoveLine(line);
        case Accept(now) => done := quotation.Accept(now, Staff);
        case Decline(now) => done := quotation.Decline(now, Staff);
      }
      if done.Err? {
        return Err(Refused(done.error));
      }
      quotations := quotations[id := Stored(quotation.state)];
      return Ok(());
    }

    /** Mails first and marks the row afterwards, with the clock read again; a failed mail changes no row. */
    method Send(id: QuotationId, r: SendRequest) returns (outcome: Result<SentVia, DeskConflict>, emailed: bool)
      modifies this
      ensures Sending(AsDesk(), outcome, emailed) == AfterSending(old(AsDesk()), id, r)
    {
      emailed := false;
      if id >= |quotations| {
        return Err(NoSuchQuotation), emailed;
      }
      var quotation := new Quotation(quotations[id]);
      var allowed := quotation.CanSend(r.asked);
      if allowed.Err? {
        return Err(Refused(allowed.error)), emailed;
      }
      if quotation.state.branchCode.None? && r.anyLiveBranch {
        return Err(ChooseABranch), emailed;
      }
      var via := ByHand;
      if r.deliver {
        var issued := quotation.IssueLink(DigestOf(r.token), r.issued + r.linkDays * DAY, r.issued);
        if issued.Err? {
          return Err(Refused(issued.error)), emailed;
        }
        if r.channel.None? {
          return Err(NoEmailAddress), emailed;
        }
        emailed, via := true, r.channel.value;
      }
      var sent := quotation.Send(r.sent, via);
      if sent.Err? {
        return Err(Refused(sent.error)), emailed;
      }
      quotations := quotations[id := Stored(quotation.state)];
      return Ok(via), emailed;
    }

    method SendAgain(id: QuotationId, token: string, linkDays: int, now: Instant, channel: Option<SentVia>)
      returns (outcome: Result<(), DeskConflict>)
      modifies this
      ensures (AsDesk(), outcome) == AfterSendAgain(old(AsDesk()), id, token, linkDays, now, channel)
    {
      if id >= |quotations| {
        return Err(NoSuchQuotation);
      }
      var quotation := new Quotation(quotations[id]);
      if quotation.state.state != QuotationState.Sent {
        return Err(NotWithClient);
      }
      var issued := quotation.IssueLink(DigestOf(token), now + linkDays * DAY, now);
      if issued.Err? {
        return Err(Refused(issued.error));
      }
      if channel.None? {
        return Err(NoEmailAddress);
      }
      quotations := quotations[id := Stored(quotation.state)];
      return Ok(());
    }

    method SweepExpired(asOf: Instant, limit: nat) returns (expired: nat, ids: seq<QuotationId>)
      modifies this
      ensures IsFirst(LapsedKeys(old(quotations), asOf), limit, ids)
      ensures AsDesk() == old(AsDesk()).(quotations := Expiring(old(quotations), ids, asOf))
      ensures expired == |ids|
    {
      ids := List(LapsedKeys(quotations, asOf), limit);
      expired := 0;
      for n := 0 to |ids|
        invariant quotations == Expiring(old(quotations), ids[..n], asOf) && nextNumber == old(nextNumber)
        invariant |quotations| == |old(quotations)| && expired == n
      {
        NextExpires(old(quotations), asOf, limit, ids, n);
        var quotation := new Quotation(quotations[ids[n]]);
        var result := quotation.Expire(asOf);
        if result.Ok? {
          quotations := quotations[ids[n] := Stored(quotation.state)];
          expired := expired + 1;
        }
        assert ids[..n + 1][..n] == ids[..n];
      }
      assert ids[..|ids|] == ids;
    }

    method Find(token: string, now: Instant) returns (found: Option<QuotationId>)
      ensures found == Opens(quotations, token, now)
    {
      if |token| == 0 {
        return None;
      }
      var id := FindByLink(quotations, DigestOf(token));
      if id == |quotations| || !LinkLive(quotations[id], now) {
        return None;
      }
      return Some(id);
    }

    method Open(token: string, checked: Instant, now: Instant) returns (outcome: Result<QuotationId, DeskConflict>)
      modifies this
      ensures (AsDesk(), outcome) == AfterOpen(old(AsDesk()), token, checked, now)
    {
      var found := Find(token, checked);
      if found.None? {
        return Err(LinkUnavailable);
      }
      var quotation := new Quotation(quotations[found.value]);
      quotation.OpenedByClient(now);
      quotations := quotations[found.value := Stored(quotation.state)];
      return Ok(found.value);
    }

    method Answer(token: string, accept: bool, checked: Instant, now: Instant) returns (outcome: Result<QuotationId, DeskConflict>)
      modifies this
      ensures (AsDesk(), outcome) == AfterAnswer(old(AsDesk()), token, accept, checked, now)
    {
      var found := Find(token, checked);
      if found.None? {
        return Err(LinkUnavailable);
      }
      var quotation := new Quotation(quotations[found.value]);
      var answered;
      if accept {
        answered := quotation.Accept(now, Client);
      } else {
        answered := quotation.Decline(now, Client);
      }
      if answered.Err? {
        return Err(Refused(answered.error));
      }
      quotations := quotations[found.value := Stored(quotation.state)];
      return Ok(found.value);
    }
  }
}
