/** An offer: written as a draft, sent once, then answered once or left to lapse. */
module Quotation {
  import opened Wrappers
  import opened Rounding
  import opened Money
  import opened Text

  type Instant = int

  datatype QuotationState = Draft | Sent | Accepted | Declined | Expired
  datatype SentVia = Email | ByHand
  datatype DecidedBy = Client | Staff

  datatype LinePricing = Hours(hours: real, perHour: Money) | FixedPrice(amount: Money)

  /** `vatBasisPoints` is None for a line outside VAT, and Some(0) for one taxed at nothing. */
  datatype QuotationLine = QuotationLine(
    id: nat, serviceCode: Option<string>, descriptionEn: string, descriptionAr: string, pricing: LinePricing,
    discount: Money, vatBasisPoints: Option<int>)

  /** The digest of a link token: nothing but the token has it, and it is all that is kept. */
  datatype Digest = DigestOf(token: string)

  datatype Snapshot = Snapshot(
    client: string, branchCode: Option<string>, reference: string, state: QuotationState, currency: Currency,
    lines: seq<QuotationLine>, validUntil: Option<Instant>, sentAt: Option<Instant>, sentVia: Option<SentVia>,
    linkTokenHash: Option<Digest>, linkExpiresAt: Option<Instant>, linkOpenedAt: Option<Instant>,
    decidedBy: Option<DecidedBy>, decidedAt: Option<Instant>, notesEn: Option<string>, notesAr: Option<string>,
    createdBy: string, createdAt: Instant)

  datatype Conflict =
    | NoReference | NotDraft | NoDescription | ForeignCurrency | NegativeLine | NoHours | NegativeDiscount
    | DiscountTooBig | NotAVatRate | NoSuchLine | NotADraft | NoLines | AlreadyLapsed | AlreadyAnswered
    | LinkTooShort | NotOutWithClient | NotLapsed

  // ----- The figures of a line -----

  /** `Math.round(hours * 100)`, which takes a half upward. */
  function Centi(hours: real): int {
    (hours * 100.0 + 0.5).Floor
  }

  function QuotedPrice(pricing: LinePricing): Money {
    match pricing
    case FixedPrice(amount) => amount
    case Hours(hours, perHour) => Money(ScaleByRatio(perHour.minor, Centi(hours), 100), perHour.currency)
  }

  function LineNet(line: QuotationLine): int {
    QuotedPrice(line.pricing).minor - line.discount.minor
  }

  function LineVat(line: QuotationLine): int {
    if line.vatBasisPoints.None? then 0 else Percentage(LineNet(line), line.vatBasisPoints.value)
  }

  function LineChargeable(line: QuotationLine): int {
    LineNet(line) + LineVat(line)
  }

  function Each(lines: seq<QuotationLine>, figure: QuotationLine -> int): seq<int> {
    seq(|lines|, i requires 0 <= i < |lines| => figure(lines[i]))
  }

  function Subtotal(lines: seq<QuotationLine>): int {
    Sum(Each(lines, (line: QuotationLine) => QuotedPrice(line.pricing).minor))
  }

  function DiscountTotal(lines: seq<QuotationLine>): int {
    Sum(Each(lines, (line: QuotationLine) => line.discount.minor))
  }

  function Net(lines: seq<QuotationLine>): int {
    Sum(Each(lines, LineNet))
  }

  function VatTotal(lines: seq<QuotationLine>): int {
    Sum(Each(lines, LineVat))
  }

  function Total(lines: seq<QuotationLine>): int {
    Sum(Each(lines, LineChargeable))
  }

  // ----- What each operation makes of a quotation -----

  function Tidy(notes: Option<string>): Option<string> {
    if notes.None? || Trim(notes.value) == "" then None else Some(Trim(notes.value))
  }

  function AfterDraft(client: string, reference: string, currency: Currency, createdBy: string, branchCode: Option<string>,
                      validUntil: Option<Instant>, notesEn: Option<string>, notesAr: Option<string>, now: Instant):
    Result<Snapshot, Conflict>
  {
    if |Trim(reference)| == 0 then Err(NoReference)
    else Ok(Snapshot(client, branchCode, Trim(reference), Draft, currency, [], validUntil, None, None, None, None, None,
                     None, None, Tidy(notesEn), Tidy(notesAr), createdBy, now))
  }

  /** The first thing wrong with a line offered for this quotation. */
  function LineFault(line: QuotationLine, currency: Currency): Option<Conflict> {
    var amount := QuotedPrice(line.pricing);
    if |Trim(line.descriptionEn)| == 0 && |Trim(line.descriptionAr)| == 0 then Some(NoDescription)
    else if amount.currency != currency || line.discount.currency != currency then Some(ForeignCurrency)
    else if amount.minor < 0 then Some(NegativeLine)
    else if line.pricing.Hours? && line.pricing.hours <= 0.0 then Some(NoHours)
    else if line.discount.minor < 0 then Some(NegativeDiscount)
    else if line.discount.minor > amount.minor then Some(DiscountTooBig)
    else if line.vatBasisPoints.Some? && (line.vatBasisPoints.value < 0 || line.vatBasisPoints.value > BASIS_POINTS) then
      Some(NotAVatRate)
    else None
  }

  function AfterAddLine(s: Snapshot, line: QuotationLine): Result<Snapshot, Conflict> {
    if s.state != Draft then Err(NotDraft)
    else match LineFault(line, s.currency)
      case Some(fault) => Err(fault)
      case None => Ok(s.(lines := s.lines + [line]))
  }

  function AfterSetBranch(s: Snapshot, branchCode: Option<string>): Result<Snapshot, Conflict> {
    if s.state != Draft then Err(NotDraft) else Ok(s.(branchCode := branchCode))
  }

  function Without(lines: seq<QuotationLine>, id: nat): (rest: seq<QuotationLine>)
    ensures |rest| <= |lines|
  {
    if lines == [] then []
    else
      var init, last := Without(lines[..|lines| - 1], id), lines[|lines| - 1];
      if last.id == id then init else init + [last]
  }

  function AfterRemoveLine(s: Snapshot, id: nat): Result<Snapshot, Conflict> {
    if s.state != Draft then Err(NotDraft)
    else if |Without(s.lines, id)| == |s.lines| then Err(NoSuchLine)
    else Ok(s.(lines := Without(s.lines, id)))
  }

  function SendFault(s: Snapshot, now: Instant): Option<Conflict> {
    if s.state != Draft then Some(NotADraft)
    else if |s.lines| == 0 then Some(NoLines)
    else if s.validUntil.Some? && s.validUntil.value <= now then Some(AlreadyLapsed)
    else None
  }

  function AfterSend(s: Snapshot, now: Instant, via: SentVia): Result<Snapshot, Conflict> {
    match SendFault(s, now)
    case Some(fault) => Err(fault)
    case None => Ok(s.(state := Sent, sentAt := Some(now), sentVia := Some(via)))
  }

  function AfterDecide(s: Snapshot, answer: QuotationState, now: Instant, who: DecidedBy): Result<Snapshot, Conflict> {
    if s.state != Sent then Err(NotOutWithClient)
    else Ok(s.(state := answer, decidedAt := Some(now), decidedBy := Some(who)))
  }

  function AfterIssueLink(s: Snapshot, hash: Digest, expiresAt: Instant, now: Instant): Result<Snapshot, Conflict> {
    if s.state == Accepted || s.state == Declined then Err(AlreadyAnswered)
    else if expiresAt <= now then Err(LinkTooShort)
    else Ok(s.(linkTokenHash := Some(hash), linkExpiresAt := Some(expiresAt)))
  }

  function AfterOpened(s: Snapshot, now: Instant): Snapshot {
    if s.linkOpenedAt.Some? then s else s.(linkOpenedAt := Some(now))
  }

  predicate LinkLive(s: Snapshot, now: Instant) {
    s.linkTokenHash.Some? && s.linkExpiresAt.Some? && s.linkExpiresAt.value > now
  }

  function AfterExpire(s: Snapshot, now: Instant): Result<Snapshot, Conflict> {
    if s.state != Sent then Err(NotOutWithClient)
    else if s.validUntil.None? || s.validUntil.value > now then Err(NotLapsed)
    else Ok(s.(state := Expired))
  }

  /** A call either goes through and leaves the state it should, or is refused and leaves it alone. */
  ghost predicate Became(before: Snapshot, after: Snapshot, should: Result<Snapshot, Conflict>, said: Result<(), Conflict>) {
    match should
    case Ok(s) => after == s && said == Ok(())
    case Err(e) => after == before && said == Err(e)
  }

  class Quotation {
    var state: Snapshot

    constructor (state: Snapshot)
      ensures this.state == state
    {
      this.state := state;
    }

    method AddLine(line: QuotationLine) returns (r: Result<(), Conflict>)
      modifies this
      ensures Became(old(state), state, AfterAddLine(old(state), line), r)
    {
      if state.state != Draft {
        return Err(NotDraft);
      }
      if |Trim(line.descriptionEn)| == 0 && |Trim(line.descriptionAr)| == 0 {
        return Err(NoDescription);
      }
      var amount := QuotedPrice(line.pricing);
      if amount.currency != state.currency || line.discount.currency != state.currency {
        return Err(ForeignCurrency);
      }
      if amount.minor < 0 {
        return Err(NegativeLine);
      }
      if line.pricing.Hours? && line.pricing.hours <= 0.0 {
        return Err(NoHours);
      }
      if line.discount.minor < 0 {
        return Err(NegativeDiscount);
      }
      if line.discount.minor > amount.minor {
        return Err(DiscountTooBig);
      }
      if line.vatBasisPoints.Some? && (line.vatBasisPoints.value < 0 || line.vatBasisPoints.value > BASIS_POINTS) {
        return Err(NotAVatRate);
      }
      state := state.(lines := state.lines + [line]);
      return Ok(());
    }

    method SetBranch(branchCode: Option<string>) returns (r: Result<(), Conflict>)
      modifies this
      ensures Became(old(state), state, AfterSetBranch(old(state), branchCode), r)
    {
      if state.state != Draft {
        return Err(NotDraft);
      }
      if branchCode != state.branchCode {
        state := state.(branchCode := branchCode);
      }
      return Ok(());
    }

    method RemoveLine(id: nat) returns (r: Result<(), Conflict>)
      modifies this
      ensures Became(old(state), state, AfterRemoveLine(old(state), id), r)
    {
      if state.state != Draft {
        return Err(NotDraft);
      }
      var remaining := [];
      for l := 0 to |state.lines|
        invariant remaining == Without(state.lines[..l], id)
      {
        if state.lines[l].id != id {
          remaining := remaining + [state.lines[l]];
        }
        assert state.lines[..l + 1][..l] == state.lines[..l];
      }
      assert state.lines[..|state.lines|] == state.lines;
      if |remaining| == |state.lines| {
        return Err(NoSuchLine);
      }
      state := state.(lines := remaining);
      return Ok(());
    }

    method CanSend(now: Instant) returns (r: Result<(), Conflict>)
      ensures r == match SendFault(state, now) case Some(fault) => Err(fault) case None => Ok(())
    {
      if state.state != Draft {
        return Err(NotADraft);
      }
      if |state.lines| == 0 {
        return Err(NoLines);
      }
      if state.validUntil.Some? && state.validUntil.value <= now {
        return Err(AlreadyLapsed);
      }
      return Ok(());
    }

    method Send(now: Instant, via: SentVia) returns (r: Result<(), Conflict>)
      modifies this
      ensures Became(old(state), state, AfterSend(old(state), now, via), r)
    {
      r := CanSend(now);
      if r.Ok? {
        state := state.(state := Sent, sentAt := Some(now), sentVia := Some(via));
      }
    }

    method Accept(now: Instant, who: DecidedBy) returns (r: Result<(), Conflict>)
      modifies this
      ensures Became(old(state), state, AfterDecide(old(state), Accepted, now, who), r)
    {
      r := Decide(Accepted, now, who);
    }

    method Decline(now: Instant, who: DecidedBy) returns (r: Result<(), Conflict>)
      modifies this
      ensures Became(old(state), state, AfterDecide(old(state), Declined, now, who), r)
    {
      r := Decide(Declined, now, who);
    }

    method Decide(answer: QuotationState, now: Instant, who: DecidedBy) returns (r: Result<(), Conflict>)
      modifies this
      ensures Became(old(state), state, AfterDecide(old(state), answer, now, who), r)
    {
      if state.state != Sent {
        return Err(NotOutWithClient);
      }
      state := state.(state := answer, decidedAt := Some(now), decidedBy := Some(who));
      return Ok(());
    }

    method IssueLink(hash: Digest, expiresAt: Instant, now: Instant) returns (r: Result<(), Conflict>)
      modifies this
      ensures Became(old(state), state, AfterIssueLink(old(state), hash, expiresAt, now), r)
    {
      if state.state == Accepted || state.state == Declined {
        return Err(AlreadyAnswered);
      }
      if expiresAt <= now {
        return Err(LinkTooShort);
      }
      state := state.(linkTokenHash := Some(hash), linkExpiresAt := Some(expiresAt));
      return Ok(());
    }

    method OpenedByClient(now: Instant)
      modifies this
      ensures state == AfterOpened(old(state), now)
    {
      if state.linkOpenedAt.Some? {
        return;
      }
      state := state.(linkOpenedAt := Some(now));
    }

    method Expire(now: Instant) returns (r: Result<(), Conflict>)
      modifies this
      ensures Became(old(state), state, AfterExpire(old(state), now), r)
    {
      if state.state != Sent {
        return Err(NotOutWithClient);
      }
      if state.validUntil.None? || state.validUntil.value > now {
        return Err(NotLapsed);
      }
      state := state.(state := Expired);
      return Ok(());
    }
  }

  // ----- What the figures on an offer have to do with one another -----

  ghost predicate SoundLines(lines: seq<QuotationLine>, currency: Currency) {
    forall i :: 0 <= i < |lines| ==> LineFault(lines[i], currency).None?
  }

  /** Hours are charged to the nearest hundredth, and hours that are whole hundredths exactly. */
  lemma CentiIsNearest(hours: real, centi: int)
    ensures -0.5 <= hours * 100.0 - Centi(hours) as real < 0.5
    ensures Centi(centi as real / 100.0) == centi
  {
    assert centi as real / 100.0 * 100.0 == centi as real;
  }

  lemma LineAddsUp(line: QuotationLine, currency: Currency)
    requires LineFault(line, currency).None?
    ensures 0 <= line.discount.minor <= QuotedPrice(line.pricing).minor
    ensures 0 <= LineVat(line) <= LineNet(line) <= LineChargeable(line)
  {
    if line.vatBasisPoints.Some? {
      PercentageIsPart(LineNet(line), line.vatBasisPoints.value);
    }
  }

  /**
    The five totals of an offer: the total is the subtotal less what was allowed off plus the VAT,
    nothing more than the subtotal is ever allowed off, and VAT never exceeds what it is charged on.
   */
  lemma {:induction false} OfferAddsUp(lines: seq<QuotationLine>, currency: Currency)
    requires SoundLines(lines, currency)
    ensures Total(lines) == Subtotal(lines) - DiscountTotal(lines) + VatTotal(lines)
    ensures Net(lines) == Subtotal(lines) - DiscountTotal(lines)
    ensures 0 <= DiscountTotal(lines) <= Subtotal(lines)
    ensures 0 <= VatTotal(lines) <= Net(lines) <= Total(lines)
  {
    if lines != [] {
      var init, last := lines[..|lines| - 1], lines[|lines| - 1];
      OfferAddsUp(init, currency);
      LineAddsUp(last, currency);
      LastTerm(lines, (line: QuotationLine) => QuotedPrice(line.pricing).minor);
      LastTerm(lines, (line: QuotationLine) => line.discount.minor);
      LastTerm(lines, LineNet);
      LastTerm(lines, LineVat);
      LastTerm(lines, LineChargeable);
    }
  }

  lemma LastTerm(lines: seq<QuotationLine>, figure: QuotationLine -> int)
    requires lines != []
    ensures Sum(Each(lines, figure)) == Sum(Each(lines[..|lines| - 1], figure)) + figure(lines[|lines| - 1])
  {
    assert Each(lines, figure)[..|lines| - 1] == Each(lines[..|lines| - 1], figure);
  }

  lemma {:induction false} WithoutNone(lines: seq<QuotationLine>, id: nat)
    requires forall i :: 0 <= i < |lines| ==> lines[i].id != id
    ensures Without(lines, id) == lines
  {
    if lines != [] {
      WithoutNone(lines[..|lines| - 1], id);
    }
  }

  lemma {:induction false} WithoutKeeps(lines: seq<QuotationLine>, id: nat, line: QuotationLine)
    ensures line in Without(lines, id) <==> line in lines && line.id != id
  {
    if lines != [] {
      var k := |lines| - 1;
      WithoutKeeps(lines[..k], id, line);
      assert line in lines <==> line in lines[..k] || line == lines[k];
    }
  }

  /** Taking off the line just put on leaves the offer as it was; a line that is not there cannot be taken off. */
  lemma RemovingUndoesAdding(s: Snapshot, line: QuotationLine)
    requires forall i :: 0 <= i < |s.lines| ==> s.lines[i].id != line.id
    ensures AfterAddLine(s, line).Ok? ==> AfterRemoveLine(AfterAddLine(s, line).value, line.id) == Ok(s)
    ensures AfterRemoveLine(s, line.id).Err?
  {
    WithoutNone(s.lines, line.id);
    assert (s.lines + [line])[..|s.lines|] == s.lines;
  }
}
