/**
  What every run of the quotation use cases keeps, office and clients together. Beside the tables a
  run knows which tokens were ever made, so that each new one can be one nobody has seen.
 */
module QuotationRuns {
  import opened Wrappers
  import opened Rounding
  import opened Money
  import opened Text
  import opened Quotation
  import opened QuotationDesk
  import L = Listing

  datatype State = State(desk: Desk, made: set<string>)

  datatype Step =
    | Draft(request: DraftRequest)
    | AddLine(id: QuotationId, command: LineCommand, vatBasisPoints: int)
    | Change(id: QuotationId, change: Change, liveBranches: set<string>)
    | Send(id: QuotationId, send: SendRequest)
    | SendAgain(id: QuotationId, token: string, linkDays: int, now: Instant, channel: Option<SentVia>)
    | Sweep(asOf: Instant, limit: nat, ids: seq<QuotationId>)
    | Open(token: string, checked: Instant, now: Instant)
    | Answer(token: string, accept: bool, checked: Instant, now: Instant)

  /** A token is thirty-two random bytes: not empty, and never made twice. */
  ghost predicate Enabled(s: State, step: Step) {
    match step
    case Send(_, send) => send.token != "" && send.token !in s.made
    case SendAgain(_, token, _, _, _) => token != "" && token !in s.made
    case Sweep(asOf, limit, ids) => L.IsFirst(LapsedKeys(s.desk.quotations, asOf), limit, ids)
    case _ => true
  }

  function NextDesk(d: Desk, step: Step): Desk {
    match step
    case Draft(request) => AfterDrafting(d, request).0
    case AddLine(id, command, vatBasisPoints) => AfterAdding(d, id, command, vatBasisPoints).0
    case Change(id, change, liveBranches) => AfterChange(d, id, change, liveBranches).0
    case Send(id, send) => AfterSending(d, id, send).desk
    case SendAgain(id, token, linkDays, now, channel) => AfterSendAgain(d, id, token, linkDays, now, channel).0
    case Sweep(asOf, _, ids) => d.(quotations := Expiring(d.quotations, ids, asOf))
    case Open(token, checked, now) => AfterOpen(d, token, checked, now).0
    case Answer(token, accept, checked, now) => AfterAnswer(d, token, accept, checked, now).0
  }

  function TokenOf(step: Step): Option<string> {
    match step
    case Send(_, send) => if send.deliver then Some(send.token) else None
    case SendAgain(_, token, _, _, _) => Some(token)
    case _ => None
  }

  function Next(s: State, step: Step): State {
    State(NextDesk(s.desk, step), if TokenOf(step).Some? then s.made + {TokenOf(step).value} else s.made)
  }

  ghost predicate Legal(s: State, steps: seq<Step>)
    decreases |steps|
  {
    steps != [] ==> Enabled(s, steps[0]) && Legal(Next(s, steps[0]), steps[1..])
  }

  function Run(s: State, steps: seq<Step>): State
    decreases |steps|
  {
    if steps == [] then s else Run(Next(s, steps[0]), steps[1..])
  }

  // ----- The invariant -----

  ghost predicate QuotationSound(s: Snapshot) {
    && RowHolds(s)
    && SoundLines(s.lines, s.currency) && AllStorable(s.lines)
    && Stored(s) == s
    && (s.state != QuotationState.Draft ==> s.lines != [])
  }

  ghost predicate LinksSound(s: State) {
    && (forall i :: 0 <= i < |s.desk.quotations| && s.desk.quotations[i].linkTokenHash.Some? ==>
          s.desk.quotations[i].linkTokenHash.value.token in s.made)
    && (forall i, j :: 0 <= i < j < |s.desk.quotations| && s.desk.quotations[i].linkTokenHash.Some? ==>
          s.desk.quotations[i].linkTokenHash != s.desk.quotations[j].linkTokenHash)
  }

  ghost predicate ReferencesSound(s: State) {
    forall i, j :: 0 <= i < j < |s.desk.quotations| ==> s.desk.quotations[i].reference != s.desk.quotations[j].reference
  }

  ghost predicate AllSound(d: Desk) {
    forall i :: 0 <= i < |d.quotations| ==> QuotationSound(d.quotations[i])
  }

  ghost predicate Sound(s: State) {
    AllSound(s.desk) && LinksSound(s) && ReferencesSound(s)
  }

  // ----- What one use case may do to one quotation -----

  /** The offer itself: what the client holds once it is sent. */
  predicate SameOffer(a: Snapshot, b: Snapshot) {
    && a.lines == b.lines && a.branchCode == b.branchCode && a.currency == b.currency && a.reference == b.reference
    && a.validUntil == b.validUntil && a.client == b.client && a.notesEn == b.notesEn && a.notesAr == b.notesAr
    && a.createdBy == b.createdBy && a.createdAt == b.createdAt
  }

  predicate SameLink(a: Snapshot, b: Snapshot) {
    a.linkTokenHash == b.linkTokenHash && a.linkExpiresAt == b.linkExpiresAt
  }

  predicate SameAnswer(a: Snapshot, b: Snapshot) {
    a.decidedAt == b.decidedAt && a.decidedBy == b.decidedBy
  }

  /** The states an offer may go through, and what goes with each move. */
  predicate Allowed(a: Snapshot, b: Snapshot) {
    && a.reference == b.reference
    && (a.state != QuotationState.Draft ==> SameOffer(a, b) && a.sentAt == b.sentAt && a.sentVia == b.sentVia)
    && (a.state == QuotationState.Draft ==> b.state in {QuotationState.Draft, Sent} && SameAnswer(a, b))
    && (a.state == Sent ==> b.state in {Sent, Accepted, Declined, Expired})
    && (a.state in {Accepted, Declined, Expired} ==> b.state == a.state && SameAnswer(a, b))
    && (a.state in {Accepted, Declined, Expired} ==> SameLink(a, b))
    && (a.linkOpenedAt.Some? ==> b.linkOpenedAt == a.linkOpenedAt)
  }

  /** The quotation a step puts a new link on, if it does. */
  function Linked(d: Desk, step: Step): Option<QuotationId> {
    match step
    case Send(id, send) => if send.deliver && AfterSending(d, id, send).outcome.Ok? then Some(id) else None
    case SendAgain(id, token, linkDays, now, channel) =>
      if AfterSendAgain(d, id, token, linkDays, now, channel).1.Ok? then Some(id) else None
    case _ => None
  }

  lemma StoredAgain(s: Snapshot)
    ensures Stored(Stored(s)) == Stored(s)
  {
    forall i | 0 <= i < |s.lines| ensures StoredLine(StoredLine(s.lines[i])) == StoredLine(s.lines[i]) {
      StoredCharges(s.lines[i]);
    }
    if s.validUntil.Some? {
      MidnightAgain(s.validUntil.value, DAY);
    }
  }

  lemma MidnightAgain(v: int, day: int)
    requires day > 0
    ensures (v - v % day) - (v - v % day) % day == v - v % day
  {
    var q := v / day;
    assert v - v % day == q * day;
    assert (q * day) % day == 0 by { MultipleLeavesNothing(q, day); }
  }

  lemma MultipleLeavesNothing(q: int, day: int)
    requires day > 0
    ensures (q * day) % day == 0
  {
    var r, p := (q * day) % day, (q * day) / day;
    Distribute(q, -p, day);
    Multiple(q - p, day);
    SameSign(q - p, day);
  }

  /** Keeping the hours in whole hundredths changes nothing anybody is charged. */
  lemma StoredCharges(line: QuotationLine)
    ensures var kept := StoredLine(line);
            && StoredLine(kept) == kept
            && QuotedPrice(kept.pricing) == QuotedPrice(line.pricing)
            && LineNet(kept) == LineNet(line) && LineVat(kept) == LineVat(line) && LineChargeable(kept) == LineChargeable(line)
            && (Storable(line) <==> Storable(kept))
  {
    if line.pricing.Hours? {
      CentiIsNearest(line.pricing.hours, Centi(line.pricing.hours));
    }
  }

  // ----- Each use case, on the quotation it touches -----

  lemma StoringIsSound(t: Snapshot)
    requires RowHolds(t) && SoundLines(t.lines, t.currency) && AllStorable(t.lines)
    requires t.state != QuotationState.Draft ==> t.lines != []
    ensures QuotationSound(Stored(t))
  {
    StoredAgain(t);
    forall i | 0 <= i < |t.lines|
      ensures Storable(Stored(t).lines[i]) && LineFault(Stored(t).lines[i], t.currency).None?
    {
      StoredCharges(t.lines[i]);
    }
  }

  /** Fits(a, b): a sound quotation became another sound one, by a move it may make. */
  ghost predicate Fits(a: Snapshot, b: Snapshot) {
    QuotationSound(b) && Allowed(a, b)
  }

  lemma AddingFits(q: Snapshot, line: QuotationLine)
    requires QuotationSound(q) && AfterAddLine(q, line).Ok? && AllStorable(AfterAddLine(q, line).value.lines)
    ensures Fits(q, Stored(AfterAddLine(q, line).value)) && SameLink(q, Stored(AfterAddLine(q, line).value))
  {
    StoringIsSound(AfterAddLine(q, line).value);
  }

  lemma RemovingFits(q: Snapshot, id: nat)
    requires QuotationSound(q) && AfterRemoveLine(q, id).Ok?
    ensures Fits(q, Stored(AfterRemoveLine(q, id).value)) && SameLink(q, Stored(AfterRemoveLine(q, id).value))
  {
    var t := AfterRemoveLine(q, id).value;
    forall i | 0 <= i < |t.lines| ensures LineFault(t.lines[i], t.currency).None? && Storable(t.lines[i]) {
      WithoutKeeps(q.lines, id, t.lines[i]);
      assert t.lines[i] in q.lines;
    }
    StoringIsSound(t);
  }

  lemma ChangeFits(q: Snapshot, change: Change)
    requires QuotationSound(q) && Changed(q, change).Ok?
    ensures Fits(q, Stored(Changed(q, change).value)) && SameLink(q, Stored(Changed(q, change).value))
  {
    if change.RemoveLine? {
      RemovingFits(q, change.line);
    }
  }

  lemma DecidingFits(q: Snapshot, answer: QuotationState, now: Instant, who: DecidedBy)
    requires QuotationSound(q) && AfterDecide(q, answer, now, who).Ok? && answer in {Accepted, Declined}
    ensures Fits(q, Stored(AfterDecide(q, answer, now, who).value)) && SameLink(q, Stored(AfterDecide(q, answer, now, who).value))
  {}

  lemma ExpiringFits(q: Snapshot)
    requires QuotationSound(q) && q.state == Sent && q.validUntil.Some?
    ensures Fits(q, Stored(q.(state := Expired))) && SameLink(q, Stored(q.(state := Expired)))
  {}

  // ----- Each use case, on the tables -----

  /** The digest on a quotation once the step is done. */
  function HashOn(d: Desk, step: Step, id: QuotationId): Option<Digest>
    requires id < |d.quotations|
  {
    if Linked(d, step) == Some(id) then Some(DigestOf(TokenOf(step).value)) else d.quotations[id].linkTokenHash
  }

  /** Everything already there made an allowed move, and has a new link exactly if the step put one on. */
  ghost predicate Moved(d: Desk, after: Desk, step: Step) {
    && |d.quotations| <= |after.quotations|
    && (forall i :: 0 <= i < |d.quotations| ==> Fits(d.quotations[i], after.quotations[i]))
    && (forall i :: 0 <= i < |d.quotations| ==> after.quotations[i].linkTokenHash == HashOn(d, step, i))
  }

  lemma Unmoved(d: Desk, step: Step)
    requires AllSound(d) && Linked(d, step).None?
    ensures Moved(d, d, step)
  {}

  lemma OneMoved(d: Desk, step: Step, id: QuotationId, t: Snapshot)
    requires AllSound(d) && id < |d.quotations| && Fits(d.quotations[id], Stored(t))
    requires t.linkTokenHash == HashOn(d, step, id)
    requires Linked(d, step).None? || Linked(d, step) == Some(id)
    ensures Moved(d, Saved(d, id, t), step)
  {
    var after := Saved(d, id, t);
    forall i | 0 <= i < |d.quotations|
      ensures Fits(d.quotations[i], after.quotations[i]) && after.quotations[i].linkTokenHash == HashOn(d, step, i)
    {
      if i != id { FitsItself(d.quotations[i]); }
    }
  }

  lemma FitsItself(q: Snapshot)
    requires QuotationSound(q)
    ensures Fits(q, q)
  {}

  lemma AddLineMoves(d: Desk, step: Step)
    requires AllSound(d) && step.AddLine?
    ensures Moved(d, NextDesk(d, step), step) && |NextDesk(d, step).quotations| == |d.quotations|
  {
    if AfterAdding(d, step.id, step.command, step.vatBasisPoints).1.Ok? {
      var q := d.quotations[step.id];
      var line := LineOf(step.command, PriceIt(step.command, q.currency).value, q.currency, step.vatBasisPoints);
      AddingFits(q, line);
      OneMoved(d, step, step.id, AfterAddLine(q, line).value);
    } else {
      Unmoved(d, step);
    }
  }

  lemma ChangeMoves(d: Desk, step: Step)
    requires AllSound(d) && step.Change?
    ensures Moved(d, NextDesk(d, step), step) && |NextDesk(d, step).quotations| == |d.quotations|
  {
    if AfterChange(d, step.id, step.change, step.liveBranches).1.Ok? {
      ChangeFits(d.quotations[step.id], step.change);
      OneMoved(d, step, step.id, Changed(d.quotations[step.id], step.change).value);
    } else {
      Unmoved(d, step);
    }
  }

  lemma SendingFits(q: Snapshot, s: Snapshot, now: Instant, via: SentVia)
    requires QuotationSound(q) && AfterSend(s, now, via).Ok?
    requires s == q.(linkTokenHash := s.linkTokenHash, linkExpiresAt := s.linkExpiresAt)
    requires s.linkTokenHash.None? <==> s.linkExpiresAt.None?
    ensures Fits(q, Stored(AfterSend(s, now, via).value))
  {}

  lemma SendByHandMoves(d: Desk, step: Step)
    requires AllSound(d) && step.Send? && !step.send.deliver && AfterSending(d, step.id, step.send).outcome.Ok?
    ensures Moved(d, NextDesk(d, step), step)
  {
    var q := d.quotations[step.id];
    SendingFits(q, q, step.send.sent, ByHand);
    OneMoved(d, step, step.id, AfterSend(q, step.send.sent, ByHand).value);
  }

  lemma SendByMailMoves(d: Desk, step: Step)
    requires AllSound(d) && step.Send? && step.send.deliver && AfterSending(d, step.id, step.send).outcome.Ok?
    ensures Moved(d, NextDesk(d, step), step)
  {
    var q, r := d.quotations[step.id], step.send;
    var s := q.(linkTokenHash := Some(DigestOf(r.token)), linkExpiresAt := Some(r.issued + r.linkDays * DAY));
    SentByMail(d, step, s);
    SendingFits(q, s, r.sent, r.channel.value);
    OneMoved(d, step, step.id, AfterSend(s, r.sent, r.channel.value).value);
  }

  lemma SentByMail(d: Desk, step: Step, s: Snapshot)
    requires step.Send? && step.send.deliver && AfterSending(d, step.id, step.send).outcome.Ok?
    requires s == d.quotations[step.id].(linkTokenHash := Some(DigestOf(step.send.token)),
                                         linkExpiresAt := Some(step.send.issued + step.send.linkDays * DAY))
    ensures step.send.channel.Some? && AfterSend(s, step.send.sent, step.send.channel.value).Ok?
    ensures NextDesk(d, step) == Saved(d, step.id, AfterSend(s, step.send.sent, step.send.channel.value).value)
    ensures Linked(d, step) == Some(step.id)
    ensures HashOn(d, step, step.id) == s.linkTokenHash
  {}

  lemma SendMoves(d: Desk, step: Step)
    requires AllSound(d) && step.Send?
    ensures Moved(d, NextDesk(d, step), step)
    ensures |NextDesk(d, step).quotations| == |d.quotations|
  {
    if AfterSending(d, step.id, step.send).outcome.Err? {
      Unmoved(d, step);
    } else if step.send.deliver {
      SendByMailMoves(d, step);
    } else {
      SendByHandMoves(d, step);
    }
  }

  lemma SendAgainMoves(d: Desk, step: Step)
    requires AllSound(d) && step.SendAgain?
    ensures Moved(d, NextDesk(d, step), step) && |NextDesk(d, step).quotations| == |d.quotations|
  {
    if AfterSendAgain(d, step.id, step.token, step.linkDays, step.now, step.channel).1.Ok? {
      OneMoved(d, step, step.id,
               AfterIssueLink(d.quotations[step.id], DigestOf(step.token), step.now + step.linkDays * DAY, step.now).value);
    } else {
      Unmoved(d, step);
    }
  }

  lemma SweepMoves(d: Desk, step: Step)
    requires AllSound(d) && step.Sweep? && L.IsFirst(LapsedKeys(d.quotations, step.asOf), step.limit, step.ids)
    ensures Moved(d, NextDesk(d, step), step) && |NextDesk(d, step).quotations| == |d.quotations|
  {
    ListedExpire(d.quotations, step.ids, step.asOf);
    forall i | 0 <= i < |d.quotations|
      ensures Fits(d.quotations[i], NextDesk(d, step).quotations[i])
      ensures NextDesk(d, step).quotations[i].linkTokenHash == d.quotations[i].linkTokenHash
    {
      if i in step.ids { ExpiringFits(d.quotations[i]); }
    }
  }

  lemma ClientMoves(d: Desk, step: Step)
    requires AllSound(d) && (step.Open? || step.Answer?)
    ensures Moved(d, NextDesk(d, step), step) && |NextDesk(d, step).quotations| == |d.quotations|
  {
    var found := Opens(d.quotations, step.token, step.checked);
    if found.None? {
      Unmoved(d, step);
    } else if step.Open? {
      OneMoved(d, step, found.value, AfterOpened(d.quotations[found.value], step.now));
    } else {
      var answered := AfterDecide(d.quotations[found.value], if step.accept then Accepted else Declined, step.now, Client);
      if answered.Ok? {
        DecidingFits(d.quotations[found.value], if step.accept then Accepted else Declined, step.now, Client);
        OneMoved(d, step, found.value, answered.value);
      } else {
        Unmoved(d, step);
      }
    }
  }

  lemma ReferencePresent(d: Desk, r: DraftRequest)
    ensures Trim(ReferenceFor(d, r)) == ReferenceFor(d, r) && |ReferenceFor(d, r)| > 0
  {
    if Draws(r) {
      PrintedIsTrimmed(d.nextNumber);
    } else {
      TrimIsIdempotent(r.reference.value);
    }
  }

  lemma DraftMoves(d: Desk, step: Step)
    requires AllSound(d) && step.Draft?
    ensures Moved(d, NextDesk(d, step), step)
    ensures AllSound(NextDesk(d, step))
    ensures |NextDesk(d, step).quotations| <= |d.quotations| + 1
    ensures |NextDesk(d, step).quotations| == |d.quotations| + 1 ==>
      var q := NextDesk(d, step).quotations[|d.quotations|];
      q.linkTokenHash.None? && q.reference == ReferenceFor(d, step.request) && !Taken(d, q.reference)
  {
    ReferencePresent(d, step.request);
    if AfterDrafting(d, step.request).1.Ok? {
      var r := step.request;
      StoringIsSound(AfterDraft(r.client, ReferenceFor(d, r), r.currency, r.createdBy, r.branchCode, r.validUntil,
                                r.notesEn, r.notesAr, r.now).value);
    }
  }

  lemma StepMoves(s: State, step: Step)
    requires Sound(s) && Enabled(s, step)
    ensures Moved(s.desk, NextDesk(s.desk, step), step) && AllSound(NextDesk(s.desk, step))
    ensures !step.Draft? ==> |NextDesk(s.desk, step).quotations| == |s.desk.quotations|
  {
    match step
    case Draft(_) => DraftMoves(s.desk, step);
    case AddLine(_, _, _) => AddLineMoves(s.desk, step);
    case Change(_, _, _) => ChangeMoves(s.desk, step);
    case Send(_, _) => SendMoves(s.desk, step);
    case SendAgain(_, _, _, _, _) => SendAgainMoves(s.desk, step);
    case Sweep(_, _, _) => SweepMoves(s.desk, step);
    case Open(_, _, _) => ClientMoves(s.desk, step);
    case Answer(_, _, _, _) => ClientMoves(s.desk, step);
  }

  /** One digest nobody has seen, put on at most one quotation, keeps the digests apart. */
  lemma LinksStayApart(s: State, after: State, linked: Option<QuotationId>, token: string)
    requires LinksSound(s) && |s.desk.quotations| <= |after.desk.quotations| && s.made <= after.made
    requires linked.Some? ==> token !in s.made && token in after.made
    requires forall i :: 0 <= i < |s.desk.quotations| && linked == Some(i) ==>
      after.desk.quotations[i].linkTokenHash == Some(DigestOf(token))
    requires forall i :: 0 <= i < |s.desk.quotations| && linked != Some(i) ==>
      after.desk.quotations[i].linkTokenHash == s.desk.quotations[i].linkTokenHash
    requires forall i :: |s.desk.quotations| <= i < |after.desk.quotations| ==> after.desk.quotations[i].linkTokenHash.None?
    ensures LinksSound(after)
  {}

  lemma LinksStaySound(s: State, step: Step)
    requires Sound(s) && Enabled(s, step)
    ensures LinksSound(Next(s, step))
  {
    StepMoves(s, step);
    if step.Draft? { DraftMoves(s.desk, step); }
    var linked := Linked(s.desk, step);
    assert linked.Some? ==> TokenOf(step).Some?;
    LinksStayApart(s, Next(s, step), linked, if linked.Some? then TokenOf(step).value else "");
  }

  lemma ReferencesStaySound(s: State, step: Step)
    requires Sound(s) && Enabled(s, step)
    ensures ReferencesSound(Next(s, step))
  {
    StepMoves(s, step);
    if step.Draft? { DraftMoves(s.desk, step); }
    var after := Next(s, step).desk.quotations;
    assert forall i :: 0 <= i < |s.desk.quotations| ==> after[i].reference == s.desk.quotations[i].reference;
  }

  lemma StepKeepsSound(s: State, step: Step)
    requires Sound(s) && Enabled(s, step)
    ensures Sound(Next(s, step))
  {
    StepMoves(s, step);
    LinksStaySound(s, step);
    ReferencesStaySound(s, step);
  }

  // ----- Every run -----

  lemma {:induction false} RunKeepsSound(s: State, steps: seq<Step>)
    requires Sound(s) && Legal(s, steps)
    ensures Sound(Run(s, steps)) && |s.desk.quotations| <= |Run(s, steps).desk.quotations|
    decreases |steps|
  {
    if steps != [] {
      StepKeepsSound(s, steps[0]);
      StepMoves(s, steps[0]);
      RunKeepsSound(Next(s, steps[0]), steps[1..]);
    }
  }

  /** In every run from an empty office, every offer adds up and meets the table's checks, and none shares a reference. */
  lemma {:induction false} EveryOfferAddsUp(first: nat, steps: seq<Step>, id: QuotationId)
    requires Legal(State(Desk([], first), {}), steps)
    requires id < |Run(State(Desk([], first), {}), steps).desk.quotations|
    ensures var s := Run(State(Desk([], first), {}), steps);
            var q := s.desk.quotations[id];
            && RowHolds(q) && AllStorable(q.lines) && Stored(q) == q && ReferencesSound(s)
            && Total(q.lines) == Subtotal(q.lines) - DiscountTotal(q.lines) + VatTotal(q.lines)
            && 0 <= DiscountTotal(q.lines) <= Subtotal(q.lines)
            && 0 <= VatTotal(q.lines) <= Net(q.lines) <= Total(q.lines)
            && (q.state != QuotationState.Draft ==> q.lines != [])
  {
    RunKeepsSound(State(Desk([], first), {}), steps);
    var q := Run(State(Desk([], first), {}), steps).desk.quotations[id];
    assert QuotationSound(q);
    OfferAddsUp(q.lines, q.currency);
  }

  /** A sent offer keeps its content, and keeps its answer after it has been given. */
  ghost predicate Frozen(a: Snapshot, b: Snapshot) {
    && SameOffer(a, b) && b.state != QuotationState.Draft && a.sentAt == b.sentAt && a.sentVia == b.sentVia
    && (a.state in {Accepted, Declined, Expired} ==> b.state == a.state && SameAnswer(a, b) && SameLink(a, b))
    && (a.linkOpenedAt.Some? ==> b.linkOpenedAt == a.linkOpenedAt)
  }

  lemma {:induction false} SentIsFrozen(s: State, steps: seq<Step>, id: QuotationId)
    requires Sound(s) && Legal(s, steps) && id < |s.desk.quotations|
    requires s.desk.quotations[id].state != QuotationState.Draft
    ensures id < |Run(s, steps).desk.quotations| && Frozen(s.desk.quotations[id], Run(s, steps).desk.quotations[id])
    decreases |steps|
  {
    if steps != [] {
      StepKeepsSound(s, steps[0]);
      StepMoves(s, steps[0]);
      SentIsFrozen(Next(s, steps[0]), steps[1..], id);
    }
  }

  predicate Answered(s: State, id: QuotationId) {
    id < |s.desk.quotations| && s.desk.quotations[id].state in {Accepted, Declined}
  }

  /** Whether this step is an answer to this quotation that was taken. */
  predicate Answers(s: State, step: Step, id: QuotationId) {
    match step
    case Change(which, change, liveBranches) =>
      which == id && (change.Accept? || change.Decline?) && AfterChange(s.desk, which, change, liveBranches).1.Ok?
    case Answer(token, accept, checked, now) => AfterAnswer(s.desk, token, accept, checked, now).1 == Ok(id)
    case _ => false
  }

  function AnswersTaken(s: State, steps: seq<Step>, id: QuotationId): nat
    decreases |steps|
  {
    if steps == [] then 0
    else (if Answers(s, steps[0], id) then 1 else 0) + AnswersTaken(Next(s, steps[0]), steps[1..], id)
  }

  lemma StaffAnswers(s: State, step: Step, id: QuotationId)
    requires AllSound(s.desk) && step.Change?
    ensures Answers(s, step, id) <==> !Answered(s, id) && Answered(Next(s, step), id)
  {}

  lemma ClientAnswers(s: State, step: Step, id: QuotationId)
    requires AllSound(s.desk) && step.Answer?
    ensures Answers(s, step, id) <==> !Answered(s, id) && Answered(Next(s, step), id)
  {}

  lemma SendingIsNoAnswer(s: State, step: Step, id: QuotationId)
    requires step.Send? || step.SendAgain? || step.AddLine? || step.Open?
    ensures Answered(Next(s, step), id) ==> Answered(s, id)
  {}

  lemma SweepIsNoAnswer(s: State, step: Step, id: QuotationId)
    requires Enabled(s, step) && step.Sweep?
    ensures Answered(Next(s, step), id) ==> Answered(s, id)
  {
    ListedExpire(s.desk.quotations, step.ids, step.asOf);
  }

  lemma StepAnswers(s: State, step: Step, id: QuotationId)
    requires Sound(s) && Enabled(s, step)
    ensures Answers(s, step, id) <==> !Answered(s, id) && Answered(Next(s, step), id)
  {
    match step
    case Draft(request) => DraftsAreNotAnswered(s.desk, request, id);
    case Sweep(_, _, _) => SweepIsNoAnswer(s, step, id);
    case Change(_, _, _) => StaffAnswers(s, step, id);
    case Answer(_, _, _, _) => ClientAnswers(s, step, id);
    case _ => SendingIsNoAnswer(s, step, id);
  }

  lemma DraftsAreNotAnswered(d: Desk, r: DraftRequest, id: QuotationId)
    ensures var after := AfterDrafting(d, r).0;
            |d.quotations| <= id < |after.quotations| ==> after.quotations[id].state == QuotationState.Draft
    ensures var after := AfterDrafting(d, r).0;
            id < |d.quotations| ==> after.quotations[id] == d.quotations[id]
  {}

  /** At most one answer is ever taken, whoever gives it and however often, and it is there exactly if one was. */
  lemma {:induction false} AnsweredAtMostOnce(s: State, steps: seq<Step>, id: QuotationId)
    requires Sound(s) && Legal(s, steps)
    ensures AnswersTaken(s, steps, id) == (if Answered(Run(s, steps), id) && !Answered(s, id) then 1 else 0)
    ensures Answered(s, id) ==> Answered(Run(s, steps), id)
    decreases |steps|
  {
    if steps != [] {
      StepKeepsSound(s, steps[0]);
      StepMoves(s, steps[0]);
      StepAnswers(s, steps[0], id);
      AnsweredAtMostOnce(Next(s, steps[0]), steps[1..], id);
    }
  }

  // ----- Links -----

  /** The token last put on a quotation during a run. */
  function LastLinked(s: State, steps: seq<Step>, id: QuotationId): Option<string>
    decreases |steps|
  {
    if steps == [] then None
    else
      var later := LastLinked(Next(s, steps[0]), steps[1..], id);
      if later.Some? then later
      else if Linked(s.desk, steps[0]) == Some(id) then TokenOf(steps[0]) else None
  }

  lemma {:induction false} LinkIsTheLastIssued(s: State, steps: seq<Step>, id: QuotationId)
    requires Sound(s) && Legal(s, steps) && id < |s.desk.quotations|
    ensures id < |Run(s, steps).desk.quotations|
    ensures Run(s, steps).desk.quotations[id].linkTokenHash ==
      if LastLinked(s, steps, id).Some? then Some(DigestOf(LastLinked(s, steps, id).value))
      else s.desk.quotations[id].linkTokenHash
    decreases |steps|
  {
    if steps != [] {
      StepKeepsSound(s, steps[0]);
      StepMoves(s, steps[0]);
      LinkIsTheLastIssued(Next(s, steps[0]), steps[1..], id);
    }
  }

  lemma OpensIs(s: State, token: string, now: Instant, id: QuotationId)
    requires Sound(s) && id < |s.desk.quotations|
    ensures Opens(s.desk.quotations, token, now) == Some(id) <==>
      token != "" && s.desk.quotations[id].linkTokenHash == Some(DigestOf(token)) && LinkLive(s.desk.quotations[id], now)
  {
    var found := FindByLink(s.desk.quotations, DigestOf(token));
    if s.desk.quotations[id].linkTokenHash == Some(DigestOf(token)) {
      assert found == id;
    }
  }

  /**
    Whatever has happened, a token opens a quotation exactly if it is the last one put on it and its
    link has not run out: sending again ends the earlier link at once.
   */
  lemma {:induction false} OnlyTheLatestTokenOpens(s: State, steps: seq<Step>, id: QuotationId, token: string, now: Instant)
    requires Sound(s) && Legal(s, steps) && id < |s.desk.quotations| && LastLinked(s, steps, id).Some?
    ensures var t := Run(s, steps);
            && id < |t.desk.quotations|
            && (Opens(t.desk.quotations, token, now) == Some(id) <==>
                  token != "" && token == LastLinked(s, steps, id).value && LinkLive(t.desk.quotations[id], now))
  {
    RunKeepsSound(s, steps);
    LinkIsTheLastIssued(s, steps, id);
    OpensIs(Run(s, steps), token, now, id);
  }

  ghost predicate OnNone(s: State, token: string) {
    forall i :: 0 <= i < |s.desk.quotations| ==> s.desk.quotations[i].linkTokenHash != Some(DigestOf(token))
  }

  /** A token that has been made and stands on no quotation opens nothing again, ever. */
  lemma {:induction false} RevokedForGood(s: State, steps: seq<Step>, token: string, now: Instant)
    requires Sound(s) && Legal(s, steps) && token in s.made && OnNone(s, token)
    ensures OnNone(Run(s, steps), token) && Opens(Run(s, steps).desk.quotations, token, now).None?
    decreases |steps|
  {
    if steps == [] {
      var found := FindByLink(s.desk.quotations, DigestOf(token));
    } else {
      StepKeepsSound(s, steps[0]);
      StepMoves(s, steps[0]);
      if steps[0].Draft? { DraftMoves(s.desk, steps[0]); }
      RevokedForGood(Next(s, steps[0]), steps[1..], token, now);
    }
  }
}
