/** Runs that really go the way `QuotationEdges` says they can, each from an empty office. */
module QuotationWitnesses {
  import opened Wrappers
  import opened Money
  import opened Text
  import opened Quotation
  import opened QuotationDesk
  import opened QuotationRuns
  import opened QuotationEdges

  function EmptyOffice(): State {
    State(Desk([], 1), {})
  }

  ghost predicate Reached(s: State) {
    exists steps :: Legal(EmptyOffice(), steps) && Run(EmptyOffice(), steps) == s
  }

  lemma {:induction false} OneStepMore(s: State, steps: seq<Step>, step: Step)
    requires Legal(s, steps) && Enabled(Run(s, steps), step)
    ensures Legal(s, steps + [step]) && Run(s, steps + [step]) == Next(Run(s, steps), step)
    decreases |steps|
  {
    if steps == [] {
      assert [] + [step] == [step] && [step][1..] == [];
    } else {
      OneStepMore(Next(s, steps[0]), steps[1..], step);
      assert (steps + [step])[1..] == steps[1..] + [step];
    }
  }

  lemma ReachedNext(s: State, step: Step)
    requires Reached(s) && Enabled(s, step)
    ensures Reached(Next(s, step))
  {
    var steps :| Legal(EmptyOffice(), steps) && Run(EmptyOffice(), steps) == s;
    OneStepMore(EmptyOffice(), steps, step);
  }

  lemma EmptyIsReached()
    ensures Reached(EmptyOffice())
  {
    assert Legal(EmptyOffice(), []) && Run(EmptyOffice(), []) == EmptyOffice();
  }

  // ----- One offer, ready to go out -----

  const OFFER := DraftRequest("client", None, Some("Q1"), AED, Some(DAY), None, None, {}, "user", 0)
  const FEE := LineCommand(1, None, Some("VAT"), None, None, None, Some(1000), None, false)
  const FEE_LINE := QuotationLine(1, None, "VAT", "", FixedPrice(Money(1000, AED)), Money(0, AED), None)
  const BLANK := Snapshot("client", None, "Q1", QuotationState.Draft, AED, [], Some(DAY), None, None, None, None, None,
                          None, None, None, None, "user", 0)

  function Ready(): Snapshot {
    BLANK.(lines := [FEE_LINE])
  }

  function Holding(s: Snapshot, made: set<string>): State {
    State(Desk([s], 1), made)
  }

  lemma Texts()
    ensures Trim("Q1") == "Q1" && Trim("VAT") == "VAT" && Trim("") == ""
  {
    NothingToTrim("Q1");
    NothingToTrim("VAT");
  }

  lemma Drafted()
    ensures Next(EmptyOffice(), Step.Draft(OFFER)) == Holding(BLANK, {})
  {
    Texts();
    assert DateOf(DAY) == DAY;
    assert Stored(BLANK) == BLANK;
  }

  lemma Lined()
    ensures Next(Holding(BLANK, {}), AddLine(0, FEE, 500)) == Holding(Ready(), {})
  {
    Texts();
    assert LineOf(FEE, PriceIt(FEE, AED).value, AED, 500) == FEE_LINE;
    assert LineFault(FEE_LINE, AED).None? && Storable(FEE_LINE);
    assert BLANK.lines + [FEE_LINE] == [FEE_LINE];
    assert AfterAddLine(BLANK, FEE_LINE) == Ok(Ready());
    assert Stored(Ready()) == Ready();
  }

  lemma ReadyIsReached()
    ensures Reached(Holding(Ready(), {}))
  {
    EmptyIsReached();
    Drafted();
    ReachedNext(EmptyOffice(), Step.Draft(OFFER));
    Lined();
    ReachedNext(Holding(BLANK, {}), AddLine(0, FEE, 500));
  }

  // ----- The witnesses -----

  /** The offer is mailed a moment before its date and lapses while the mail is on its way. */
  lemma MailedYetDraft() returns (s: State, send: SendRequest)
    ensures Reached(s) && |s.desk.quotations| == 1 && Enabled(s, Send(0, send))
    ensures AfterSending(s.desk, 0, send).emailed && AfterSending(s.desk, 0, send).outcome == Err(Refused(AlreadyLapsed))
    ensures Next(s, Send(0, send)).desk.quotations[0].state == QuotationState.Draft
  {
    ReadyIsReached();
    s := Holding(Ready(), {});
    send := SendRequest(true, false, "token", 60, DAY - 1, DAY - 1, DAY, Some(Email));
  }

  function SentReady(): Snapshot {
    Ready().(state := Sent, sentAt := Some(1), sentVia := Some(Email),
             linkTokenHash := Some(DigestOf("token")), linkExpiresAt := Some(1 + 60 * DAY))
  }

  lemma SentIsReached()
    ensures Reached(Holding(SentReady(), {"token"}))
  {
    ReadyIsReached();
    var step := Send(0, SendRequest(true, false, "token", 60, 1, 1, 1, Some(Email)));
    assert Stored(SentReady()) == SentReady();
    assert Next(Holding(Ready(), {}), step) == Holding(SentReady(), {"token"});
    ReachedNext(Holding(Ready(), {}), step);
  }

  function AcceptedReady(): Snapshot {
    SentReady().(state := Accepted, decidedAt := Some(2), decidedBy := Some(Client))
  }

  lemma AcceptedIsReached(before: State, after: State)
    requires before == Holding(SentReady(), {"token"}) && after == Holding(AcceptedReady(), {"token"})
    ensures Reached(after)
  {
    SentIsReached();
    assert Stored(AcceptedReady()) == AcceptedReady();
    assert Next(before, Answer("token", true, 2, 2)) == after;
    ReachedNext(before, Answer("token", true, 2, 2));
  }

  /** The client accepts, and comes back by the same link: the page opens, and answering is refused in its own words. */
  lemma AnsweredLinkStillOpens() returns (s: State)
    ensures Reached(s) && |s.desk.quotations| == 1 && s.desk.quotations[0].state == Accepted
    ensures AfterOpen(s.desk, "token", 3, 3).1 == Ok(0)
    ensures AfterAnswer(s.desk, "token", false, 3, 3).1 == Err(Refused(NotOutWithClient))
    ensures AfterAnswer(s.desk, "other", false, 3, 3).1 == Err(LinkUnavailable)
  {
    s := Holding(AcceptedReady(), {"token"});
    AcceptedIsReached(Holding(SentReady(), {"token"}), s);
  }

  /** All through the last day of an offer the rule would let it expire, and no sweep lists it. */
  lemma StillOutOnItsLastDay() returns (s: State)
    ensures Reached(s) && |s.desk.quotations| == 1
    ensures AfterExpire(s.desk.quotations[0], DAY + DAY / 2).Ok?
    ensures LapsedIds(s.desk.quotations, DAY + DAY / 2) == {}
    ensures LapsedIds(s.desk.quotations, 2 * DAY) == {0}
  {
    SentIsReached();
    s := Holding(SentReady(), {"token"});
    assert DateOf(DAY + DAY / 2) == DAY && DateOf(2 * DAY) == 2 * DAY;
    assert !Lapsed(s.desk.quotations[0], DAY + DAY / 2) && Lapsed(s.desk.quotations[0], 2 * DAY);
  }

  /** Two days after its last day the offer is accepted all the same, because no sweep has run since. */
  lemma LapsedPriceAccepted() returns (s: State)
    ensures Reached(s) && |s.desk.quotations| == 1 && LapsedIds(s.desk.quotations, 3 * DAY) == {0}
    ensures AfterExpire(s.desk.quotations[0], 3 * DAY).Ok?
    ensures TakesLapsedPrice(s.desk, "token", true, 3 * DAY, 3 * DAY)
  {
    SentIsReached();
    s := Holding(SentReady(), {"token"});
    assert DateOf(3 * DAY) == 3 * DAY;
    assert Lapsed(s.desk.quotations[0], 3 * DAY);
  }

  const SLIVER := LineCommand(2, None, Some("VAT"), None, Some(0.004), Some(50_000), None, None, false)
  const SLIVER_LINE := QuotationLine(2, None, "VAT", "", Hours(0.004, Money(50_000, AED)), Money(0, AED), None)

  /** An estimate of four thousandths of an hour passes the aggregate, and the table throws it out. */
  lemma SliverIsThrownOut() returns (s: State)
    ensures Reached(s) && |s.desk.quotations| == 1
    ensures AfterAddLine(s.desk.quotations[0], SLIVER_LINE).Ok?
    ensures AfterAdding(s.desk, 0, SLIVER, 500) == (s.desk, Err(TableRefused))
  {
    ReadyIsReached();
    Texts();
    s := Holding(Ready(), {});
    assert Centi(0.004) == 0;
    assert ScaleByRatio(50_000, 0, 100) == 0;
    assert !Storable(SLIVER_LINE);
    assert LineOf(SLIVER, PriceIt(SLIVER, AED).value, AED, 500) == SLIVER_LINE;
    var t := AfterAddLine(Ready(), SLIVER_LINE).value;
    assert t.lines[1] == SLIVER_LINE;
  }

  /** A draft for a branch that has been closed is refused, and its number is gone. */
  lemma ClosedBranchCostsNumber()
    ensures var r := OFFER.(reference := None, branchCode := Some("closed"));
            AfterDrafting(EmptyOffice().desk, r) == (Desk([], 2), Err(NotABranch))
  {}
}
