/** Whose answer a quotation bears at the end of a run, told from the steps taken. */
module QuotationAnswers {
  import opened Wrappers
  import opened Quotation
  import opened QuotationDesk
  import opened QuotationRuns

  datatype Given = Given(whose: DecidedBy, accepted: bool, at: Instant)

  /** The answer a step gives an offer that is out: staff to the one they name, a client to the one their token opens. */
  function GivenBy(s: State, step: Step, id: QuotationId): Option<Given> {
    if id >= |s.desk.quotations| || s.desk.quotations[id].state != Sent then None
    else match step
      case Change(which, Accept(now), _) => if which == id then Some(Given(Staff, true, now)) else None
      case Change(which, Decline(now), _) => if which == id then Some(Given(Staff, false, now)) else None
      case Answer(token, accept, checked, now) =>
        if Opens(s.desk.quotations, token, checked) == Some(id) then Some(Given(Client, accept, now)) else None
      case _ => None
  }

  function FirstGiven(s: State, steps: seq<Step>, id: QuotationId): Option<Given>
    decreases |steps|
  {
    if steps == [] then None
    else if GivenBy(s, steps[0], id).Some? then GivenBy(s, steps[0], id)
    else FirstGiven(Next(s, steps[0]), steps[1..], id)
  }

  predicate BearsAnswer(q: Snapshot, g: Given) {
    q.state == (if g.accepted then Accepted else Declined) && q.decidedBy == Some(g.whose) && q.decidedAt == Some(g.at)
  }

  lemma StaffGive(s: State, step: Step, id: QuotationId)
    requires GivenBy(s, step, id).Some? && step.Change?
    ensures id < |Next(s, step).desk.quotations| && BearsAnswer(Next(s, step).desk.quotations[id], GivenBy(s, step, id).value)
  {}

  lemma ClientGives(s: State, step: Step, id: QuotationId)
    requires GivenBy(s, step, id).Some? && step.Answer?
    ensures id < |Next(s, step).desk.quotations| && BearsAnswer(Next(s, step).desk.quotations[id], GivenBy(s, step, id).value)
  {}

  lemma GivenIsBorne(s: State, step: Step, id: QuotationId)
    requires GivenBy(s, step, id).Some?
    ensures id < |Next(s, step).desk.quotations| && BearsAnswer(Next(s, step).desk.quotations[id], GivenBy(s, step, id).value)
  {
    if step.Change? { StaffGive(s, step, id); } else { ClientGives(s, step, id); }
  }

  /** An answer that counts is one given so. */
  lemma AnswersIffGiven(s: State, step: Step, id: QuotationId)
    requires id < |s.desk.quotations|
    ensures Answers(s, step, id) <==> GivenBy(s, step, id).Some?
  {}

  lemma OnlyGivenAnswers(s: State, step: Step, id: QuotationId)
    requires Sound(s) && Enabled(s, step) && GivenBy(s, step, id).None? && !Answered(s, id)
    ensures !Answered(Next(s, step), id)
  {
    StepAnswers(s, step, id);
    if id < |s.desk.quotations| {
      AnswersIffGiven(s, step, id);
    } else {
      NotThereYet(s, step, id);
    }
  }

  lemma NotThereYet(s: State, step: Step, id: QuotationId)
    requires id >= |s.desk.quotations|
    ensures !Answers(s, step, id)
  {}

  lemma {:induction false} BorneToTheEnd(s: State, steps: seq<Step>, id: QuotationId, g: Given)
    requires Sound(s) && Legal(s, steps) && id < |s.desk.quotations| && BearsAnswer(s.desk.quotations[id], g)
    ensures id < |Run(s, steps).desk.quotations| && BearsAnswer(Run(s, steps).desk.quotations[id], g)
  {
    SentIsFrozen(s, steps, id);
  }

  /**
    A quotation is accepted at the end of a run exactly if the first answer given while it was out was an acceptance,
    and declined exactly if it was a refusal; and it says who gave it, staff or client, and when.
   */
  lemma {:induction false} BearsTheAnswerGiven(s: State, steps: seq<Step>, id: QuotationId)
    requires Sound(s) && Legal(s, steps) && !Answered(s, id)
    ensures var given, t := FirstGiven(s, steps, id), Run(s, steps);
            && (given.Some? ==> id < |t.desk.quotations| && BearsAnswer(t.desk.quotations[id], given.value))
            && (given.None? ==> !Answered(t, id))
    decreases |steps|
  {
    if steps != [] {
      var next := Next(s, steps[0]);
      StepKeepsSound(s, steps[0]);
      if GivenBy(s, steps[0], id).Some? {
        GivenIsBorne(s, steps[0], id);
        BorneToTheEnd(next, steps[1..], id, GivenBy(s, steps[0], id).value);
      } else {
        OnlyGivenAnswers(s, steps[0], id);
        BearsTheAnswerGiven(next, steps[1..], id);
      }
    }
  }

  /** So of every run from an empty office. */
  lemma {:induction false} AcceptedIff(first: nat, steps: seq<Step>, id: QuotationId)
    requires Legal(State(Desk([], first), {}), steps)
    requires id < |Run(State(Desk([], first), {}), steps).desk.quotations|
    ensures var s := State(Desk([], first), {});
            var given, q := FirstGiven(s, steps, id), Run(s, steps).desk.quotations[id];
            && (q.state == Accepted <==> given.Some? && given.value.accepted)
            && (q.state == Declined <==> given.Some? && !given.value.accepted)
            && (given.Some? ==> q.decidedBy == Some(given.value.whose) && q.decidedAt == Some(given.value.at))
            && (given.None? ==> q.decidedAt.None?)
  {
    var s := State(Desk([], first), {});
    BearsTheAnswerGiven(s, steps, id);
    RunKeepsSound(s, steps);
    assert QuotationSound(Run(s, steps).desk.quotations[id]);
  }
}
