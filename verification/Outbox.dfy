/** Events written beside the changes they describe, and the publisher that delivers them, at least once each. */
module Outbox {
  import opened Wrappers
  import opened Listing

  type EventId = nat
  type SubscriberId = nat
  type Instant = int

  datatype Row = Row(name: string, occurredAt: Instant, publishedAt: Option<Instant>, attempts: nat, lastError: Option<string>)

  predicate Pending(row: Row) {
    row.publishedAt.None?
  }

  // ----- Who listens to what -----

  /** Patterns in the order they were first seen, each with its subscribers. */
  datatype Registration = Registration(pattern: string, subscribers: seq<SubscriberId>)

  /** One event name, or every name that starts with a prefix ending in a full stop. */
  predicate Matches(pattern: string, name: string) {
    pattern == name || (|pattern| > 0 && pattern[|pattern| - 1] == '.' && pattern <= name)
  }

  function IndexOf(registrations: seq<Registration>, pattern: string): (i: nat)
    ensures i <= |registrations|
    ensures i < |registrations| ==> registrations[i].pattern == pattern
  {
    if registrations == [] || registrations[0].pattern == pattern then 0 else 1 + IndexOf(registrations[1..], pattern)
  }

  function Registered(registrations: seq<Registration>, pattern: string, subscriber: SubscriberId): seq<Registration> {
    var i := IndexOf(registrations, pattern);
    if i < |registrations| then
      registrations[i := Registration(pattern, registrations[i].subscribers + [subscriber])]
    else registrations + [Registration(pattern, [subscriber])]
  }

  function SubscribersFor(registrations: seq<Registration>, name: string): seq<SubscriberId> {
    if registrations == [] then []
    else
      var init, last := SubscribersFor(registrations[..|registrations| - 1], name), registrations[|registrations| - 1];
      if Matches(last.pattern, name) then init + last.subscribers else init
  }

  ghost predicate Listens(registrations: seq<Registration>, subscriber: SubscriberId, name: string) {
    exists i :: 0 <= i < |registrations| && Matches(registrations[i].pattern, name) && subscriber in registrations[i].subscribers
  }

  /** Those called for an event are just those who registered a pattern that matches it. */
  lemma {:induction false} CalledIffListening(registrations: seq<Registration>, subscriber: SubscriberId, name: string)
    ensures subscriber in SubscribersFor(registrations, name) <==> Listens(registrations, subscriber, name)
  {
    if registrations != [] {
      var k := |registrations| - 1;
      CalledIffListening(registrations[..k], subscriber, name);
      if Listens(registrations[..k], subscriber, name) {
        var i :| 0 <= i < k && Matches(registrations[..k][i].pattern, name) && subscriber in registrations[..k][i].subscribers;
        assert registrations[i] == registrations[..k][i];
      }
      if i :| 0 <= i < |registrations| && Matches(registrations[i].pattern, name) && subscriber in registrations[i].subscribers && i < k {
        assert registrations[..k][i] == registrations[i];
      }
    }
  }

  /** Registering adds one listener to what the pattern matches, and takes none away. */
  lemma RegisteringAddsOne(registrations: seq<Registration>, pattern: string, subscriber: SubscriberId,
                           other: SubscriberId, name: string)
    ensures Listens(Registered(registrations, pattern, subscriber), other, name)
       <==> Listens(registrations, other, name) || (other == subscriber && Matches(pattern, name))
  {
    var after, at := Registered(registrations, pattern, subscriber), IndexOf(registrations, pattern);
    assert after[at].pattern == pattern && subscriber in after[at].subscribers;
    forall i | 0 <= i < |registrations|
      ensures after[i].pattern == registrations[i].pattern
      ensures other in registrations[i].subscribers ==> other in after[i].subscribers
      ensures other in after[i].subscribers ==>
        other in registrations[i].subscribers || (other == subscriber && after[i].pattern == pattern)
    {}
  }

  /** A subscriber hears the very name it registered for, or, if that ends in a full stop, every name that begins with it. */
  lemma {:induction false} HeardIff(pattern: string, subscriber: SubscriberId, name: string)
    ensures subscriber in SubscribersFor(Registered([], pattern, subscriber), name) <==>
      || name == pattern
      || (|pattern| > 0 && pattern[|pattern| - 1] == '.' && |name| >= |pattern| && name[..|pattern|] == pattern)
  {
    var registrations := Registered([], pattern, subscriber);
    RegisteringAddsOne([], pattern, subscriber, subscriber, name);
    CalledIffListening(registrations, subscriber, name);
  }

  // ----- Delivering one event -----

  /** What each subscriber did with each event this time: nothing, if it returned, or what it threw. */
  type Answers = (EventId, SubscriberId) -> Option<string>

  function FirstError(subscribers: seq<SubscriberId>, event: EventId, answers: Answers): Option<string> {
    if subscribers == [] then None
    else if answers(event, subscribers[0]).Some? then answers(event, subscribers[0])
    else FirstError(subscribers[1..], event, answers)
  }

  /** Those who got the event and returned: all of them, or those before the one that threw. */
  function Returned(subscribers: seq<SubscriberId>, event: EventId, answers: Answers): set<(EventId, SubscriberId)> {
    if subscribers == [] || answers(event, subscribers[0]).Some? then {}
    else {(event, subscribers[0])} + Returned(subscribers[1..], event, answers)
  }

  lemma {:induction false} AllReturnedIffNoError(subscribers: seq<SubscriberId>, event: EventId, answers: Answers)
    ensures FirstError(subscribers, event, answers).None? <==>
      forall s :: s in subscribers ==> (event, s) in Returned(subscribers, event, answers)
    ensures FirstError(subscribers, event, answers).None? <==>
      forall s :: s in subscribers ==> answers(event, s).None?
  {
    if subscribers != [] {
      AllReturnedIffNoError(subscribers[1..], event, answers);
      assert subscribers == [subscribers[0]] + subscribers[1..];
      ReturnedDidNotThrow(subscribers, event, answers);
    }
  }

  /** The error noted is that of the first subscriber to throw: those before it have had the event, and nobody else has. */
  lemma {:induction false} FirstErrorIs(subscribers: seq<SubscriberId>, event: EventId, answers: Answers, n: nat)
    requires n < |subscribers| && answers(event, subscribers[n]).Some?
    requires forall k :: 0 <= k < n ==> answers(event, subscribers[k]).None?
    ensures FirstError(subscribers, event, answers) == answers(event, subscribers[n])
    ensures forall s :: (event, s) in Returned(subscribers, event, answers) <==> s in subscribers[..n]
  {
    if n > 0 {
      assert forall k :: 0 <= k < |subscribers| - 1 ==> subscribers[1..][k] == subscribers[k + 1];
      FirstErrorIs(subscribers[1..], event, answers, n - 1);
      assert subscribers[..n] == [subscribers[0]] + subscribers[1..][..n - 1];
    }
  }

  lemma {:induction false} ReturnedDidNotThrow(subscribers: seq<SubscriberId>, event: EventId, answers: Answers)
    ensures forall s :: (event, s) in Returned(subscribers, event, answers) ==> answers(event, s).None? && s in subscribers
  {
    if subscribers != [] && answers(event, subscribers[0]).None? {
      ReturnedDidNotThrow(subscribers[1..], event, answers);
    }
  }

  /** The table, and every delivery that has been made. */
  datatype Box = Box(rows: seq<Row>, returned: set<(EventId, SubscriberId)>)

  function Shortened(error: string): string {
    if |error| > 2000 then error[..2000] else error
  }

  function MarkFailed(rows: seq<Row>, event: EventId, error: string): seq<Row>
    requires event < |rows|
  {
    rows[event := rows[event].(attempts := rows[event].attempts + 1, lastError := Some(Shortened(error)))]
  }

  function ErrorOf(box: Box, registrations: seq<Registration>, event: EventId, answers: Answers): Option<string>
    requires event < |box.rows|
  {
    FirstError(SubscribersFor(registrations, box.rows[event].name), event, answers)
  }

  /** One failure is written down, and holds up nobody else. */
  function Delivered(box: Box, registrations: seq<Registration>, event: EventId, answers: Answers): (after: Box)
    requires event < |box.rows|
    ensures |after.rows| == |box.rows|
  {
    var error := ErrorOf(box, registrations, event, answers);
    Box(if error.Some? then MarkFailed(box.rows, event, error.value) else box.rows,
        box.returned + Returned(SubscribersFor(registrations, box.rows[event].name), event, answers))
  }

  function MarkPublished(rows: seq<Row>, events: seq<EventId>, at: Instant): seq<Row> {
    seq(|rows|, e requires 0 <= e < |rows| => if e in events then rows[e].(publishedAt := Some(at)) else rows[e])
  }

  // ----- One pass -----

  /** Those still pending that nobody has locked, the oldest first. */
  function PendingKeys(rows: seq<Row>, locked: set<EventId>): Keys {
    seq(|rows|, e requires 0 <= e < |rows| => if Pending(rows[e]) && e !in locked then Some(rows[e].occurredAt) else None)
  }

  ghost predicate IsBatch(rows: seq<Row>, limit: nat, locked: set<EventId>, batch: seq<EventId>) {
    IsFirst(PendingKeys(rows, locked), limit, batch)
  }

  ghost predicate InTable(rows: seq<Row>, batch: seq<EventId>) {
    forall n :: 0 <= n < |batch| ==> batch[n] < |rows|
  }

  function AfterBatch(box: Box, registrations: seq<Registration>, batch: seq<EventId>, answers: Answers): (after: Box)
    requires InTable(box.rows, batch)
    ensures |after.rows| == |box.rows|
  {
    if batch == [] then box
    else Delivered(AfterBatch(box, registrations, batch[..|batch| - 1], answers), registrations, batch[|batch| - 1], answers)
  }

  /** The events of the batch that no subscriber refused. */
  function Healthy(box: Box, registrations: seq<Registration>, batch: seq<EventId>, answers: Answers): (events: seq<EventId>)
    requires InTable(box.rows, batch)
    ensures InTable(box.rows, events)
  {
    if batch == [] then []
    else
      var init, last := Healthy(box, registrations, batch[..|batch| - 1], answers), batch[|batch| - 1];
      if ErrorOf(box, registrations, last, answers).None? then init + [last] else init
  }

  function AfterPass(box: Box, registrations: seq<Registration>, batch: seq<EventId>, answers: Answers, at: Instant): Box
    requires InTable(box.rows, batch)
  {
    var tried := AfterBatch(box, registrations, batch, answers);
    tried.(rows := MarkPublished(tried.rows, Healthy(box, registrations, batch, answers), at))
  }

  /** Trying events changes neither what they are called nor which of them are still pending. */
  lemma {:induction false} TryingKeepsPending(box: Box, registrations: seq<Registration>, batch: seq<EventId>,
                                              answers: Answers)
    requires InTable(box.rows, batch)
    ensures var after := AfterBatch(box, registrations, batch, answers);
            forall e :: 0 <= e < |box.rows| ==>
              && after.rows[e].name == box.rows[e].name && after.rows[e].occurredAt == box.rows[e].occurredAt
              && after.rows[e].publishedAt == box.rows[e].publishedAt
  {
    if batch != [] {
      TryingKeepsPending(box, registrations, batch[..|batch| - 1], answers);
    }
  }

  class OutboxPublisher {
    var registrations: seq<Registration>
    var rows: seq<Row>
    ghost var returned: set<(EventId, SubscriberId)>
    const batchSize: nat

    constructor (batchSize: nat)
      ensures registrations == [] && rows == [] && returned == {} && this.batchSize == batchSize
    {
      registrations, rows, returned := [], [], {};
      this.batchSize := batchSize;
    }

    method On(pattern: string, subscriber: SubscriberId)
      modifies this`registrations
      ensures registrations == Registered(old(registrations), pattern, subscriber)
    {
      var existing := IndexOf(registrations, pattern);
      if existing < |registrations| {
        registrations := registrations[existing := Registration(pattern, registrations[existing].subscribers + [subscriber])];
      } else {
        registrations := registrations + [Registration(pattern, [subscriber])];
      }
    }

    method Subscribers(name: string) returns (matched: seq<SubscriberId>)
      ensures matched == SubscribersFor(registrations, name)
    {
      matched := [];
      for r := 0 to |registrations|
        invariant matched == SubscribersFor(registrations[..r], name)
      {
        if Matches(registrations[r].pattern, name) {
          matched := matched + registrations[r].subscribers;
        }
        assert registrations[..r + 1][..r] == registrations[..r];
      }
      assert registrations[..|registrations|] == registrations;
    }

    /** Calls the subscribers in turn, and stops at the first that throws. */
    method Deliver(event: EventId, answers: Answers) returns (error: Option<string>)
      requires event < |rows|
      modifies this`returned
      ensures error == ErrorOf(Box(rows, old(returned)), registrations, event, answers)
      ensures returned == old(returned) + Returned(SubscribersFor(registrations, rows[event].name), event, answers)
    {
      var subscribers := Subscribers(rows[event].name);
      var n := 0;
      while n < |subscribers|
        invariant n <= |subscribers|
        invariant FirstError(subscribers, event, answers) == FirstError(subscribers[n..], event, answers)
        invariant old(returned) + Returned(subscribers, event, answers) == returned + Returned(subscribers[n..], event, answers)
      {
        error := answers(event, subscribers[n]);
        if error.Some? {
          return;
        }
        returned := returned + {(event, subscribers[n])};
        n := n + 1;
      }
      return None;
    }

    /** One pass. Events are marked published together, at the end, so a pass that dies marks none. */
    method Drain(answers: Answers, locked: set<EventId>, now: Instant) returns (count: nat, batch: seq<EventId>)
      modifies this`rows, this`returned
      ensures IsBatch(old(rows), batchSize, locked, batch)
      ensures Box(rows, returned) == AfterPass(old(Box(rows, returned)), registrations, batch, answers, now)
      ensures count == |Healthy(old(Box(rows, returned)), registrations, batch, answers)|
    {
      batch := List(PendingKeys(rows, locked), batchSize);
      ghost var box := Box(rows, returned);
      var delivered: seq<EventId> := [];
      for n := 0 to |batch|
        invariant InTable(box.rows, batch[..n])
        invariant Box(rows, returned) == AfterBatch(box, registrations, batch[..n], answers)
        invariant delivered == Healthy(box, registrations, batch[..n], answers)
      {
        TryingKeepsPending(box, registrations, batch[..n], answers);
        assert batch[..n + 1][..n] == batch[..n];
        var error := Deliver(batch[n], answers);
        if error.Some? {
          rows := MarkFailed(rows, batch[n], error.value);
        } else {
          delivered := delivered + [batch[n]];
        }
      }
      assert batch[..|batch|] == batch;
      rows := MarkPublished(rows, delivered, now);
      return |delivered|, batch;
    }
  }
}
