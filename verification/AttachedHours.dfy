/** Counting recorded seconds by place: in the waiting pool, or on one line of one statement. */
module AttachedHours {
  import opened Wrappers
  import opened Rounding
  import opened Statement
  import opened GenerateStatement
  import opened BillingPipeline

  function WeightAt(e: TimeEntry, at: Option<LineRef>): int {
    if e.Chargeable() && e.line == at then e.seconds else 0
  }

  function WeightsAt(entries: seq<TimeEntry>, at: Option<LineRef>): seq<int> {
    seq(|entries|, e requires 0 <= e < |entries| => WeightAt(entries[e], at))
  }

  /** The chargeable seconds attached to a line, or waiting when no line is named. */
  function SecondsAt(entries: seq<TimeEntry>, at: Option<LineRef>): int {
    Sum(WeightsAt(entries, at))
  }

  function ChargeableIn(e: TimeEntry): int {
    if e.Chargeable() then e.seconds else 0
  }

  function ChargeableEach(entries: seq<TimeEntry>): seq<int> {
    seq(|entries|, e requires 0 <= e < |entries| => ChargeableIn(entries[e]))
  }

  function ChargeableSeconds(entries: seq<TimeEntry>): int {
    Sum(ChargeableEach(entries))
  }

  /** Waiting entries of the table, each once. */
  ghost predicate Listed(entries: seq<TimeEntry>, items: seq<BillableWork>) {
    && (forall i :: 0 <= i < |items| ==>
          var id := items[i].entryId;
          id < |entries| && entries[id].line.None? && entries[id].Chargeable() && entries[id].seconds == items[i].seconds)
    && (forall i, j :: 0 <= i < j < |items| ==> items[i].entryId != items[j].entryId)
  }

  function Picked(entries: seq<TimeEntry>, ids: set<EntryId>): seq<int> {
    seq(|entries|, e requires 0 <= e < |entries| => if e in ids then entries[e].seconds else 0)
  }

  lemma {:induction false} PickedSum(entries: seq<TimeEntry>, items: seq<BillableWork>)
    requires Listed(entries, items)
    ensures Sum(Picked(entries, IdsOf(items))) == Seconds(items)
  {
    if items == [] {
      assert IdsOf(items) == {};
      Zeros(Picked(entries, {}));
    } else {
      var k := |items| - 1;
      var init, id := items[..k], items[k].entryId;
      PickedSum(entries, init);
      assert id !in IdsOf(init) by {
        forall i | 0 <= i < k ensures init[i].entryId != id { assert init[i] == items[i]; }
      }
      IdsWithOneMore(init, items[k]);
      assert items == init + [items[k]];
      OneMorePicked(entries, IdsOf(init), id);
    }
  }

  lemma {:induction false} OneMorePicked(entries: seq<TimeEntry>, ids: set<EntryId>, id: EntryId)
    requires id < |entries| && id !in ids
    ensures Sum(Picked(entries, ids + {id})) == Sum(Picked(entries, ids)) + entries[id].seconds
  {
    assert Picked(entries, ids + {id}) == Picked(entries, ids)[id := entries[id].seconds];
    SumUpdate(Picked(entries, ids), id, entries[id].seconds);
  }

  lemma IdsWithOneMore(items: seq<BillableWork>, item: BillableWork)
    ensures IdsOf(items + [item]) == IdsOf(items) + {item.entryId}
  {
    var all := items + [item];
    forall id ensures id in IdsOf(all) <==> id in IdsOf(items) + {item.entryId} {
      if id in IdsOf(items) {
        var i :| 0 <= i < |items| && items[i].entryId == id;
        assert all[i].entryId == id;
      }
      if id == item.entryId { assert all[|items|].entryId == id; }
    }
  }

  lemma {:induction false} Zeros(s: seq<int>)
    requires forall i :: 0 <= i < |s| ==> s[i] == 0
    ensures Sum(s) == 0
  {
    if s != [] { Zeros(s[..|s| - 1]); }
  }

  /** Attaching moves exactly the listed seconds from the waiting pool to the line, and touches no other line. */
  lemma {:induction false} AttachMoves(entries: seq<TimeEntry>, ref: LineRef, items: seq<BillableWork>, other: LineRef)
    requires Listed(entries, items)
    ensures var after := Attach(entries, ref, IdsOf(items));
            && SecondsAt(after, None) == SecondsAt(entries, None) - Seconds(items)
            && SecondsAt(after, Some(ref)) == SecondsAt(entries, Some(ref)) + Seconds(items)
            && (other != ref ==> SecondsAt(after, Some(other)) == SecondsAt(entries, Some(other)))
  {
    var ids := IdsOf(items);
    var after := Attach(entries, ref, ids);
    PickedSum(entries, items);
    forall e | e in ids && e < |entries| ensures entries[e].line.None? && entries[e].Chargeable() {
      var i :| 0 <= i < |items| && items[i].entryId == e;
    }
    PoolLoses(entries, ref, ids);
    LineGains(entries, ref, ids);
    if other != ref {
      assert WeightsAt(after, Some(other)) == WeightsAt(entries, Some(other));
    }
  }

  ghost predicate AllWaiting(entries: seq<TimeEntry>, ids: set<EntryId>) {
    forall e :: e in ids && e < |entries| ==> entries[e].line.None? && entries[e].Chargeable()
  }

  lemma PoolLoses(entries: seq<TimeEntry>, ref: LineRef, ids: set<EntryId>)
    requires AllWaiting(entries, ids)
    ensures SecondsAt(Attach(entries, ref, ids), None) == SecondsAt(entries, None) - Sum(Picked(entries, ids))
  {
    SumAdds(WeightsAt(entries, None), WeightsAt(Attach(entries, ref, ids), None), Picked(entries, ids));
  }

  lemma LineGains(entries: seq<TimeEntry>, ref: LineRef, ids: set<EntryId>)
    requires AllWaiting(entries, ids)
    ensures SecondsAt(Attach(entries, ref, ids), Some(ref)) == SecondsAt(entries, Some(ref)) + Sum(Picked(entries, ids))
  {
    SumAdds(WeightsAt(Attach(entries, ref, ids), Some(ref)), WeightsAt(entries, Some(ref)), Picked(entries, ids));
  }

  // ----- A whole statement's worth -----

  /** The groups list waiting entries, and no entry is in two of them. */
  ghost predicate GroupsListed(entries: seq<TimeEntry>, groups: seq<Group>) {
    && (forall g :: 0 <= g < |groups| ==> Listed(entries, groups[g].items))
    && (forall g, h :: 0 <= g < h < |groups| ==> IdsOf(groups[g].items) !! IdsOf(groups[h].items))
  }

  lemma {:induction false} AttachedEntry(entries: seq<TimeEntry>, statement: StatementId, groups: seq<Group>, e: EntryId)
    requires GroupsListed(entries, groups) && e < |entries|
    ensures |AttachGroups(entries, statement, groups)| == |entries|
    ensures var after := AttachGroups(entries, statement, groups)[e];
            && after == entries[e].(line := after.line)
            && (forall g :: 0 <= g < |groups| && e in IdsOf(groups[g].items) ==> after.line == Some(LineRef(statement, g)))
            && ((forall g :: 0 <= g < |groups| ==> e !in IdsOf(groups[g].items)) ==> after == entries[e])
  {
    if groups != [] {
      AttachedEntry(entries, statement, groups[..|groups| - 1], e);
      var g := |groups| - 1;
      if e in IdsOf(groups[g].items) {
        var i :| 0 <= i < |groups[g].items| && groups[g].items[i].entryId == e;
        assert entries[e].line.None?;
        forall h | 0 <= h < g ensures e !in IdsOf(groups[h].items) {
          assert IdsOf(groups[h].items) !! IdsOf(groups[g].items);
        }
      }
      forall h | 0 <= h < g ensures groups[..g][h] == groups[h] {}
    }
  }

  lemma {:induction false} StillListed(entries: seq<TimeEntry>, statement: StatementId, groups: seq<Group>, g: nat)
    requires GroupsListed(entries, groups) && g < |groups|
    ensures Listed(AttachGroups(entries, statement, groups[..g]), groups[g].items)
  {
    var items := groups[g].items;
    forall i | 0 <= i < |items|
      ensures var id := items[i].entryId;
              && |AttachGroups(entries, statement, groups[..g])| == |entries|
              && AttachGroups(entries, statement, groups[..g])[id] == entries[id]
    {
      var id := items[i].entryId;
      assert id in IdsOf(items);
      AttachedEntry(entries, statement, groups[..g], id);
      forall h | 0 <= h < g ensures id !in IdsOf(groups[..g][h].items) {
        assert IdsOf(groups[h].items) !! IdsOf(groups[g].items);
      }
    }
  }

  lemma {:induction false} AttachGroupsMoves(entries: seq<TimeEntry>, statement: StatementId, groups: seq<Group>,
                                             ref: LineRef)
    requires GroupsListed(entries, groups)
    requires forall e :: 0 <= e < |entries| ==> entries[e].line.Some? ==> entries[e].line.value.statement != statement
    ensures var after := AttachGroups(entries, statement, groups);
            && SecondsAt(after, None) == SecondsAt(entries, None) - Sum(Worked(groups))
            && (ref.statement != statement ==> SecondsAt(after, Some(ref)) == SecondsAt(entries, Some(ref)))
            && (ref.statement == statement ==>
                  SecondsAt(after, Some(ref)) == if ref.line < |groups| then Seconds(groups[ref.line].items) else 0)
  {
    if groups == [] {
      if ref.statement == statement {
        Zeros(WeightsAt(entries, Some(ref)));
      }
    } else {
      var g := |groups| - 1;
      AttachGroupsMoves(entries, statement, groups[..g], ref);
      AttachGroupsMoves(entries, statement, groups[..g], LineRef(statement, g));
      StillListed(entries, statement, groups, g);
      LastGroupMoves(AttachGroups(entries, statement, groups[..g]), statement, groups, g, ref);
    }
  }

  lemma {:induction false} LastGroupMoves(before: seq<TimeEntry>, statement: StatementId, groups: seq<Group>, g: nat, ref: LineRef)
    requires |groups| == g + 1 && Listed(before, groups[g].items) && SecondsAt(before, Some(LineRef(statement, g))) == 0
    ensures var after := Attach(before, LineRef(statement, g), IdsOf(groups[g].items));
            && SecondsAt(after, None) - SecondsAt(before, None) == Sum(Worked(groups[..g])) - Sum(Worked(groups))
            && SecondsAt(after, Some(ref))
               == if ref == LineRef(statement, g) then Seconds(groups[g].items) else SecondsAt(before, Some(ref))
  {
    AttachMoves(before, LineRef(statement, g), groups[g].items, ref);
    assert Worked(groups)[..g] == Worked(groups[..g]);
  }

  lemma {:induction false} WithKeyListed(entries: seq<TimeEntry>, work: seq<BillableWork>, key: GroupKey)
    requires Listed(entries, work)
    ensures Listed(entries, WithKey(work, key))
    ensures IdsOf(WithKey(work, key)) <= IdsOf(work)
  {
    if work != [] {
      var k := |work| - 1;
      WithKeyListed(entries, work[..k], key);
      assert work == work[..k] + [work[k]];
      IdsWithOneMore(work[..k], work[k]);
      assert work[k].entryId !in IdsOf(work[..k]) by {
        forall i | 0 <= i < k ensures work[..k][i].entryId != work[k].entryId { assert work[..k][i] == work[i]; }
      }
      var rest := WithKey(work[..k], key);
      IdsWithOneMore(rest, work[k]);
      forall i | 0 <= i < |rest| ensures rest[i].entryId in IdsOf(work[..k]) {
        assert rest[i].entryId in IdsOf(rest);
      }
    }
  }

  lemma SameIdSameItem(entries: seq<TimeEntry>, work: seq<BillableWork>, a: BillableWork, b: BillableWork)
    requires Listed(entries, work) && a in work && b in work && a.entryId == b.entryId
    ensures a == b
  {}

  lemma {:induction false} GroupedIsListed(entries: seq<TimeEntry>, work: seq<BillableWork>)
    requires Listed(entries, work)
    ensures GroupsListed(entries, Grouped(work))
  {
    GroupedPartitions(work);
    var groups := Grouped(work);
    forall g | 0 <= g < |groups| ensures Listed(entries, groups[g].items) {
      WithKeyListed(entries, work, groups[g].key);
    }
    forall g, h | 0 <= g < h < |groups| ensures IdsOf(groups[g].items) !! IdsOf(groups[h].items) {
      forall id | id in IdsOf(groups[g].items) ensures id !in IdsOf(groups[h].items) {
        KeyIsOwn(entries, work, groups[g].key, groups[h].key, id);
      }
    }
  }

  lemma {:induction false} KeyIsOwn(entries: seq<TimeEntry>, work: seq<BillableWork>, key: GroupKey,
                                    other: GroupKey, id: EntryId)
    requires Listed(entries, work) && key != other && id in IdsOf(WithKey(work, key))
    ensures id !in IdsOf(WithKey(work, other))
  {
    ItemsHaveKey(work, key);
    ItemsHaveKey(work, other);
    var mine, theirs := WithKey(work, key), WithKey(work, other);
    var i :| 0 <= i < |mine| && mine[i].entryId == id;
    forall j | 0 <= j < |theirs| ensures theirs[j].entryId != id {
      if theirs[j].entryId == id { SameIdSameItem(entries, work, mine[i], theirs[j]); }
    }
  }

  // ----- Releasing -----

  /** The seconds attached to the first lines of a statement. */
  function SecondsOn(entries: seq<TimeEntry>, statement: StatementId, lines: nat): int {
    if lines == 0 then 0
    else SecondsOn(entries, statement, lines - 1) + SecondsAt(entries, Some(LineRef(statement, lines - 1)))
  }

  function WeightsOn(entries: seq<TimeEntry>, statement: StatementId, lines: nat): seq<int> {
    seq(|entries|, e requires 0 <= e < |entries| =>
      if entries[e].Chargeable() && entries[e].line.Some? && entries[e].line.value.statement == statement
         && entries[e].line.value.line < lines then entries[e].seconds else 0)
  }

  lemma {:induction false} SecondsOnIs(entries: seq<TimeEntry>, statement: StatementId, lines: nat)
    ensures SecondsOn(entries, statement, lines) == Sum(WeightsOn(entries, statement, lines))
  {
    if lines == 0 {
      Zeros(WeightsOn(entries, statement, 0));
    } else {
      SecondsOnIs(entries, statement, lines - 1);
      SumAdds(WeightsOn(entries, statement, lines), WeightsOn(entries, statement, lines - 1),
              WeightsAt(entries, Some(LineRef(statement, lines - 1))));
    }
  }

  ghost predicate LinesBelow(entries: seq<TimeEntry>, statement: StatementId, lines: nat) {
    forall e :: 0 <= e < |entries| && entries[e].line.Some? && entries[e].line.value.statement == statement ==>
      entries[e].line.value.line < lines
  }

  lemma {:induction false} DetachFills(entries: seq<TimeEntry>, statement: StatementId, lines: nat)
    requires LinesBelow(entries, statement, lines)
    ensures SecondsAt(Detach(entries, EntriesOn(entries, statement)), None)
         == SecondsAt(entries, None) + SecondsOn(entries, statement, lines)
  {
    var after := Detach(entries, EntriesOn(entries, statement));
    SecondsOnIs(entries, statement, lines);
    SumAdds(WeightsAt(after, None), WeightsAt(entries, None), WeightsOn(entries, statement, lines));
  }

  /** Releasing a statement puts back exactly what its lines held, and moves no other line's hours. */
  lemma {:induction false} DetachMoves(entries: seq<TimeEntry>, statement: StatementId, lines: nat, other: LineRef)
    requires LinesBelow(entries, statement, lines)
    ensures var after := Detach(entries, EntriesOn(entries, statement));
            && SecondsAt(after, None) == SecondsAt(entries, None) + SecondsOn(entries, statement, lines)
            && (other.statement != statement ==> SecondsAt(after, Some(other)) == SecondsAt(entries, Some(other)))
            && ChargeableSeconds(after) == ChargeableSeconds(entries)
  {
    var after := Detach(entries, EntriesOn(entries, statement));
    DetachFills(entries, statement, lines);
    if other.statement != statement {
      assert WeightsAt(after, Some(other)) == WeightsAt(entries, Some(other));
    }
    SameChargeable(entries, after);
  }

  lemma SameChargeable(entries: seq<TimeEntry>, after: seq<TimeEntry>)
    requires |after| == |entries|
    requires forall e :: 0 <= e < |entries| ==> after[e] == entries[e].(line := after[e].line)
    ensures ChargeableSeconds(after) == ChargeableSeconds(entries)
  {
    assert ChargeableEach(entries) == ChargeableEach(after);
  }

  /** If every line's hours are the seconds attached to it, the statement's hours are those of all its entries. */
  lemma {:induction false} HoursAreAttached(entries: seq<TimeEntry>, statement: StatementId, lines: seq<StatementLine>)
    requires forall l :: 0 <= l < |lines| ==> lines[l].worked == SecondsAt(entries, Some(LineRef(statement, l)))
    ensures TotalWorked(lines) == SecondsOn(entries, statement, |lines|)
  {
    if lines != [] {
      var k := |lines| - 1;
      HoursAreAttached(entries, statement, lines[..k]);
      assert Hours(lines)[..k] == Hours(lines[..k]);
    }
  }
}
