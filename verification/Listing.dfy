/** The query behind every sweep: the first rows in some order, no more than a limit. */
module Listing {
  import opened Wrappers

  /** For every row its place in the order, or nothing if the query does not want it. */
  type Keys = seq<Option<int>>

  function Wanted(keys: Keys): set<nat> {
    set i | 0 <= i < |keys| && keys[i].Some?
  }

  function Members(ids: seq<nat>): set<nat> {
    set n | 0 <= n < |ids| :: ids[n]
  }

  /** Wanted rows, each once, in order; and when one is left out the limit is reached and none listed comes after it. */
  ghost predicate IsFirst(keys: Keys, limit: nat, ids: seq<nat>) {
    && |ids| <= limit
    && (forall n :: 0 <= n < |ids| ==> ids[n] < |keys| && keys[ids[n]].Some?)
    && (forall m, n :: 0 <= m < n < |ids| ==> ids[m] != ids[n] && keys[ids[m]].value <= keys[ids[n]].value)
    && (forall i :: 0 <= i < |keys| && keys[i].Some? && i !in ids ==>
          |ids| == limit && forall n :: 0 <= n < |ids| ==> keys[ids[n]].value <= keys[i].value)
  }

  method Next(keys: Keys, listed: seq<nat>) returns (found: Option<nat>)
    ensures found.None? ==> forall i :: 0 <= i < |keys| && keys[i].Some? ==> i in listed
    ensures found.Some? ==>
      && found.value < |keys| && keys[found.value].Some? && found.value !in listed
      && forall i :: 0 <= i < |keys| && keys[i].Some? && i !in listed ==> keys[found.value].value <= keys[i].value
  {
    found := None;
    for k := 0 to |keys|
      invariant found.None? ==> forall i :: 0 <= i < k && keys[i].Some? ==> i in listed
      invariant found.Some? ==>
        && found.value < k && keys[found.value].Some? && found.value !in listed
        && forall i :: 0 <= i < k && keys[i].Some? && i !in listed ==> keys[found.value].value <= keys[i].value
    {
      if keys[k].Some? && k !in listed {
        if found.None? || keys[k].value < keys[found.value].value {
          found := Some(k);
        }
      }
    }
  }

  method List(keys: Keys, limit: nat) returns (ids: seq<nat>)
    ensures IsFirst(keys, limit, ids)
  {
    ids := [];
    while |ids| < limit
      invariant |ids| <= limit
      invariant forall n :: 0 <= n < |ids| ==> ids[n] < |keys| && keys[ids[n]].Some?
      invariant forall m, n :: 0 <= m < n < |ids| ==> ids[m] != ids[n] && keys[ids[m]].value <= keys[ids[n]].value
      invariant forall i, n :: 0 <= i < |keys| && keys[i].Some? && i !in ids && 0 <= n < |ids| ==>
        keys[ids[n]].value <= keys[i].value
    {
      var next := Next(keys, ids);
      if next.None? {
        return;
      }
      ids := ids + [next.value];
    }
  }

  lemma {:induction false} MembersCount(ids: seq<nat>)
    requires forall m, n :: 0 <= m < n < |ids| ==> ids[m] != ids[n]
    ensures |Members(ids)| == |ids|
  {
    if ids != [] {
      var k := |ids| - 1;
      MembersCount(ids[..k]);
      assert Members(ids) == Members(ids[..k]) + {ids[k]} by {
        forall i ensures i in Members(ids) <==> i in Members(ids[..k]) + {ids[k]} {
          if n :| 0 <= n < k && ids[n] == i { assert ids[..k][n] == i; }
          if n :| 0 <= n < k && ids[..k][n] == i { assert ids[n] == i; }
        }
      }
      assert ids[k] !in Members(ids[..k]);
    }
  }

  lemma SmallerSet(a: set<nat>, b: set<nat>)
    requires a <= b
    ensures |a| <= |b|
  {
    assert b == a + (b - a);
  }

  lemma LeftOver(a: set<nat>, b: set<nat>)
    requires b <= a
    ensures |a - b| == |a| - |b|
  {
    assert a == b + (a - b);
  }

  lemma Parted(a: set<nat>, b: set<nat>)
    ensures |a| == |a - b| + |a * b|
  {
    assert a == (a - b) + (a * b);
  }

  /** As many as the limit allows, and all of them when they fit. */
  lemma ListsWhatFits(keys: Keys, limit: nat, ids: seq<nat>)
    requires IsFirst(keys, limit, ids)
    ensures Members(ids) <= Wanted(keys) && |Members(ids)| == |ids|
    ensures |ids| < limit ==> Members(ids) == Wanted(keys)
    ensures |Wanted(keys)| <= limit ==> Members(ids) == Wanted(keys)
    ensures |ids| == if |Wanted(keys)| < limit then |Wanted(keys)| else limit
  {
    MembersCount(ids);
    forall i ensures i in Members(ids) <==> i in ids {}
    SmallerSet(Members(ids), Wanted(keys));
    if |ids| == limit && |Wanted(keys)| <= limit {
      assert |Wanted(keys) - Members(ids)| == |Wanted(keys)| - |Members(ids)|;
      assert Wanted(keys) == Members(ids) + (Wanted(keys) - Members(ids));
    }
  }

  /** A row with as many rows strictly before it as the limit is never listed. */
  lemma ShutOut(keys: Keys, limit: nat, ids: seq<nat>, front: set<nat>, i: nat)
    requires IsFirst(keys, limit, ids) && i < |keys| && keys[i].Some?
    requires front <= Wanted(keys) && |front| >= limit
    requires forall f :: f in front ==> keys[f].value < keys[i].value
    ensures i !in ids
  {
    MembersCount(ids);
    if i in ids {
      forall f | f in front ensures f in Members(ids) {
        assert f in Wanted(keys);
        assert f in ids;
      }
      assert i in Members(ids) && i !in front;
      SmallerSet(front, Members(ids) - {i});
    }
  }

  ghost predicate DistinctKeys(keys: Keys) {
    forall i, j :: 0 <= i < j < |keys| && keys[i].Some? ==> keys[i] != keys[j]
  }

  function Earlier(keys: Keys, i: nat): set<nat>
    requires i < |keys| && keys[i].Some?
  {
    set j | 0 <= j < |keys| && keys[j].Some? && keys[j].value < keys[i].value
  }

  /** Where no two stand equal, a wanted row is listed exactly if fewer than the limit come before it. */
  lemma ListedIffEarlyEnough(keys: Keys, limit: nat, ids: seq<nat>, i: nat)
    requires IsFirst(keys, limit, ids) && i < |keys| && keys[i].Some? && DistinctKeys(keys)
    ensures i in ids <==> |Earlier(keys, i)| < limit
  {
    if |Earlier(keys, i)| >= limit {
      ShutOut(keys, limit, ids, Earlier(keys, i), i);
    }
    if i !in ids {
      MembersCount(ids);
      forall m | m in Members(ids) ensures m in Earlier(keys, i) {
        assert keys[m].value <= keys[i].value && keys[m] != keys[i];
      }
      SmallerSet(Members(ids), Earlier(keys, i));
    }
  }
}
