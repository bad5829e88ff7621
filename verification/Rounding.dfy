/**
  Division to the nearest integer, ties away from zero: how every amount is rounded.

  `DivideHalfAway` follows the kernel's arithmetic. `NearestHalfAway` says, without any
  division, what an accountant expects of it; the two are shown to be the same thing.
 */
module Rounding {

  function Abs(n: int): nat {
    if n < 0 then -n else n
  }

  /** BigInt division: the quotient is cut off toward zero. */
  function Truncated(n: int, d: int): int
    requires d > 0
  {
    if n < 0 then -(-n / d) else n / d
  }

  /** The quotient of two magnitudes, half a unit counting as a whole one. */
  function HalfUp(n: nat, d: nat): nat
    requires d > 0
  {
    if n % d * 2 >= d then n / d + 1 else n / d
  }

  function DivideHalfAway(n: int, d: int): int
    requires d != 0
  {
    var rounded: int := HalfUp(Abs(n), Abs(d));
    if (n < 0) != (d < 0) then -rounded else rounded
  }

  /** Math.round of an exact quotient: halves go up. */
  function RoundHalfUp(n: int, d: int): int
    requires d > 0
  {
    (2 * n + d) / (2 * d)
  }

  /** r is an integer nearest to n/d, and of two equally near ones the one further from zero. */
  ghost predicate NearestHalfAway(n: int, d: int, r: int) {
    && 2 * Abs(r * d - n) <= d
    && (2 * Abs(r * d - n) == d ==> Abs(r * d) > Abs(n))
  }

  lemma HalfUpIsNearest(n: nat, d: nat, r: nat)
    requires d > 0 && r == HalfUp(n, d)
    ensures -(d as int) < 2 * (r * d - n) <= d
  {
    var q, rem := n / d, n % d;
    assert n == q * d + rem;
    if r == q + 1 {
      assert r * d == q * d + d;
    }
  }

  lemma DivideIsNearest(n: int, d: int)
    requires d > 0
    ensures NearestHalfAway(n, d, DivideHalfAway(n, d))
  {
    var r := HalfUp(Abs(n), d);
    HalfUpIsNearest(Abs(n), d, r);
    var p := r * d;
    assert (-r) * d == -p;
    assert p >= 0;
  }

  lemma Multiple(k: int, d: int)
    requires d > 0
    ensures k >= 1 ==> k * d >= d
    ensures k >= 2 ==> k * d >= 2 * d
  {
    if k >= 1 { assert k * d == (k - 1) * d + d; assert (k - 1) * d >= 0; }
    if k >= 2 { assert k * d == (k - 2) * d + 2 * d; assert (k - 2) * d >= 0; }
  }

  lemma NearestOrdered(m: int, n: int, d: int, r: int, s: int)
    requires d > 0 && m <= n
    requires NearestHalfAway(m, d, r) && NearestHalfAway(n, d, s)
    ensures r <= s
  {
    SameSign(r, d);
    SameSign(s, d);
    NotOneApart(m, n, d, r * d, s * d);
    Distribute(r, -s, d);
    Multiple(r - s, d);
  }

  /** Only a tie could put two nearest multiples one apart, and then both lie on the same side. */
  lemma NotOneApart(m: int, n: int, d: int, p: int, q: int)
    requires d > 0 && m <= n
    requires 2 * Abs(p - m) <= d && (2 * Abs(p - m) == d ==> Abs(p) > Abs(m))
    requires 2 * Abs(q - n) <= d && (2 * Abs(q - n) == d ==> Abs(q) > Abs(n))
    requires (p >= 0 || p <= -d) && (q >= 0 || q <= -d)
    ensures p - q < d
  {}

  lemma SameSign(r: int, d: int)
    requires d > 0
    ensures r >= 0 ==> r * d >= 0
    ensures r < 0 ==> r * d <= -d
  {
    Multiple(-r, d);
    assert (-r) * d == -(r * d);
  }

  /** The specification has one answer, so it is a complete description of the function. */
  lemma NearestIsUnique(n: int, d: int, r: int)
    requires d > 0
    ensures NearestHalfAway(n, d, r) <==> r == DivideHalfAway(n, d)
  {
    DivideIsNearest(n, d);
    var s := DivideHalfAway(n, d);
    if NearestHalfAway(n, d, r) {
      NearestOrdered(n, n, d, r, s);
      NearestOrdered(n, n, d, s, r);
    }
  }

  /** The rule treats a debit and a credit alike, whichever operand carries the sign. */
  lemma HalfAwayIsOdd(n: int, d: int)
    requires d != 0
    ensures DivideHalfAway(-n, d) == -DivideHalfAway(n, d)
    ensures DivideHalfAway(n, -d) == -DivideHalfAway(n, d)
  {
    assert Abs(-n) == Abs(n) && Abs(-d) == Abs(d);
    if n == 0 {
      var p: nat := Abs(d);
      assert 0 / p == 0 && 0 % p == 0;
    }
  }

  lemma HalfAwayIsMonotone(m: int, n: int, d: int)
    requires d > 0 && m <= n
    ensures DivideHalfAway(m, d) <= DivideHalfAway(n, d)
  {
    DivideIsNearest(m, d);
    DivideIsNearest(n, d);
    NearestOrdered(m, n, d, DivideHalfAway(m, d), DivideHalfAway(n, d));
  }

  lemma HalfUpBounds(n: int, d: int, r: int)
    requires d > 0 && r == RoundHalfUp(n, d)
    ensures -d <= 2 * (n - r * d) < d
  {
    var rem := (2 * n + d) % (2 * d);
    assert 2 * n + d == r * (2 * d) + rem;
    assert r * (2 * d) == 2 * (r * d);
  }

  /** On amounts that are not negative the two rounding rules agree. */
  lemma HalfUpAgrees(n: int, d: int)
    requires d > 0 && n >= 0
    ensures RoundHalfUp(n, d) == DivideHalfAway(n, d)
  {
    var r := RoundHalfUp(n, d);
    HalfUpBounds(n, d, r);
    SameSign(r, d);
    NearestIsUnique(n, d, r);
  }

  /** A whole multiple is not rounded at all. */
  lemma ExactDivision(k: int, d: int)
    requires d > 0
    ensures DivideHalfAway(k * d, d) == k
  {
    NearestIsUnique(k * d, d, k);
  }

  function Sum(s: seq<int>): int {
    if s == [] then 0 else Sum(s[..|s| - 1]) + s[|s| - 1]
  }

  lemma {:induction false} SumOfConcat(a: seq<int>, b: seq<int>)
    ensures Sum(a + b) == Sum(a) + Sum(b)
  {
    if b == [] {
      assert a + b == a;
    } else {
      assert (a + b)[..|a + b| - 1] == a + b[..|b| - 1];
      SumOfConcat(a, b[..|b| - 1]);
    }
  }

  function AllBut<T>(s: seq<T>, m: nat): seq<T>
    requires m < |s|
  {
    s[..m] + s[m + 1..]
  }

  lemma AllButIs<T>(s: seq<T>, m: nat)
    requires m < |s|
    ensures multiset(s) == multiset(AllBut(s, m)) + multiset{s[m]}
    ensures forall k :: 0 <= k < |s| - 1 ==> AllBut(s, m)[k] == if k < m then s[k] else s[k + 1]
  {
    assert s == s[..m] + [s[m]] + s[m + 1..];
  }

  lemma CancelOne<T>(a: multiset<T>, b: multiset<T>, x: T)
    requires a + multiset{x} == b + multiset{x}
    ensures a == b
  {
    assert a == a + multiset{x} - multiset{x} == b + multiset{x} - multiset{x} == b;
  }

  lemma BothWithoutOne<T>(a: seq<T>, b: seq<T>, m: nat)
    requires a != [] && multiset(a) == multiset(b) && m < |b| && b[m] == a[|a| - 1]
    ensures multiset(a[..|a| - 1]) == multiset(AllBut(b, m))
  {
    AllButIs(a, |a| - 1);
    AllButIs(b, m);
    assert AllBut(a, |a| - 1) == a[..|a| - 1];
    CancelOne(multiset(a[..|a| - 1]), multiset(AllBut(b, m)), b[m]);
  }

  lemma {:induction false} SumWithout(s: seq<int>, m: nat)
    requires m < |s|
    ensures Sum(s) == Sum(AllBut(s, m)) + s[m]
  {
    assert s == s[..m] + [s[m]] + s[m + 1..];
    SumOfConcat(s[..m] + [s[m]], s[m + 1..]);
    SumOfConcat(s[..m], [s[m]]);
    SumOfConcat(s[..m], s[m + 1..]);
    OneSum(s[m]);
  }

  lemma {:induction false} SumIgnoresOrder(a: seq<int>, b: seq<int>)
    requires multiset(a) == multiset(b)
    ensures Sum(a) == Sum(b)
    decreases |a|
  {
    if a == [] {
      assert |multiset(b)| == |b|;
    } else {
      var n := |a| - 1;
      assert a[n] in multiset(a);
      var m :| 0 <= m < |b| && b[m] == a[n];
      BothWithoutOne(a, b, m);
      SumIgnoresOrder(a[..n], AllBut(b, m));
      SumWithout(b, m);
    }
  }

  lemma OneSum(x: int)
    ensures Sum([x]) == x
  {
    assert [x][..0] == [];
  }

  lemma {:induction false} SumIsMonotone(a: seq<int>, b: seq<int>)
    requires |a| == |b| && forall i :: 0 <= i < |a| ==> a[i] <= b[i]
    ensures Sum(a) <= Sum(b)
  {
    if a != [] {
      SumIsMonotone(a[..|a| - 1], b[..|b| - 1]);
    }
  }

  lemma {:induction false} SumAdds(a: seq<int>, b: seq<int>, c: seq<int>)
    requires |a| == |b| == |c| && forall i :: 0 <= i < |a| ==> a[i] == b[i] + c[i]
    ensures Sum(a) == Sum(b) + Sum(c)
  {
    if a != [] {
      SumAdds(a[..|a| - 1], b[..|b| - 1], c[..|c| - 1]);
    }
  }

  /** A sum moves by what one of its terms moves. */
  lemma {:induction false} SumUpdate(s: seq<int>, i: nat, v: int)
    requires i < |s|
    ensures Sum(s[i := v]) == Sum(s) - s[i] + v
  {
    if i == |s| - 1 {
      assert s[i := v][..|s| - 1] == s[..|s| - 1];
    } else {
      SumUpdate(s[..|s| - 1], i, v);
      assert s[i := v][..|s| - 1] == s[..|s| - 1][i := v];
    }
  }

  /** The figures rs are the figures ns over d, each rounded on its own. */
  ghost predicate RoundedEach(ns: seq<int>, d: int, rs: seq<int>) {
    |rs| == |ns| && forall i :: 0 <= i < |ns| ==> NearestHalfAway(ns[i], d, rs[i])
  }

  /** Rounding n figures one by one drifts from their exact sum by at most half a unit each. */
  lemma {:induction false} EachRoundingDrift(ns: seq<int>, d: int, rs: seq<int>)
    requires d > 0 && RoundedEach(ns, d, rs)
    ensures 2 * Abs(Sum(rs) * d - Sum(ns)) <= |ns| * d
  {
    if ns != [] {
      var k := |ns| - 1;
      EachRoundingDrift(ns[..k], d, rs[..k]);
      assert NearestHalfAway(ns[k], d, rs[k]);
      assert Sum(rs) * d == Sum(rs[..k]) * d + rs[k] * d by {
        Distribute(Sum(rs[..k]), rs[k], d);
      }
      Distribute(k, 1, d);
    }
  }

  lemma Distribute(a: int, b: int, d: int)
    ensures (a + b) * d == a * d + b * d
  {}

  /** Rounding each of n figures and adding, or adding and rounding once, differ by at most (n+1)/2. */
  lemma {:induction false} RoundingDrift(ns: seq<int>, d: int, rs: seq<int>, once: int)
    requires d > 0 && RoundedEach(ns, d, rs) && NearestHalfAway(Sum(ns), d, once)
    ensures 2 * Abs(Sum(rs) - once) <= |ns| + 1
  {
    EachRoundingDrift(ns, d, rs);
    DriftCancels(Sum(rs), once, Sum(ns), d, |ns|);
  }

  lemma CancelFactor(a: int, b: int, d: int)
    requires d > 0 && a * d <= b * d
    ensures a <= b
  {
    Distribute(a, -b, d);
    Multiple(a - b, d);
  }

  lemma AbsTimes(x: int, y: int, d: int)
    requires d > 0
    ensures Abs(x - y) * d == Abs(x * d - y * d)
  {
    Distribute(x, -y, d);
    Distribute(y, -x, d);
    SameSign(x - y, d);
  }

  lemma DriftCancels(each: int, once: int, exact: int, d: int, n: nat)
    requires d > 0
    requires 2 * Abs(each * d - exact) <= n * d
    requires 2 * Abs(once * d - exact) <= d
    ensures 2 * Abs(each - once) <= n + 1
  {
    var apart := Abs(each - once);
    AbsTimes(each, once, d);
    assert 2 * (apart * d) <= n * d + d;
    Distribute(apart, apart, d);
    Distribute(n, 1, d);
    CancelFactor(apart + apart, n + 1, d);
  }
}
