/** `Money.allocate`: an amount divided in proportion to weights, into shares that sum to it. */
module Allocation {
  import opened Wrappers
  import opened Rounding

  datatype AllocateError = NoWeights | NegativeWeight | NothingToShareBy

  predicate Usable(weights: seq<int>) {
    NonNegative(weights) && Sum(weights) > 0
  }

  predicate NonNegative(weights: seq<int>) {
    forall i :: 0 <= i < |weights| ==> weights[i] >= 0
  }

  function Scaled(minor: int, weights: seq<int>): seq<int> {
    seq(|weights|, i requires 0 <= i < |weights| => minor * weights[i])
  }

  /** Each weight's share of the amount, cut off toward zero. */
  function Quotas(minor: int, weights: seq<int>, total: int): seq<int>
    requires total > 0
  {
    seq(|weights|, i requires 0 <= i < |weights| => Truncated(minor * weights[i], total))
  }

  function Remainder(minor: int, weights: seq<int>): int
    requires Sum(weights) > 0
  {
    minor - Sum(Quotas(minor, weights, Sum(weights)))
  }

  /** The truncated quotas, with the remainder handed out one unit at a time from the front. */
  function Shares(minor: int, weights: seq<int>): seq<int>
    requires Sum(weights) > 0
  {
    var quotas := Quotas(minor, weights, Sum(weights));
    TopUp(quotas, Abs(Remainder(minor, weights)), if Remainder(minor, weights) < 0 then -1 else 1)
  }

  function TopUp(quotas: seq<int>, turns: nat, unit: int): seq<int> {
    seq(|quotas|, i requires 0 <= i < |quotas| => if i < turns then quotas[i] + unit else quotas[i])
  }

  method Allocate(minor: int, weights: seq<int>) returns (r: Result<seq<int>, AllocateError>)
    ensures r.Ok? <==> Usable(weights)
    ensures r.Ok? ==> r.value == Shares(minor, weights)
    ensures |weights| == 0 ==> r == Err(NoWeights)
    ensures |weights| > 0 && !NonNegative(weights) ==> r == Err(NegativeWeight)
  {
    if |weights| == 0 {
      return Err(NoWeights);
    }
    if exists i :: 0 <= i < |weights| && weights[i] < 0 {
      return Err(NegativeWeight);
    }
    var total := Total(weights);
    if total == 0 {
      return Err(NothingToShareBy);
    }
    SumOfWeights(weights);
    var shares := new int[|weights|];
    var distributed := CutOff(minor, weights, total, shares);
    RemainderIsShort(minor, weights);
    HandOut(shares, minor - distributed);
    return Ok(shares[..]);
  }

  method Total(weights: seq<int>) returns (total: int)
    ensures total == Sum(weights)
  {
    total := 0;
    for i := 0 to |weights|
      invariant total == Sum(weights[..i])
    {
      total := total + weights[i];
      assert weights[..i + 1][..i] == weights[..i];
    }
    assert weights[..|weights|] == weights;
  }

  method CutOff(minor: int, weights: seq<int>, total: int, shares: array<int>) returns (distributed: int)
    requires total > 0 && shares.Length == |weights|
    modifies shares
    ensures shares[..] == Quotas(minor, weights, total)
    ensures distributed == Sum(shares[..])
  {
    distributed := 0;
    ghost var quotas := Quotas(minor, weights, total);
    for i := 0 to |weights|
      invariant shares[..i] == quotas[..i]
      invariant distributed == Sum(quotas[..i])
    {
      var share := Truncated(minor * weights[i], total);
      shares[i] := share;
      distributed := distributed + share;
      assert quotas[..i + 1][..i] == quotas[..i];
    }
    assert quotas[..|weights|] == quotas;
  }

  method HandOut(shares: array<int>, left: int)
    requires Abs(left) < shares.Length
    modifies shares
    ensures shares[..] == TopUp(old(shares[..]), Abs(left), if left < 0 then -1 else 1)
  {
    var unit := if left < 0 then -1 else 1;
    var remainder, index := left, 0;
    while remainder != 0
      invariant 0 <= index <= Abs(left)
      invariant remainder == if left < 0 then left + index else left - index
      invariant forall k :: 0 <= k < shares.Length ==>
        shares[k] == old(shares[k]) + if k < index then unit else 0
      decreases Abs(remainder)
    {
      shares[index] := shares[index] + unit;
      remainder := remainder - unit;
      index := Following(index, shares.Length);
    }
  }

  function Following(index: nat, count: nat): (next: nat)
    requires index < count
    ensures next == if index + 1 < count then index + 1 else 0
  {
    (index + 1) % count
  }

  lemma {:induction false} SumOfWeights(weights: seq<int>)
    requires NonNegative(weights)
    ensures Sum(weights) >= 0
  {
    if weights != [] {
      SumOfWeights(weights[..|weights| - 1]);
    }
  }

  lemma {:induction false} SumScaled(minor: int, weights: seq<int>)
    ensures Sum(Scaled(minor, weights)) == minor * Sum(weights)
  {
    if weights != [] {
      var k := |weights| - 1;
      SumScaled(minor, weights[..k]);
      assert Scaled(minor, weights)[..k] == Scaled(minor, weights[..k]);
    }
  }

  /** The exact quota is n over d; cutting it off loses less than one unit, toward zero. */
  lemma TruncatedBounds(n: int, d: int)
    requires d > 0
    ensures n >= 0 ==> 0 <= n - Truncated(n, d) * d < d
    ensures n <= 0 ==> -d < n - Truncated(n, d) * d <= 0
    ensures Truncated(-n, d) == -Truncated(n, d)
    ensures n >= 0 ==> Truncated(n, d) >= 0
  {
    var a: int := if n < 0 then -n else n;
    var q, rem := a / d, a % d;
    assert a == q * d + rem;
    assert (-q) * d == -(q * d);
    if n == 0 { assert 0 / d == 0; }
  }

  lemma {:induction false} QuotasFallShort(minor: int, weights: seq<int>, total: int)
    requires minor >= 0 && total > 0 && NonNegative(weights)
    ensures 0 <= Sum(Scaled(minor, weights)) - Sum(Quotas(minor, weights, total)) * total
    ensures Sum(Scaled(minor, weights)) - Sum(Quotas(minor, weights, total)) * total <= |weights| * (total - 1)
  {
    if weights != [] {
      var k := |weights| - 1;
      QuotasFallShort(minor, weights[..k], total);
      assert Scaled(minor, weights)[..k] == Scaled(minor, weights[..k]);
      assert Quotas(minor, weights, total)[..k] == Quotas(minor, weights[..k], total);
      var n := minor * weights[k];
      assert n >= 0;
      TruncatedBounds(n, total);
      Distribute(Sum(Quotas(minor, weights[..k], total)), Truncated(n, total), total);
      Distribute(k, 1, total - 1);
    }
  }

  lemma {:induction false} SumOfNegated(a: seq<int>, b: seq<int>)
    requires |a| == |b| && forall i :: 0 <= i < |a| ==> a[i] == -b[i]
    ensures Sum(a) == -Sum(b)
  {
    if a != [] {
      SumOfNegated(a[..|a| - 1], b[..|b| - 1]);
    }
  }

  lemma {:induction false} NegatedQuotas(minor: int, weights: seq<int>)
    requires Usable(weights)
    ensures var total := Sum(weights);
            forall i :: 0 <= i < |weights| ==> Quotas(-minor, weights, total)[i] == -Quotas(minor, weights, total)[i]
    ensures Remainder(-minor, weights) == -Remainder(minor, weights)
  {
    var total := Sum(weights);
    forall i | 0 <= i < |weights|
      ensures Quotas(-minor, weights, total)[i] == -Quotas(minor, weights, total)[i]
    {
      TruncatedBounds(minor * weights[i], total);
      assert (-minor) * weights[i] == -(minor * weights[i]);
    }
    SumOfNegated(Quotas(-minor, weights, total), Quotas(minor, weights, total));
  }

  lemma {:induction false} CreditRemainder(minor: nat, weights: seq<int>)
    requires Usable(weights)
    ensures 0 <= Remainder(minor, weights) < |weights|
  {
    var total := Sum(weights);
    SumScaled(minor, weights);
    QuotasFallShort(minor, weights, total);
    FewerThanShares(minor, Sum(Quotas(minor, weights, total)), total, |weights|);
  }

  /** The loop that hands out the remainder runs fewer turns than there are shares. */
  lemma {:induction false} RemainderIsShort(minor: int, weights: seq<int>)
    requires Usable(weights)
    ensures Abs(Remainder(minor, weights)) < |weights|
    ensures minor >= 0 ==> Remainder(minor, weights) >= 0
    ensures minor <= 0 ==> Remainder(minor, weights) <= 0
  {
    if minor < 0 {
      CreditRemainder(-minor, weights);
    } else {
      CreditRemainder(minor, weights);
    }
    NegatedQuotas(minor, weights);
  }

  lemma FewerThanShares(minor: int, quotas: int, total: int, n: nat)
    requires total > 0 && n > 0 && 0 <= minor * total - quotas * total <= n * (total - 1)
    ensures 0 <= minor - quotas < n
  {
    Distribute(minor, -quotas, total);
    SameSign(minor - quotas, total);
    Distribute(total, -1, n);
    Distribute(minor - quotas, 0 - n, total);
    SameSign(minor - quotas - n, total);
  }

  lemma {:induction false} SumOfTopUp(quotas: seq<int>, turns: nat, unit: int)
    ensures Sum(TopUp(quotas, turns, unit)) == Sum(quotas) + unit * (if turns < |quotas| then turns else |quotas|)
  {
    if quotas != [] {
      var k := |quotas| - 1;
      SumOfTopUp(quotas[..k], turns, unit);
      assert TopUp(quotas, turns, unit)[..k] == TopUp(quotas[..k], turns, unit);
    }
  }

  /** Nothing is lost and nothing invented. */
  lemma SharesConserve(minor: int, weights: seq<int>)
    requires Usable(weights)
    ensures |Shares(minor, weights)| == |weights|
    ensures Sum(Shares(minor, weights)) == minor
  {
    RemainderIsShort(minor, weights);
    var rem := Remainder(minor, weights);
    SumOfTopUp(Quotas(minor, weights, Sum(weights)), Abs(rem), if rem < 0 then -1 else 1);
  }

  /** Every share is within one unit of its exact quota, on the same side of zero as the amount. */
  lemma {:induction false} ShareIsFair(minor: int, weights: seq<int>, i: nat)
    requires Usable(weights) && i < |weights|
    ensures var share, total := Shares(minor, weights)[i], Sum(weights);
            && Abs(share * total - minor * weights[i]) <= total
            && (minor >= 0 ==> share >= 0)
            && (minor <= 0 ==> share <= 0)
  {
    RemainderIsShort(minor, weights);
    var total := Sum(weights);
    var q, extra := Quotas(minor, weights, total)[i], Shares(minor, weights)[i] - Quotas(minor, weights, total)[i];
    SameSideOfZero(minor, weights[i]);
    TruncatedBounds(minor * weights[i], total);
    TopUpIsFair(minor * weights[i], q, extra, total);
  }

  lemma SameSideOfZero(m: int, w: int)
    requires w >= 0
    ensures m >= 0 ==> m * w >= 0
    ensures m <= 0 ==> m * w <= 0
  {}

  lemma TopUpIsFair(n: int, q: int, extra: int, d: int)
    requires d > 0 && q == Truncated(n, d) && -1 <= extra <= 1
    requires n >= 0 || extra <= 0
    requires n <= 0 || extra >= 0
    ensures Abs((q + extra) * d - n) <= d
  {
    TruncatedBounds(n, d);
    Distribute(q, extra, d);
    assert extra * d == if extra == 0 then 0 else if extra == 1 then d else -d;
  }

  lemma SharesAreOdd(minor: int, weights: seq<int>, i: nat)
    requires Usable(weights) && i < |weights|
    ensures Shares(-minor, weights)[i] == -Shares(minor, weights)[i]
  {
    NegatedQuotas(minor, weights);
    OddTopUp(Quotas(minor, weights, Sum(weights)), Quotas(-minor, weights, Sum(weights)), Remainder(minor, weights), i);
  }

  lemma OddTopUp(quotas: seq<int>, negated: seq<int>, rem: int, i: nat)
    requires i < |quotas| == |negated| && negated[i] == -quotas[i]
    ensures TopUp(negated, Abs(-rem), if -rem < 0 then -1 else 1)[i] == -TopUp(quotas, Abs(rem), if rem < 0 then -1 else 1)[i]
  {}

  /**
    A share whose weight is zero is still charged, exactly if the whole parts of all the shares leave more
    units over than there are shares before it. The largest-remainder method would never charge it.
   */
  lemma {:induction false} ZeroWeightShare(minor: int, weights: seq<int>, i: nat)
    requires Usable(weights) && i < |weights| && weights[i] == 0
    ensures Shares(minor, weights)[i] != 0 <==> Sum(Quotas(Abs(minor), weights, Sum(weights))) + i < Abs(minor)
  {
    RemainderIsShort(minor, weights);
    NegatedQuotas(minor, weights);
    var total := Sum(weights);
    assert Quotas(minor, weights, total)[i] == 0 by {
      assert minor * 0 == 0;
      assert 0 / total == 0;
    }
  }

  lemma ZeroWeightIsCharged()
    ensures Usable([0, 1, 1]) && Shares(1, [0, 1, 1])[0] == 1
  {
    var w := [0, 1, 1];
    SumOfThree(w);
    var q := Quotas(1, w, 2);
    SumOfThree(q);
    assert q[0] == 0 && q[1] == 0 && q[2] == 0;
    ZeroWeightShare(1, w, 0);
  }

  lemma {:induction false} SumOfThree(s: seq<int>)
    requires |s| == 3
    ensures Sum(s) == s[0] + s[1] + s[2]
  {
    assert s[..2][..1] == [s[0]] && [s[0]][..0] == [];
    assert Sum(s[..2]) == Sum(s[..2][..1]) + s[1];
  }
}
