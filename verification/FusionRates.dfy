/** Matching the rates of two kernels joined by one stream. */
module FusionRates {
  import opened RingArith

  ghost predicate Divides(x: nat, n: nat) {
    exists q: nat {:trigger x * q} :: n == x * q
  }

  ghost predicate CommonMultiple(x: nat, y: nat, n: nat) {
    0 < n && Divides(x, n) && Divides(y, n)
  }

  ghost predicate IsLcm(x: nat, y: nat, n: nat) {
    CommonMultiple(x, y, n) && forall m {:trigger CommonMultiple(x, y, m)} :: CommonMultiple(x, y, m) ==> n <= m
  }

  lemma ModMeansDivides(x: nat, n: nat)
    requires 0 < x
    ensures n % x == 0 <==> Divides(x, n)
  {
    assert n == x * (n / x) + n % x;
    if Divides(x, n) {
      var q: nat :| n == x * q;
      ModIs(n, q, 0, x);
    }
  }

  /** Steps through the multiples of y until x divides one: the search ends, at the least common multiple. */
  method MyLCM(x: nat, y: nat) returns (i: nat)
    requires 0 < x && 0 < y
    ensures IsLcm(x, y, i)
  {
    i := y;
    ghost var k := 1;
    while i % x != 0
      invariant 1 <= k <= x && i == y * k
      invariant forall j {:trigger y * j} :: 0 < j < k ==> (y * j) % x != 0
      decreases x - k
    {
      if k == x {
        ModIs(i, y, 0, x);
        assert false;
      }
      Distributes(y, k, 1);
      i := i + y;
      k := k + 1;
    }
    ModMeansDivides(x, i);
    forall m | CommonMultiple(x, y, m)
      ensures i <= m
    {
      var j: nat :| m == y * j;
      if j < k {
        ModMeansDivides(x, y * j);
        assert false;
      } else {
        Distributes(y, k, j - k);
      }
    }
    Distributes(y, 1, k - 1);
  }

  /** How often each kernel fires in one firing of the fused kernel. */
  method MatchRates(push: nat, pop: nat) returns (niter0: nat, niter1: nat, lcm: nat)
    requires 0 < push && 0 < pop
    ensures IsLcm(push, pop, lcm) && niter0 * push == lcm == niter1 * pop
    ensures 0 < niter0 && 0 < niter1
  {
    var l := MyLCM(push, pop);
    lcm := MyLCM(1, l);
    LcmWithOne(l, lcm);
    niter0, niter1 := lcm / push, lcm / pop;
    ExactQuotient(push, lcm);
    ExactQuotient(pop, lcm);
  }

  lemma LcmWithOne(l: nat, n: nat)
    requires 0 < l && IsLcm(1, l, n)
    ensures n == l
  {
    assert l == 1 * l && l == l * 1;
    assert CommonMultiple(1, l, l);
    var q: nat :| n == l * q;
    if q >= 1 {
      Distributes(l, 1, q - 1);
    }
  }

  lemma ExactQuotient(x: nat, n: nat)
    requires 0 < x && 0 < n && Divides(x, n)
    ensures (n / x) * x == n && 0 < n / x
  {
    ModMeansDivides(x, n);
    assert n == x * (n / x);
  }

  /** Those are the least numbers of firings that move the same number of elements in and out. */
  lemma LeastFirings(push: nat, pop: nat, lcm: nat, niter0: nat, niter1: nat, a: nat, b: nat)
    requires 0 < push && 0 < pop && IsLcm(push, pop, lcm) && niter0 * push == lcm == niter1 * pop
    requires 0 < a && a * push == b * pop
    ensures niter0 <= a && niter1 <= b
  {
    var m := a * push;
    assert m == push * a && m == pop * b;
    assert m > 0 by { Distributes(push, 1, a - 1); }
    assert Divides(push, m) && Divides(pop, m);
    assert CommonMultiple(push, pop, m);
    if a < niter0 {
      Ordered(push, a, niter0);
    }
    if b < niter1 {
      Ordered(pop, b, niter1);
    }
  }
}
