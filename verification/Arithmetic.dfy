// Sums over finite sets, and rounding up.
module Arithmetic {
  function One(b: bool): nat { if b then 1 else 0 }

  function Min(a: nat, b: nat): nat { if a <= b then a else b }

  function CeilDiv(n: nat, d: nat): nat
    requires d >= 1
  {
    (n + d - 1) / d
  }

  lemma CeilDivCovers(n: nat, d: nat, k: nat)
    requires d >= 1 && k >= CeilDiv(n, d)
    ensures d * k >= n
  {
    var q := CeilDiv(n, d);
    assert d * q + (n + d - 1) % d == n + d - 1;
    MulMonotone(d, q, k);
  }

  lemma BelowCeil(n: nat, d: nat, k: nat)
    requires d >= 1 && k >= 1 && d * (k - 1) < n
    ensures k <= CeilDiv(n, d)
  {
    var q := CeilDiv(n, d);
    assert d * q + (n + d - 1) % d == n + d - 1;
    assert d * q >= n;
    if q <= k - 1 { MulMonotone(d, q, k - 1); }
  }

  lemma MulMonotone(d: nat, a: nat, b: nat)
    requires a <= b
    ensures d * a <= d * b
  {
    assert d * b == d * a + d * (b - a);
  }

  lemma OneMore(d: nat, k: int)
    ensures d * (k + 1) == d * k + d
  {
  }

  // ---- sums over a set -----------------------------------------------------

  ghost function Pick<T>(s: set<T>): (x: T)
    requires s != {}
    ensures x in s
  {
    var x :| x in s;
    x
  }

  ghost function Sum<T(!new)>(f: T -> nat, s: set<T>): nat
    decreases |s|
  {
    if s == {} then 0 else var x := Pick(s); f(x) + Sum(f, s - {x})
  }

  lemma {:induction false} SumTake<T(!new)>(f: T -> nat, s: set<T>, x: T)
    requires x in s
    ensures Sum(f, s) == f(x) + Sum(f, s - {x})
    decreases |s|
  {
    var y := Pick(s);
    if y != x {
      SumTake(f, s - {y}, x);
      SumTake(f, s - {x}, y);
      assert s - {y} - {x} == s - {x} - {y};
    }
  }

  lemma {:induction false} SumMonotone<T(!new)>(f: T -> nat, g: T -> nat, s: set<T>)
    requires forall x :: x in s ==> f(x) <= g(x)
    ensures Sum(f, s) <= Sum(g, s)
    decreases |s|
  {
    if s != {} {
      var x := Pick(s);
      SumMonotone(f, g, s - {x});
      SumTake(g, s, x);
    }
  }

  // At most one place differs, and there by at most `more`.
  lemma SumOneChange<T(!new)>(f: T -> nat, g: T -> nat, s: set<T>, x: T, more: nat)
    requires forall y :: y in s && y != x ==> g(y) <= f(y)
    requires g(x) <= f(x) + more
    ensures Sum(g, s) <= Sum(f, s) + more
  {
    if x in s {
      SumTake(f, s, x);
      SumTake(g, s, x);
      SumMonotone(g, f, s - {x});
    } else {
      SumMonotone(g, f, s);
    }
  }

  lemma SumDrops<T(!new)>(f: T -> nat, g: T -> nat, s: set<T>, x: T)
    requires x in s && g(x) < f(x)
    requires forall y :: y in s ==> g(y) <= f(y)
    ensures Sum(g, s) < Sum(f, s)
  {
    SumTake(f, s, x);
    SumTake(g, s, x);
    SumMonotone(g, f, s - {x});
  }

  // A sum of at most `d` each over the members of `live`, and nothing else.
  lemma {:induction false} SumBound<T(!new)>(f: T -> nat, s: set<T>, live: set<T>, d: nat)
    requires forall x :: x in s ==> f(x) <= if x in live then d else 0
    ensures Sum(f, s) <= d * |s * live|
    decreases |s|
  {
    if s != {} {
      var x := Pick(s);
      SumBound(f, s - {x}, live, d);
      var all, rest := s * live, (s - {x}) * live;
      if x in live {
        assert all == rest + {x};
        assert |all| == |rest| + 1;
        OneMore(d, |rest|);
      } else {
        assert all == rest;
      }
    }
  }

  lemma {:induction false} SubsetSize<T>(a: set<T>, b: set<T>)
    requires a <= b
    ensures |a| <= |b|
  {
    assert b == a + (b - a);
  }
}
