// Counting: injective maps and full ranges.
module Counting {
  import opened Base

  lemma {:induction false} InjectiveMapSize<K, V>(m: map<K, V>)
    requires forall a, b | a in m && b in m && m[a] == m[b] :: a == b
    ensures |m.Values| == |m.Keys|
  {
    if m.Keys == {} {
      assert m.Values == {};
    } else {
      var k :| k in m.Keys;
      var rest := m - {k};
      InjectiveMapSize(rest);
      assert m.Keys == rest.Keys + {k};
      assert m.Values == rest.Values + {m[k]} by {
        assert forall a | a in m :: a == k || (a in rest && rest[a] == m[a]);
      }
      assert m[k] !in rest.Values;
    }
  }

  ghost function UpTo(n: nat): (s: set<nat>)
    ensures forall k: nat :: k in s <==> 1 <= k <= n
    ensures |s| == n
  {
    if n == 0 then {} else UpTo(n - 1) + {n}
  }

  lemma SubsetOfSameSize<T>(a: set<T>, b: set<T>)
    requires a <= b && |a| == |b|
    ensures a == b
  {
    assert b == a + (b - a);
    assert |b| == |a| + |b - a|;
  }

  // n numbers between 1 and n without repetition are all of 1..n.
  lemma PigeonHole<K>(m: map<K, nat>)
    requires forall a, b | a in m && b in m && m[a] == m[b] :: a == b
    requires forall a | a in m :: 1 <= m[a] <= |m.Keys|
    ensures m.Values == UpTo(|m.Keys|)
  {
    InjectiveMapSize(m);
    SubsetOfSameSize(m.Values, UpTo(|m.Keys|));
  }

  ghost predicate First<T(!new)>(x: T, xs: set<T>, notAfter: (T, T) -> bool) {
    x in xs && forall y | y in xs :: notAfter(x, y)
  }

  ghost predicate Ordered<T(!new)>(xs: set<T>, notAfter: (T, T) -> bool) {
    && (forall a, b | a in xs && b in xs :: notAfter(a, b) || notAfter(b, a))
    && (forall a, b, c | a in xs && b in xs && c in xs && notAfter(a, b) && notAfter(b, c) :: notAfter(a, c))
  }

  lemma FirstStays<T(!new)>(x: T, first: T, xs: set<T>, notAfter: (T, T) -> bool)
    requires Ordered(xs, notAfter) && x in xs && First(first, xs - {x}, notAfter)
    ensures First(x, xs, notAfter) || First(first, xs, notAfter)
  {
    if notAfter(x, first) {
      forall y | y in xs ensures notAfter(x, y) { assert y == x || notAfter(first, y); }
    }
  }

  // A finite set has a first element under a total preorder.
  lemma {:induction false} FirstExists<T(!new)>(xs: set<T>, notAfter: (T, T) -> bool)
    requires xs != {} && Ordered(xs, notAfter)
    ensures exists x :: First(x, xs, notAfter)
  {
    var x :| x in xs;
    var rest := xs - {x};
    if rest == {} {
      assert xs == {x};
      assert First(x, xs, notAfter);
    } else {
      FirstExists(rest, notAfter);
      var first :| First(first, rest, notAfter);
      FirstStays(x, first, xs, notAfter);
    }
  }

  // ---- draining a set in bounded passes ----

  ghost predicate Distinct<T(!new)>(xs: seq<T>) {
    forall i, j | 0 <= i < j < |xs| :: xs[i] != xs[j]
  }

  lemma RemovedCount<T>(due: set<T>, ops: set<T>)
    requires ops <= due
    ensures |due - ops| == |due| - |ops|
  {}

  // What `passes` passes leave of `n` due operations.
  function Left(n: nat, passes: nat, limit: nat): nat
    decreases passes
  {
    if passes == 0 then n else Left(n - Min(limit, n), passes - 1, limit)
  }

  lemma {:induction false} LeftIsDifference(n: nat, passes: nat, limit: nat)
    ensures Left(n, passes, limit) == if n <= passes * limit then 0 else n - passes * limit
    decreases passes
  {
    if passes > 0 {
      LeftIsDifference(n - Min(limit, n), passes - 1, limit);
      assert passes * limit == (passes - 1) * limit + limit;
    }
  }
}
