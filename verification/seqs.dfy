/** Sequence vocabulary used by every page: JavaScript's `Array.filter`,
    "order-preserving sub-list" and "no duplicates". */
module Seqs {

  /** `a` is obtained from `b` by deleting elements (order preserved). */
  predicate IsSubsequence<T(==)>(a: seq<T>, b: seq<T>)
    decreases |b|
  {
    if a == [] then true
    else if b == [] then false
    else if a[0] == b[0] then IsSubsequence(a[1..], b[1..])
    else IsSubsequence(a, b[1..])
  }

  /** `s.filter(p)`: the elements of `s` that satisfy `p`, in order, each
      as often as it occurs in `s`. */
  function Filter<T(==,!new)>(s: seq<T>, p: T -> bool): (r: seq<T>)
    ensures |r| <= |s|
    ensures forall x :: multiset(r)[x] == if p(x) then multiset(s)[x] else 0
    ensures IsSubsequence(r, s)
  {
    if s == [] then []
    else
      var rest := Filter(s[1..], p);
      assert s == [s[0]] + s[1..];
      FilterConsCounts(s[0], s[1..], rest, p);
      FilterConsOrder(s[0], s[1..], rest, p);
      if p(s[0]) then [s[0]] + rest else rest
  }

  /** An element is kept exactly when it occurs in the input and passes. */
  lemma FilterMembers<T(!new)>(s: seq<T>, p: T -> bool)
    ensures forall x :: x in Filter(s, p) <==> x in s && p(x)
    ensures forall i :: 0 <= i < |Filter(s, p)| ==> p(Filter(s, p)[i])
  {
    var r := Filter(s, p);
    forall x ensures x in r <==> x in s && p(x) {
      assert x in r <==> multiset(r)[x] > 0;
      assert x in s <==> multiset(s)[x] > 0;
    }
    forall i | 0 <= i < |r| ensures p(r[i]) {
      assert r[i] in r;
    }
  }

  /** One step of `Filter`'s multiplicity clause: a head that passes is
      counted once more, one that fails is not counted. */
  lemma FilterConsCounts<T(!new)>(x: T, tail: seq<T>, rest: seq<T>, p: T -> bool)
    requires forall y :: multiset(rest)[y] == if p(y) then multiset(tail)[y] else 0
    ensures forall y :: multiset(if p(x) then [x] + rest else rest)[y] == if p(y) then multiset([x] + tail)[y] else 0
  {
    forall y ensures multiset(if p(x) then [x] + rest else rest)[y] == if p(y) then multiset([x] + tail)[y] else 0 {
      assert multiset([x] + tail) == multiset([x]) + multiset(tail);
      if p(x) {
        assert multiset([x] + rest) == multiset([x]) + multiset(rest);
      } else if p(y) {
        assert y != x;
      }
    }
  }

  /** One step of `Filter`'s order clause. */
  lemma FilterConsOrder<T(!new)>(x: T, tail: seq<T>, rest: seq<T>, p: T -> bool)
    requires IsSubsequence(rest, tail)
    requires forall i :: 0 <= i < |rest| ==> p(rest[i])
    ensures IsSubsequence(if p(x) then [x] + rest else rest, [x] + tail)
  {
    assert ([x] + tail)[1..] == tail;
    if p(x) {
      assert ([x] + rest)[1..] == rest;
    } else if rest != [] {
      assert p(rest[0]);
    }
  }

  /** When every element passes, filtering changes nothing. */
  lemma {:induction false} FilterKeepsAll<T(!new)>(s: seq<T>, p: T -> bool)
    requires forall i :: 0 <= i < |s| ==> p(s[i])
    ensures Filter(s, p) == s
  {
    if s != [] {
      assert p(s[0]);
      FilterKeepsAll(s[1..], p);
    }
  }

  /** Filtering distributes over concatenation. */
  lemma {:induction false} FilterAppend<T(!new)>(a: seq<T>, b: seq<T>, p: T -> bool)
    ensures Filter(a + b, p) == Filter(a, p) + Filter(b, p)
  {
    if a == [] {
      assert a + b == b;
    } else {
      assert (a + b)[0] == a[0];
      assert (a + b)[1..] == a[1..] + b;
      FilterAppend(a[1..], b, p);
    }
  }

  /** Two tests that agree on every element of `s` filter it alike. */
  lemma {:induction false} FilterCongruent<T(!new)>(s: seq<T>, p: T -> bool, q: T -> bool)
    requires forall i :: 0 <= i < |s| ==> p(s[i]) == q(s[i])
    ensures Filter(s, p) == Filter(s, q)
  {
    if s != [] {
      assert p(s[0]) == q(s[0]);
      FilterCongruent(s[1..], p, q);
    }
  }

  /** `s.slice(0, n)`: the first `n` elements, or all of `s` when it is shorter. */
  function Take<T>(s: seq<T>, n: nat): (r: seq<T>)
    ensures |r| <= n && |r| <= |s|
    ensures |r| == n || |r| == |s|
    ensures forall i :: 0 <= i < |r| ==> r[i] == s[i]
  {
    if |s| <= n then s else s[..n]
  }

  predicate NoDuplicates<T(==)>(s: seq<T>) {
    forall i, j :: 0 <= i < j < |s| ==> s[i] != s[j]
  }

  function Elements<T>(s: seq<T>): set<T> {
    set x | x in s
  }

  lemma {:induction false} ElementsCardinality<T>(s: seq<T>)
    ensures |Elements(s)| <= |s|
    ensures NoDuplicates(s) ==> |Elements(s)| == |s|
  {
    if s != [] {
      ElementsCardinality(s[1..]);
      assert Elements(s) == {s[0]} + Elements(s[1..]);
      if NoDuplicates(s) {
        assert NoDuplicates(s[1..]) by {
          forall i, j | 0 <= i < j < |s[1..]| ensures s[1..][i] != s[1..][j] {
            assert s[1..][i] == s[i + 1] && s[1..][j] == s[j + 1];
          }
        }
        forall k | 0 <= k < |s[1..]| ensures s[1..][k] != s[0] {
          assert s[1..][k] == s[k + 1];
        }
        assert s[0] !in Elements(s[1..]);
      }
    }
  }

  /** A duplicate-free sequence drawn from the elements of `t` is no longer than `t`. */
  lemma NoDuplicatesBounded<T>(s: seq<T>, t: seq<T>)
    requires NoDuplicates(s)
    requires forall x :: x in s ==> x in t
    ensures |s| <= |t|
  {
    ElementsCardinality(s);
    ElementsCardinality(t);
    assert Elements(s) <= Elements(t);
    assert |Elements(s)| <= |Elements(t)| by {
      SubsetCardinality(Elements(s), Elements(t));
    }
  }

  lemma SubsetCardinality<T>(a: set<T>, b: set<T>)
    requires a <= b
    ensures |a| <= |b|
  {
    assert b == a + (b - a);
  }
}
