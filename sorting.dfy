/**
 * Sorting as the modelled code uses it: Go's sort.Strings / sort.Slice and
 * Python's sorted() over a collection without duplicates.
 */
module Sorting {
  import Strings

  ghost predicate StrictTotalOrder<T(!new)>(less: (T, T) -> bool) {
    && (forall a :: !less(a, a))
    && (forall a, b, c :: less(a, b) && less(b, c) ==> less(a, c))
    && (forall a, b :: a != b ==> less(a, b) || less(b, a))
  }

  predicate SortedBy<T>(s: seq<T>, less: (T, T) -> bool) {
    forall i, j :: 0 <= i < j < |s| ==> less(s[i], s[j])
  }

  /** Inserts `x` at its place in a sorted sequence. */
  function Insert<T(!new, ==)>(s: seq<T>, x: T, less: (T, T) -> bool): (r: seq<T>)
    requires StrictTotalOrder(less) && SortedBy(s, less) && x !in s
    ensures SortedBy(r, less)
    ensures multiset(r) == multiset(s) + multiset{x}
  {
    if s == [] then [x]
    else if less(x, s[0]) then
      InsertFront(s, x, less);
      [x] + s
    else
      var t := Insert(s[1..], x, less);
      InsertBehind(s, x, t, less);
      [s[0]] + t
  }

  lemma InsertFront<T(!new)>(s: seq<T>, x: T, less: (T, T) -> bool)
    requires StrictTotalOrder(less) && SortedBy(s, less) && s != [] && less(x, s[0])
    ensures SortedBy([x] + s, less)
  {
    var r := [x] + s;
    forall i, j | 0 <= i < j < |r| ensures less(r[i], r[j]) {
      if i == 0 && j > 1 {
        assert less(s[0], s[j - 1]);
      }
    }
  }

  lemma InsertBehind<T(!new)>(s: seq<T>, x: T, t: seq<T>, less: (T, T) -> bool)
    requires StrictTotalOrder(less) && SortedBy(s, less) && s != [] && x !in s
    requires !less(x, s[0])
    requires SortedBy(t, less) && multiset(t) == multiset(s[1..]) + multiset{x}
    ensures SortedBy([s[0]] + t, less)
    ensures multiset([s[0]] + t) == multiset(s) + multiset{x}
  {
    assert s == [s[0]] + s[1..];
    assert x != s[0];
    assert less(s[0], x);
    forall j | 0 <= j < |t| ensures less(s[0], t[j]) {
      assert t[j] in multiset(t);
      if t[j] != x {
        assert t[j] in s[1..];
        var k :| 0 <= k < |s[1..]| && s[1..][k] == t[j];
        assert less(s[0], s[k + 1]);
      }
    }
    var r := [s[0]] + t;
    forall i, j | 0 <= i < j < |r| ensures less(r[i], r[j]) {
      if i > 0 {
        assert r[i] == t[i - 1] && r[j] == t[j - 1];
      }
    }
  }

  /** The elements of a set as a sorted sequence, each exactly once. */
  method SortSet<T(!new, ==)>(elems: set<T>, less: (T, T) -> bool) returns (r: seq<T>)
    requires StrictTotalOrder(less)
    ensures SortedBy(r, less)
    ensures |r| == |elems|
    ensures forall x :: x in r <==> x in elems
  {
    r := [];
    var rest := elems;
    while rest != {}
      invariant SortedBy(r, less)
      invariant rest <= elems
      invariant multiset(r) == multiset(elems - rest)
      decreases rest
    {
      var x :| x in rest;
      assert x !in multiset(elems - rest);
      r := Insert(r, x, less);
      assert elems - (rest - {x}) == (elems - rest) + {x};
      rest := rest - {x};
    }
    assert elems - rest == elems;
    assert |r| == |multiset(r)| == |multiset(elems)| == |elems|;
    forall x ensures x in r <==> x in elems {
      assert x in r <==> x in multiset(r);
    }
  }

  lemma StringOrder()
    ensures StrictTotalOrder(Strings.LexLess)
  {
    forall a ensures !Strings.LexLess(a, a) {
      Strings.LexLessIrreflexive(a);
    }
    forall a, b, c | Strings.LexLess(a, b) && Strings.LexLess(b, c)
      ensures Strings.LexLess(a, c)
    {
      Strings.LexLessTransitive(a, b, c);
    }
    forall a, b | a != b ensures Strings.LexLess(a, b) || Strings.LexLess(b, a) {
      Strings.LexLessTotal(a, b);
    }
  }

  /** Order on (apiVersion, kind) pairs: by apiVersion, then by kind. */
  predicate PairLess(p: (string, string), q: (string, string)) {
    Strings.LexLess(p.0, q.0) || (p.0 == q.0 && Strings.LexLess(p.1, q.1))
  }

  lemma PairOrder()
    ensures StrictTotalOrder(PairLess)
  {
    StringOrder();
    forall p: (string, string), q: (string, string) | p != q
      ensures PairLess(p, q) || PairLess(q, p)
    {
      if p.0 == q.0 {
        assert p.1 != q.1;
      }
    }
  }
}
