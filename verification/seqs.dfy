/** Order-preserving filtering of sequences, the one notion behind both
    `Array.prototype.filter` call sites of the storefront (removing a cart
    entry and selecting a product category). */
module Seqs {

  /** `a` can be obtained from `b` by deleting elements, keeping the order of
      the rest. */
  ghost predicate IsSubsequence<T>(a: seq<T>, b: seq<T>)
    decreases |b|
  {
    if a == [] then true
    else if b == [] then false
    else if a[0] == b[0] then IsSubsequence(a[1..], b[1..])
    else IsSubsequence(a, b[1..])
  }

  /** The elements of `s` that satisfy `keep`, in their original order. */
  function Filter<T>(s: seq<T>, keep: T -> bool): (r: seq<T>)
    ensures |r| <= |s|
    ensures forall i :: 0 <= i < |r| ==> keep(r[i])
    ensures (forall i :: 0 <= i < |s| ==> keep(s[i])) ==> r == s
    ensures (forall i :: 0 <= i < |s| ==> !keep(s[i])) ==> r == []
    decreases |s|
  {
    if s == [] then []
    else if keep(s[0]) then [s[0]] + Filter(s[1..], keep)
    else Filter(s[1..], keep)
  }

  /** Completeness and soundness: exactly the elements of `s` that pass the
      test survive. */
  lemma {:induction false} FilterMembership<T>(s: seq<T>, keep: T -> bool)
    ensures forall x :: x in Filter(s, keep) <==> x in s && keep(x)
    decreases |s|
  {
    if s != [] {
      FilterMembership(s[1..], keep);
      assert s == [s[0]] + s[1..];
    }
  }

  /** Each surviving element keeps its multiplicity; every other element is
      gone. */
  lemma {:induction false} FilterCounts<T>(s: seq<T>, keep: T -> bool)
    ensures forall x :: keep(x) ==> multiset(Filter(s, keep))[x] == multiset(s)[x]
    ensures forall x :: !keep(x) ==> multiset(Filter(s, keep))[x] == 0
    decreases |s|
  {
    if s != [] {
      FilterCounts(s[1..], keep);
      assert s == [s[0]] + s[1..];
      assert multiset(s) == multiset{s[0]} + multiset(s[1..]);
    }
  }

  /** The survivors appear in their original relative order. */
  lemma {:induction false} FilterIsSubsequence<T>(s: seq<T>, keep: T -> bool)
    ensures IsSubsequence(Filter(s, keep), s)
    decreases |s|
  {
    if s != [] {
      var rest := Filter(s[1..], keep);
      FilterIsSubsequence(s[1..], keep);
      if keep(s[0]) {
        assert ([s[0]] + rest)[1..] == rest;
      } else if rest != [] {
        assert rest[0] != s[0];
      }
    }
  }

  /** Filtering distributes over concatenation: the filter of a sequence is
      assembled piecewise, in order. */
  lemma {:induction false} FilterAppend<T>(a: seq<T>, b: seq<T>, keep: T -> bool)
    ensures Filter(a + b, keep) == Filter(a, keep) + Filter(b, keep)
    decreases |a|
  {
    if a == [] {
      assert a + b == b;
    } else {
      assert (a + b)[0] == a[0];
      assert (a + b)[1..] == a[1..] + b;
      FilterAppend(a[1..], b, keep);
    }
  }

  /** Filtering twice with the same test is filtering once. */
  lemma FilterIdempotent<T>(s: seq<T>, keep: T -> bool)
    ensures Filter(Filter(s, keep), keep) == Filter(s, keep)
  {
    var r := Filter(s, keep);
    assert forall i :: 0 <= i < |r| ==> keep(r[i]);
  }

  /** A test that rejects some element of `s` makes the filtered sequence
      strictly shorter. */
  lemma {:induction false} FilterDrops<T>(s: seq<T>, keep: T -> bool, k: nat)
    requires k < |s| && !keep(s[k])
    ensures |Filter(s, keep)| < |s|
    decreases |s|
  {
    if k > 0 {
      FilterDrops(s[1..], keep, k - 1);
    }
  }

  /** A test that passes exactly at position `a` keeps that one element. */
  lemma {:induction false} FilterOne<T>(s: seq<T>, keep: T -> bool, a: nat)
    requires a < |s|
    requires forall i :: 0 <= i < |s| ==> (keep(s[i]) <==> i == a)
    ensures Filter(s, keep) == [s[a]]
    decreases a
  {
    var tail := s[1..];
    assert forall i :: 0 <= i < |tail| ==> tail[i] == s[i + 1];
    if a == 0 {
      assert forall i :: 0 <= i < |tail| ==> !keep(tail[i]);
    } else {
      FilterOne(tail, keep, a - 1);
    }
  }

  /** A test that passes exactly at positions `a` and `b` keeps those two
      elements, in order. */
  lemma {:induction false} FilterTwo<T>(s: seq<T>, keep: T -> bool, a: nat, b: nat)
    requires a < b < |s|
    requires forall i :: 0 <= i < |s| ==> (keep(s[i]) <==> i == a || i == b)
    ensures Filter(s, keep) == [s[a], s[b]]
    decreases a
  {
    var tail := s[1..];
    assert forall i :: 0 <= i < |tail| ==> tail[i] == s[i + 1];
    if a == 0 {
      FilterOne(tail, keep, b - 1);
    } else {
      FilterTwo(tail, keep, a - 1, b - 1);
    }
  }
}
