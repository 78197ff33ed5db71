/**
 * The JavaScript array operations the console relies on, as functions on
 * sequences: `Array.prototype.filter`, `Array.prototype.map` and
 * `[...new Set(xs)]` (duplicates dropped, first occurrences kept in order).
 */
module Seqs {

  /** `s.filter(p)`. */
  function Filter<T(==)>(p: T -> bool, s: seq<T>): (r: seq<T>)
    ensures |r| <= |s|
  {
    if s == [] then []
    else (if p(s[0]) then [s[0]] else []) + Filter(p, s[1..])
  }

  /** The filtered list holds exactly the elements of `s` that satisfy `p`. */
  lemma {:induction false} FilterMembership<T>(p: T -> bool, s: seq<T>)
    ensures forall i :: 0 <= i < |Filter(p, s)| ==> Filter(p, s)[i] in s && p(Filter(p, s)[i])
    ensures forall i :: 0 <= i < |s| && p(s[i]) ==> s[i] in Filter(p, s)
  {
    if s != [] {
      FilterMembership(p, s[1..]);
      var head := if p(s[0]) then [s[0]] else [];
      assert Filter(p, s) == head + Filter(p, s[1..]);
      forall i | 0 <= i < |s| && p(s[i])
        ensures s[i] in Filter(p, s)
      {
        if i > 0 {
          assert s[i] == s[1..][i - 1];
        }
      }
    }
  }

  /** `s.map(f)`. */
  function Map<T, U>(f: T -> U, s: seq<T>): (r: seq<U>)
    ensures |r| == |s|
    ensures forall i :: 0 <= i < |s| ==> r[i] == f(s[i])
  {
    if s == [] then [] else [f(s[0])] + Map(f, s[1..])
  }

  /** `idx` lists, in strictly increasing order, positions of `b` that spell out `a`. */
  ghost predicate Embeds<T>(idx: seq<nat>, a: seq<T>, b: seq<T>) {
    && |idx| == |a|
    && (forall i :: 0 <= i < |idx| ==> idx[i] < |b| && b[idx[i]] == a[i])
    && (forall i, j :: 0 <= i < j < |idx| ==> idx[i] < idx[j])
  }

  /** `a` is obtained from `b` by deleting elements, keeping the order of the rest. */
  ghost predicate IsSubsequence<T>(a: seq<T>, b: seq<T>) {
    exists idx :: Embeds(idx, a, b)
  }

  /** A filtered list fabricates nothing and keeps the relative order of what it keeps. */
  lemma {:induction false} FilterIsSubsequence<T>(p: T -> bool, s: seq<T>)
    ensures IsSubsequence(Filter(p, s), s)
  {
    var idx := FilterPositions(p, s);
  }

  /** The positions of `s` that `Filter(p, s)` keeps. */
  lemma {:induction false} FilterPositions<T>(p: T -> bool, s: seq<T>) returns (idx: seq<nat>)
    ensures Embeds(idx, Filter(p, s), s)
    ensures forall i :: 0 <= i < |idx| ==> p(s[idx[i]])
  {
    if s == [] {
      idx := [];
    } else {
      var rest := FilterPositions(p, s[1..]);
      var tail := Filter(p, s[1..]);
      var shifted := seq(|rest|, i requires 0 <= i < |rest| => rest[i] + 1);
      forall i | 0 <= i < |shifted|
        ensures shifted[i] < |s| && s[shifted[i]] == tail[i] && p(s[shifted[i]])
      {
        assert s[shifted[i]] == s[1..][rest[i]];
      }
      assert Embeds(shifted, tail, s);
      if p(s[0]) {
        idx := [0] + shifted;
        assert Filter(p, s) == [s[0]] + tail;
        forall i | 0 <= i < |idx|
          ensures idx[i] < |s| && s[idx[i]] == Filter(p, s)[i] && p(s[idx[i]])
        {
          if i > 0 {
            assert idx[i] == shifted[i - 1];
          }
        }
        assert Embeds(idx, Filter(p, s), s);
      } else {
        idx := shifted;
        assert Filter(p, s) == tail;
      }
    }
  }

  /** Filtering by a predicate every element satisfies leaves the list as it is. */
  lemma {:induction false} FilterKeepsAll<T>(p: T -> bool, s: seq<T>)
    requires forall x :: x in s ==> p(x)
    ensures Filter(p, s) == s
  {
    if s != [] {
      FilterKeepsAll(p, s[1..]);
    }
  }

  /** Two predicates that agree everywhere filter alike. */
  lemma {:induction false} FilterExtensional<T>(p: T -> bool, q: T -> bool, s: seq<T>)
    requires forall x :: p(x) == q(x)
    ensures Filter(p, s) == Filter(q, s)
  {
    if s != [] {
      FilterExtensional(p, q, s[1..]);
    }
  }

  /** Filtering twice is filtering once by the conjunction. */
  lemma {:induction false} FilterFilter<T>(p: T -> bool, q: T -> bool, pq: T -> bool, s: seq<T>)
    requires forall x :: pq(x) == (p(x) && q(x))
    ensures Filter(q, Filter(p, s)) == Filter(pq, s)
  {
    if s != [] {
      FilterFilter(p, q, pq, s[1..]);
      var tail := Filter(p, s[1..]);
      if p(s[0]) {
        assert Filter(p, s) == [s[0]] + tail;
        assert Filter(q, [s[0]] + tail) == (if q(s[0]) then [s[0]] else []) + Filter(q, tail) by {
          assert ([s[0]] + tail)[1..] == tail;
        }
      } else {
        assert Filter(p, s) == tail;
      }
    }
  }

  /** The order in which two filters are applied does not matter. */
  lemma FilterCommutes<T>(p: T -> bool, q: T -> bool, s: seq<T>)
    ensures Filter(q, Filter(p, s)) == Filter(p, Filter(q, s))
  {
    var pq := x => p(x) && q(x);
    FilterFilter(p, q, pq, s);
    FilterFilter(q, p, pq, s);
  }

  /** The first position of `x` in `s`. */
  function FirstIndex<T(==)>(s: seq<T>, x: T): (k: nat)
    requires x in s
    ensures k < |s| && s[k] == x
    ensures forall j :: 0 <= j < k ==> s[j] != x
  {
    if s[0] == x then 0 else 1 + FirstIndex(s[1..], x)
  }

  /** An element already present in a prefix first occurs at the same place in the whole. */
  lemma FirstIndexInPrefix<T>(s: seq<T>, n: nat, x: T)
    requires n <= |s| && x in s[..n]
    ensures FirstIndex(s, x) == FirstIndex(s[..n], x)
  {
    var k, kp := FirstIndex(s, x), FirstIndex(s[..n], x);
    assert s[kp] == x;
    assert k <= kp < n;
    assert s[..n][k] == s[k];
  }

  ghost predicate NoDuplicates<T>(s: seq<T>) {
    forall i, j :: 0 <= i < j < |s| ==> s[i] != s[j]
  }

  /**
   * `[...new Set(s)]`: each element is added in turn, and only when it is not
   * already there, so the result lists the distinct elements in order of first occurrence.
   */
  function Distinct<T(==)>(s: seq<T>): (r: seq<T>)
    ensures forall i :: 0 <= i < |r| ==> r[i] in s
    ensures forall i :: 0 <= i < |s| ==> s[i] in r
    ensures NoDuplicates(r)
    decreases |s|
  {
    if s == [] then []
    else
      var r := Distinct(s[..|s| - 1]);
      var x := s[|s| - 1];
      assert forall i :: 0 <= i < |s| - 1 ==> s[i] == s[..|s| - 1][i];
      if x in r then r else r + [x]
  }

  /** The elements of `Distinct(s)` come in the order of their first occurrence in `s`. */
  lemma {:induction false} DistinctFirstOccurrenceOrder<T>(s: seq<T>)
    ensures forall i, j :: 0 <= i < j < |Distinct(s)| ==>
              FirstIndex(s, Distinct(s)[i]) < FirstIndex(s, Distinct(s)[j])
    decreases |s|
  {
    if s != [] {
      var n := |s| - 1;
      var front := s[..n];
      var x := s[n];
      var r', r := Distinct(front), Distinct(s);
      DistinctFirstOccurrenceOrder(front);
      forall y | y in r'
        ensures FirstIndex(s, y) == FirstIndex(front, y) < n
      {
        FirstIndexInPrefix(s, n, y);
      }
      if x !in r' {
        assert x !in front;
        assert FirstIndex(s, x) == n;
      }
      forall i, j | 0 <= i < j < |r|
        ensures FirstIndex(s, r[i]) < FirstIndex(s, r[j])
      {
        assert r[i] in r';
        if j < |r'| {
          assert r[j] in r';
        }
      }
    }
  }
}
