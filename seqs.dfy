/** Generic sequence operations behind the source's `Array.prototype.filter`, the database's
    match stages and its `sort` stages. */
module Seqs {

  /** `a` is `b` with some elements removed, the rest kept in their order. */
  predicate IsSubsequence<T(==)>(a: seq<T>, b: seq<T>)
    decreases |b|
  {
    if a == [] then true
    else if b == [] then false
    else (a[0] == b[0] && IsSubsequence(a[1..], b[1..])) || IsSubsequence(a, b[1..])
  }

  /** The elements of `s` that satisfy `p`, in their original order. Each element is kept with
      all its occurrences or dropped with all of them. */
  function Filter<T(==,!new)>(s: seq<T>, p: T -> bool): (r: seq<T>)
    ensures forall x :: x in r <==> x in s && p(x)
    ensures forall x :: multiset(r)[x] == if p(x) then multiset(s)[x] else 0
    ensures IsSubsequence(r, s)
  {
    if s == [] then []
    else
      assert s == [s[0]] + s[1..];
      var rest := Filter(s[1..], p);
      if p(s[0]) then [s[0]] + rest else rest
  }

  /** Filtering with two tests that agree everywhere gives the same sequence. */
  lemma {:induction false} FilterAgrees<T(!new)>(s: seq<T>, p: T -> bool, q: T -> bool)
    requires forall x :: p(x) == q(x)
    ensures Filter(s, p) == Filter(s, q)
  {
    if s != [] {
      FilterAgrees(s[1..], p, q);
    }
  }

  /** `s` is ordered by `key`, non-decreasing. */
  predicate SortedBy<T>(s: seq<T>, key: T -> int) {
    forall i, j :: 0 <= i < j < |s| ==> key(s[i]) <= key(s[j])
  }

  /** No two elements of `s` share an `id`. */
  predicate DistinctBy<T, K(==)>(s: seq<T>, id: T -> K) {
    forall i, j :: 0 <= i < j < |s| ==> id(s[i]) != id(s[j])
  }

  /** A sorted sequence stays sorted when an element no larger than all of it goes in front. */
  lemma SortedCons<T>(h: T, t: seq<T>, key: T -> int)
    requires SortedBy(t, key)
    requires forall k :: 0 <= k < |t| ==> key(h) <= key(t[k])
    ensures SortedBy([h] + t, key)
  {
    var r := [h] + t;
    forall i, j | 0 <= i < j < |r| ensures key(r[i]) <= key(r[j]) {
      if i > 0 {
        assert r[i] == t[i - 1] && r[j] == t[j - 1];
      }
    }
  }

  /** An element of `t` whose multiset is that of `s` plus `x` is `x` or an element of `s`. */
  lemma MemberOfSum<T>(y: T, t: seq<T>, s: seq<T>, x: T)
    requires multiset(t) == multiset(s) + multiset{x}
    requires y in t
    ensures y == x || y in s
  {
    assert y in multiset(t);
  }

  /** Inserts `x` into the sorted `s` before the first element whose key is not smaller. */
  function Insert<T(==)>(x: T, s: seq<T>, key: T -> int): (r: seq<T>)
    requires SortedBy(s, key)
    ensures SortedBy(r, key)
    ensures multiset(r) == multiset(s) + multiset{x}
  {
    if s == [] then [x]
    else if key(x) <= key(s[0]) then
      SortedCons(x, s, key);
      [x] + s
    else
      assert s == [s[0]] + s[1..];
      var tail := Insert(x, s[1..], key);
      assert forall k :: 0 <= k < |tail| ==> key(s[0]) <= key(tail[k]) by {
        forall k | 0 <= k < |tail| ensures key(s[0]) <= key(tail[k]) {
          MemberOfSum(tail[k], tail, s[1..], x);
          if tail[k] != x {
            var i :| 0 <= i < |s[1..]| && s[1..][i] == tail[k];
            assert s[i + 1] == tail[k];
          }
        }
      }
      SortedCons(s[0], tail, key);
      [s[0]] + tail
  }

  /** `s` sorted by `key`, non-decreasing; elements with equal keys keep their relative order.
      The database leaves that order unspecified, so no property proved here depends on it. */
  function SortBy<T(==)>(s: seq<T>, key: T -> int): (r: seq<T>)
    ensures SortedBy(r, key)
    ensures multiset(r) == multiset(s)
  {
    if s == [] then []
    else
      assert s == [s[0]] + s[1..];
      Insert(s[0], SortBy(s[1..], key), key)
  }

  /** Sorting keeps exactly the elements it was given. */
  lemma SortByMember<T>(s: seq<T>, key: T -> int, y: T)
    ensures |SortBy(s, key)| == |s|
    ensures y in SortBy(s, key) <==> y in s
  {
    var r := SortBy(s, key);
    assert |r| == |multiset(r)| == |multiset(s)| == |s|;
    assert y in r <==> y in multiset(r);
    assert y in s <==> y in multiset(s);
  }

  lemma {:induction false} InsertDistinct<T, K>(x: T, s: seq<T>, key: T -> int, id: T -> K)
    requires SortedBy(s, key) && DistinctBy(s, id)
    requires forall y :: y in s ==> id(y) != id(x)
    ensures DistinctBy(Insert(x, s, key), id)
  {
    if s != [] && key(x) > key(s[0]) {
      InsertDistinct(x, s[1..], key, id);
      var tail := Insert(x, s[1..], key);
      assert multiset(tail) == multiset(s[1..]) + multiset{x};
      forall y | y in tail ensures id(y) != id(s[0]) {
        MemberOfSum(y, tail, s[1..], x);
      }
    }
  }

  lemma DistinctHead<T, K>(s: seq<T>, id: T -> K)
    requires s != [] && DistinctBy(s, id)
    ensures forall y :: y in s[1..] ==> id(y) != id(s[0])
  {
    forall y | y in s[1..] ensures id(y) != id(s[0]) {
      var k :| 0 <= k < |s[1..]| && s[1..][k] == y;
      assert s[k + 1] == y;
    }
  }

  /** Sorting never makes two elements share an id. */
  lemma {:induction false} SortByDistinct<T, K>(s: seq<T>, key: T -> int, id: T -> K)
    requires DistinctBy(s, id)
    ensures DistinctBy(SortBy(s, key), id)
  {
    if s != [] {
      var sorted := SortBy(s[1..], key);
      SortByDistinct(s[1..], key, id);
      DistinctHead(s, id);
      forall y | y in sorted ensures id(y) != id(s[0]) {
        SortByMember(s[1..], key, y);
      }
      InsertDistinct(s[0], sorted, key, id);
    }
  }
}
