/**
 * The array operations the pages use, over `seq`: `filter` with a
 * predicate, order-preserving subsequences, and the two list edits of the
 * create forms (drop every copy of a value, drop one position).
 */
module Seqs {

  /** `a` is `b` with some elements left out and the rest kept in order. */
  predicate IsSubseq<T(==)>(a: seq<T>, b: seq<T>)
    decreases |b|
  {
    if a == [] then true
    else if b == [] then false
    else if a[0] == b[0] then IsSubseq(a[1..], b[1..])
    else IsSubseq(a, b[1..])
  }

  /** `s.filter(p)`. */
  function Filter<T(==)>(s: seq<T>, p: T -> bool): (r: seq<T>)
    ensures |r| <= |s|
    ensures forall i :: 0 <= i < |r| ==> p(r[i]) && r[i] in s
    ensures forall i :: 0 <= i < |s| && p(s[i]) ==> s[i] in r
    ensures IsSubseq(r, s)
  {
    if s == [] then []
    else if p(s[0]) then [s[0]] + Filter(s[1..], p)
    else Filter(s[1..], p)
  }

  /** A filter whose predicate holds everywhere keeps the sequence as it is. */
  lemma {:induction false} FilterKeepsAll<T>(s: seq<T>, p: T -> bool)
    requires forall x :: x in s ==> p(x)
    ensures Filter(s, p) == s
  {
    if s != [] {
      FilterKeepsAll(s[1..], p);
    }
  }

  /** Filtering by a predicate and by its negation splits the sequence: the
      two results together hold every element exactly as often as `s` does. */
  lemma {:induction false} FilterSplits<T>(s: seq<T>, p: T -> bool, q: T -> bool)
    requires forall x :: q(x) == !p(x)
    ensures multiset(Filter(s, p)) + multiset(Filter(s, q)) == multiset(s)
    ensures |Filter(s, p)| + |Filter(s, q)| == |s|
  {
    if s != [] {
      FilterSplits(s[1..], p, q);
      assert s == [s[0]] + s[1..];
    }
  }

  /** `filter` keeps every occurrence of a passing value and none of a
      failing one. */
  lemma FilterCounts<T>(s: seq<T>, p: T -> bool)
    ensures forall x :: multiset(Filter(s, p))[x] == if p(x) then multiset(s)[x] else 0
  {
    var q := (y: T) => !p(y);
    FilterSplits(s, p, q);
    forall x
      ensures multiset(Filter(s, p))[x] == if p(x) then multiset(s)[x] else 0
    {
      if p(x) {
        assert x !in Filter(s, q);
      } else {
        assert x !in Filter(s, p);
      }
    }
  }

  /** Filtering distributes over concatenation. */
  lemma {:induction false} FilterAppend<T>(a: seq<T>, b: seq<T>, p: T -> bool)
    ensures Filter(a + b, p) == Filter(a, p) + Filter(b, p)
  {
    if a != [] {
      assert (a + b)[1..] == a[1..] + b;
      FilterAppend(a[1..], b, p);
    } else {
      assert a + b == b;
    }
  }

  /** Filters by predicates that agree everywhere are equal. */
  lemma {:induction false} FilterCongruent<T>(s: seq<T>, p: T -> bool, q: T -> bool)
    requires forall i :: 0 <= i < |s| ==> p(s[i]) == q(s[i])
    ensures Filter(s, p) == Filter(s, q)
  {
    if s != [] {
      FilterCongruent(s[1..], p, q);
    }
  }

  /** Every element of a subsequence is an element of the sequence. */
  lemma {:induction false} SubseqMembers<T>(a: seq<T>, b: seq<T>)
    requires IsSubseq(a, b)
    ensures forall x :: x in a ==> x in b
    decreases |b|
  {
    if a != [] && b != [] {
      if a[0] == b[0] {
        SubseqMembers(a[1..], b[1..]);
        assert a == [a[0]] + a[1..];
      } else {
        SubseqMembers(a, b[1..]);
      }
    }
  }

  /** No two positions of `s` have the same key. */
  predicate DistinctBy<T, K(==)>(s: seq<T>, key: T -> K)
  {
    forall i, j :: 0 <= i < j < |s| ==> key(s[i]) != key(s[j])
  }

  /** A subsequence of a sequence with distinct keys has distinct keys. */
  lemma {:induction false} SubseqDistinctBy<T, K>(a: seq<T>, b: seq<T>, key: T -> K)
    requires IsSubseq(a, b) && DistinctBy(b, key)
    ensures DistinctBy(a, key)
    decreases |b|
  {
    if a != [] && b != [] {
      if a[0] == b[0] {
        SubseqDistinctBy(a[1..], b[1..], key);
        SubseqMembers(a[1..], b[1..]);
        forall j | 0 < j < |a|
          ensures key(a[0]) != key(a[j])
        {
          assert a[j] in b[1..];
          var k :| 0 <= k < |b[1..]| && b[1..][k] == a[j];
          assert b[k + 1] == a[j];
        }
      } else {
        SubseqDistinctBy(a, b[1..], key);
      }
    }
  }

  /** No value occurs twice. */
  predicate NoDuplicates<T(==)>(s: seq<T>)
  {
    forall i, j :: 0 <= i < j < |s| ==> s[i] != s[j]
  }

  /** `s.filter(y => y !== x)`: every copy of `x` removed, order kept. */
  function RemoveAll<T(==)>(s: seq<T>, x: T): (r: seq<T>)
    ensures x !in r
    ensures forall i :: 0 <= i < |r| ==> r[i] in s
    ensures forall i :: 0 <= i < |s| && s[i] != x ==> s[i] in r
    ensures IsSubseq(r, s)
    ensures x !in s ==> r == s
    ensures multiset(r) == multiset(s)[x := 0]
  {
    var r := Filter(s, y => y != x);
    FilterCounts(s, y => y != x);
    if x !in s then
      FilterKeepsAll(s, y => y != x);
      r
    else r
  }

  /** Removing a value distributes over concatenation. */
  lemma RemoveAllAppend<T>(a: seq<T>, b: seq<T>, x: T)
    ensures RemoveAll(a + b, x) == RemoveAll(a, x) + RemoveAll(b, x)
  {
    FilterAppend(a, b, y => y != x);
  }

  /** Removing values keeps a duplicate-free sequence duplicate-free. */
  lemma RemoveAllNoDuplicates<T>(s: seq<T>, x: T)
    requires NoDuplicates(s)
    ensures NoDuplicates(RemoveAll(s, x))
  {
    SubseqDistinctBy(RemoveAll(s, x), s, y => y);
  }

  /** `s.filter((_, i) => i !== index)`: the element at `index` removed when
      `index` is a position of `s`, and `s` unchanged otherwise. */
  function RemoveAt<T>(s: seq<T>, index: int): (r: seq<T>)
    ensures 0 <= index < |s| ==>
              && |r| == |s| - 1
              && (forall k :: 0 <= k < index ==> r[k] == s[k])
              && (forall k :: index <= k < |r| ==> r[k] == s[k + 1])
    ensures !(0 <= index < |s|) ==> r == s
  {
    if 0 <= index < |s| then s[..index] + s[index + 1..] else s
  }
}
