/** Filtering a list, order-preserving subsequences, and the order in
    which the entries of a stored object are listed. */
module Seqs {

  /** `b` can be obtained from `a` by deleting elements: `a` keeps the
      relative order it has in `b`. */
  predicate IsSubsequence<T(==)>(a: seq<T>, b: seq<T>)
    decreases |b|
  {
    a == [] ||
    (b != [] && ((a[0] == b[0] && IsSubsequence(a[1..], b[1..])) || IsSubsequence(a, b[1..])))
  }

  /** The elements of s that p accepts, each occurrence kept, in order. */
  function Filter<T(==,!new)>(s: seq<T>, p: T -> bool): (r: seq<T>)
    ensures |r| <= |s|
    ensures forall x :: x in r <==> x in s && p(x)
    ensures forall x :: multiset(r)[x] == if p(x) then multiset(s)[x] else 0
    ensures IsSubsequence(r, s)
  {
    if s == [] then []
    else
      assert s == [s[0]] + s[1..];
      if p(s[0]) then [s[0]] + Filter(s[1..], p) else Filter(s[1..], p)
  }

  /** A filter that accepts every element returns the sequence unchanged. */
  lemma {:induction false} FilterKeepsAll<T(!new)>(s: seq<T>, p: T -> bool)
    requires forall i :: 0 <= i < |s| ==> p(s[i])
    ensures Filter(s, p) == s
  {
    if s != [] {
      FilterKeepsAll(s[1..], p);
    }
  }

  /** A filter that rejects every element returns the empty sequence. */
  lemma {:induction false} FilterKeepsNone<T(!new)>(s: seq<T>, p: T -> bool)
    requires forall i :: 0 <= i < |s| ==> !p(s[i])
    ensures Filter(s, p) == []
  {
    if s != [] {
      FilterKeepsNone(s[1..], p);
    }
  }

  /** A filter that accepts some element returns something. */
  lemma {:induction false} FilterKeepsAccepted<T(!new)>(s: seq<T>, p: T -> bool, i: nat)
    requires i < |s| && p(s[i])
    ensures Filter(s, p) != []
  {
    if !p(s[0]) {
      FilterKeepsAccepted(s[1..], p, i - 1);
    }
  }

  /** Filtering with a predicate that accepts fewer elements keeps fewer
      of them, in the same order. */
  lemma {:induction false} FilterNarrower<T(!new)>(s: seq<T>, p: T -> bool, q: T -> bool)
    requires forall i :: 0 <= i < |s| && p(s[i]) ==> q(s[i])
    ensures IsSubsequence(Filter(s, p), Filter(s, q))
  {
    if s != [] {
      FilterNarrower(s[1..], p, q);
      var fp, fq := Filter(s[1..], p), Filter(s[1..], q);
      if p(s[0]) {
        assert ([s[0]] + fp)[1..] == fp && ([s[0]] + fq)[1..] == fq;
      } else if q(s[0]) {
        assert ([s[0]] + fq)[1..] == fq;
      }
    }
  }

  /** `entries` is one listing of the entries of `m`: every key of `m`
      exactly once, with its value. */
  ghost predicate Enumerates<K, V>(entries: seq<(K, V)>, m: map<K, V>) {
    (forall i :: 0 <= i < |entries| ==> entries[i].0 in m && m[entries[i].0] == entries[i].1) &&
    (forall k :: k in m ==> exists i :: 0 <= i < |entries| && entries[i].0 == k) &&
    (forall i, j :: 0 <= i < j < |entries| ==> entries[i].0 != entries[j].0)
  }

  /** A listing of a map's entries has one entry per key. */
  lemma {:induction false} EnumerationSize<K, V>(entries: seq<(K, V)>, m: map<K, V>)
    requires Enumerates(entries, m)
    ensures |entries| == |m|
  {
    var keys := set i | 0 <= i < |entries| :: entries[i].0;
    assert keys == m.Keys by {
      forall k | k in m ensures k in keys {
        var i :| 0 <= i < |entries| && entries[i].0 == k;
      }
    }
    KeysDistinctCount(entries, |entries|);
  }

  /** The first n entries, with distinct keys, have n distinct keys. */
  lemma {:induction false} KeysDistinctCount<K, V>(entries: seq<(K, V)>, n: nat)
    requires n <= |entries|
    requires forall i, j :: 0 <= i < j < |entries| ==> entries[i].0 != entries[j].0
    ensures |set i | 0 <= i < n :: entries[i].0| == n
  {
    if n > 0 {
      KeysDistinctCount(entries, n - 1);
      var before := set i | 0 <= i < n - 1 :: entries[i].0;
      assert (set i | 0 <= i < n :: entries[i].0) == before + {entries[n - 1].0};
      assert entries[n - 1].0 !in before;
    }
  }
}
