/** Sequence helpers for the backend's repository queries: filtering and pairwise facts. */
module Seqs {
  import opened Wrappers

  /** The elements of `s` that `keep` accepts, in their order in `s` (a stream `filter` or a `WHERE`). */
  function Filter<T(!new)>(s: seq<T>, keep: T -> bool): (r: seq<T>)
    ensures |r| <= |s|
    ensures forall x :: x in r <==> x in s && keep(x)
    ensures forall i :: 0 <= i < |r| ==> keep(r[i])
  {
    if s == [] then []
    else (if keep(s[0]) then [s[0]] else []) + Filter(s[1..], keep)
  }

  /** `rel` holds of every pair of elements, the earlier one first. */
  predicate Pairwise<T>(s: seq<T>, rel: (T, T) -> bool) {
    forall i, j :: 0 <= i < j < |s| ==> rel(s[i], s[j])
  }

  /** Filtering keeps a pairwise property, because it keeps the relative order of what it keeps. */
  lemma {:induction false} FilterPairwise<T(!new)>(s: seq<T>, keep: T -> bool, rel: (T, T) -> bool)
    requires Pairwise(s, rel)
    ensures Pairwise(Filter(s, keep), rel)
  {
    if s != [] {
      FilterPairwise(s[1..], keep, rel);
      var tail := Filter(s[1..], keep);
      if keep(s[0]) {
        var r := [s[0]] + tail;
        forall i, j | 0 <= i < j < |r| ensures rel(r[i], r[j]) {
          if i == 0 {
            assert r[j] in s[1..];
            var m :| 0 <= m < |s[1..]| && s[1..][m] == r[j];
            assert s[m + 1] == r[j];
          } else {
            assert r[i] == tail[i - 1] && r[j] == tail[j - 1];
          }
        }
      }
    }
  }

  /** Two tests that agree on every element filter alike. */
  lemma {:induction false} FilterAgree<T(!new)>(s: seq<T>, p: T -> bool, q: T -> bool)
    requires forall x :: p(x) == q(x)
    ensures Filter(s, p) == Filter(s, q)
  {
    if s != [] {
      FilterAgree(s[1..], p, q);
    }
  }

  /** Filtering a concatenation filters each part. */
  lemma {:induction false} FilterAppend<T(!new)>(a: seq<T>, b: seq<T>, keep: T -> bool)
    ensures Filter(a + b, keep) == Filter(a, keep) + Filter(b, keep)
  {
    if a == [] {
      assert a + b == b;
    } else {
      assert (a + b)[0] == a[0];
      assert (a + b)[1..] == a[1..] + b;
      FilterAppend(a[1..], b, keep);
    }
  }

  /** One instance of `Pairwise`. */
  lemma PairwiseAt<T>(s: seq<T>, rel: (T, T) -> bool, i: nat, j: nat)
    requires Pairwise(s, rel) && i < j < |s|
    ensures rel(s[i], s[j])
  {
  }

  /** A sequence whose elements all equal one value that is not related to itself has at most one element. */
  lemma PairwiseConstant<T>(s: seq<T>, v: T, rel: (T, T) -> bool)
    requires Pairwise(s, rel) && !rel(v, v)
    requires forall i :: 0 <= i < |s| ==> s[i] == v
    ensures |s| <= 1
  {
    if |s| > 1 {
      PairwiseAt(s, rel, 0, 1);
      assert false;
    }
  }

  /** A prefix one longer is the prefix and the next element (the step of a loop over `s`). */
  lemma PrefixStep<T>(s: seq<T>, i: nat)
    requires i < |s|
    ensures s[..i + 1] == s[..i] + [s[i]]
  {
  }

  /** The first index whose element satisfies `p` (a repository `findBy…` that yields one row). */
  function IndexWhere<T>(s: seq<T>, p: T -> bool): (r: Option<nat>)
    ensures r.Some? ==> r.value < |s| && p(s[r.value])
    ensures r.Some? ==> forall i :: 0 <= i < r.value ==> !p(s[i])
    ensures r.None? ==> forall i :: 0 <= i < |s| ==> !p(s[i])
  {
    if s == [] then None
    else if p(s[0]) then Some(0)
    else match IndexWhere(s[1..], p)
      case None => None
      case Some(i) => Some(i + 1)
  }
}
