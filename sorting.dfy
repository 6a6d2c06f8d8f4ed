/**
 * The outcome of `Array.prototype.sort` with a comparator: a permutation of the
 * input that is ordered by the comparator's relation. Insertion sort is the
 * reference definition.
 */
module Sorting {
  import opened Seqs

  /** `le` is total and transitive, as a comparator on sort keys must be. */
  ghost predicate TotalPreorder<T(!new)>(le: (T, T) -> bool) {
    && (forall a, b :: le(a, b) || le(b, a))
    && (forall a, b, c :: le(a, b) && le(b, c) ==> le(a, c))
  }

  /** Every element is `le` every element after it. */
  predicate SortedBy<T>(s: seq<T>, le: (T, T) -> bool) {
    forall i, j :: 0 <= i < j < |s| ==> le(s[i], s[j])
  }

  function Insert<T>(x: T, s: seq<T>, le: (T, T) -> bool): (r: seq<T>)
    ensures multiset(r) == multiset(s) + multiset{x}
    ensures |r| == |s| + 1
  {
    if s == [] then [x]
    else if le(x, s[0]) then [x] + s
    else
      assert s == [s[0]] + s[1..];
      [s[0]] + Insert(x, s[1..], le)
  }

  /** The sorted arrangement of `s` under `le`. */
  function SortBy<T>(s: seq<T>, le: (T, T) -> bool): (r: seq<T>)
    ensures multiset(r) == multiset(s)
    ensures |r| == |s|
  {
    if s == [] then []
    else
      assert s == [s[0]] + s[1..];
      Insert(s[0], SortBy(s[1..], le), le)
  }

  lemma {:induction false} InsertSorted<T(!new)>(x: T, s: seq<T>, le: (T, T) -> bool)
    requires TotalPreorder(le)
    requires SortedBy(s, le)
    ensures SortedBy(Insert(x, s, le), le)
  {
    if s != [] && !le(x, s[0]) {
      var rest := Insert(x, s[1..], le);
      InsertSorted(x, s[1..], le);
      assert le(s[0], x);
      forall k | 0 <= k < |rest| ensures le(s[0], rest[k]) {
        assert rest[k] in multiset(rest);
        if rest[k] != x {
          assert rest[k] in multiset(s[1..]);
          var m :| 0 <= m < |s[1..]| && s[1..][m] == rest[k];
          assert s[m + 1] == rest[k];
        }
      }
      var r := [s[0]] + rest;
      forall i, j | 0 <= i < j < |r| ensures le(r[i], r[j]) {
        if i > 0 {
          assert r[i] == rest[i - 1] && r[j] == rest[j - 1];
        } else {
          assert r[j] == rest[j - 1];
        }
      }
    }
  }

  /** Sorting yields a permutation of the input, ordered by `le`. */
  lemma {:induction false} SortBySorted<T(!new)>(s: seq<T>, le: (T, T) -> bool)
    requires TotalPreorder(le)
    ensures SortedBy(SortBy(s, le), le)
    ensures multiset(SortBy(s, le)) == multiset(s)
  {
    if s != [] {
      SortBySorted(s[1..], le);
      InsertSorted(s[0], SortBy(s[1..], le), le);
    }
  }
  /** The elements `le` ranks with `e`: neither goes strictly before the other. */
  function TiedWith<T>(le: (T, T) -> bool, e: T): T -> bool {
    (y: T) => le(y, e) && le(e, y)
  }

  /**
   * Inserting `x` keeps the order of the elements tied with `e`: `x` goes
   * before every element it ties with, as the first of its ties.
   */
  lemma {:induction false} InsertKeepsTies<T(!new)>(x: T, s: seq<T>, le: (T, T) -> bool, e: T)
    requires TotalPreorder(le)
    ensures Filter(Insert(x, s, le), TiedWith(le, e)) == Filter([x] + s, TiedWith(le, e))
  {
    if s != [] && !le(x, s[0]) {
      InsertKeepsTies(x, s[1..], le, e);
      TiedOrdered(le, e, x, s[0]);
      InsertPastKeepsTies(x, s, le, TiedWith(le, e));
    }
  }

  /** The step of `InsertKeepsTies` where `x` goes past `s[0]`, which it does not tie with. */
  lemma InsertPastKeepsTies<T(!new)>(x: T, s: seq<T>, le: (T, T) -> bool, tied: T -> bool)
    requires s != [] && !le(x, s[0]) && !(tied(x) && tied(s[0]))
    requires Filter(Insert(x, s[1..], le), tied) == Filter([x] + s[1..], tied)
    ensures Filter(Insert(x, s, le), tied) == Filter([x] + s, tied)
  {
    var rest := Insert(x, s[1..], le);
    var tail := Filter(s[1..], tied);
    assert ([x] + s[1..])[0] == x && ([x] + s[1..])[1..] == s[1..];
    assert Filter(rest, tied) == (if tied(x) then [x] else []) + tail;
    assert ([s[0]] + rest)[0] == s[0] && ([s[0]] + rest)[1..] == rest;
    assert ([x] + s)[0] == x && ([x] + s)[1..] == s;
    if tied(x) {
      assert Filter(Insert(x, s, le), tied) == [x] + tail;
      assert Filter(s, tied) == tail;
    } else {
      assert Filter(Insert(x, s, le), tied) == Filter(s, tied);
    }
  }

  /** An element that goes strictly after `x` does not tie with `e` when `x` does. */
  lemma TiedOrdered<T(!new)>(le: (T, T) -> bool, e: T, x: T, y: T)
    requires TotalPreorder(le) && !le(x, y)
    ensures !(TiedWith(le, e)(x) && TiedWith(le, e)(y))
  {
  }

  /**
   * `SortBy` is stable: the elements tied with any `e` come out in the
   * order they went in, as `Array.prototype.sort` keeps them for a
   * comparator that returns 0.
   */
  lemma {:induction false} SortByStable<T(!new)>(s: seq<T>, le: (T, T) -> bool, e: T)
    requires TotalPreorder(le)
    ensures Filter(SortBy(s, le), TiedWith(le, e)) == Filter(s, TiedWith(le, e))
  {
    if s != [] {
      var sorted := SortBy(s[1..], le);
      SortByStable(s[1..], le, e);
      InsertKeepsTies(s[0], sorted, le, e);
      assert ([s[0]] + sorted)[0] == s[0] && ([s[0]] + sorted)[1..] == sorted;
    }
  }
}
