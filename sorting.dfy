/**
 * Stable sorting by an integer key in descending order.  Both sorts the core
 * relies on are stable library sorts: Python's `list.sort(key=..., reverse=True)`
 * and JavaScript's `Array.prototype.sort` with a comparator `key(b) - key(a)`.
 * Here the sort is an insertion sort that never moves an element past an
 * element of the same key.
 */
module Sorting {
  import Seqs

  /** Keys never increase from left to right. */
  ghost predicate NonIncreasing<T>(s: seq<T>, key: T -> int) {
    forall i, j :: 0 <= i < j < |s| ==> key(s[i]) >= key(s[j])
  }

  /** The predicate "has key v", as one value so that filters over it can be compared. */
  function KeyIs<T>(key: T -> int, v: int): T -> bool {
    x => key(x) == v
  }

  /** Places x in front of the first element whose key is not larger than x's. */
  function InsertDesc<T>(x: T, s: seq<T>, key: T -> int): (r: seq<T>)
    ensures |r| == |s| + 1
    ensures multiset(r) == multiset(s) + multiset{x}
    ensures key(r[0]) == key(x) || (s != [] && key(r[0]) == key(s[0]))
  {
    if s == [] || key(s[0]) <= key(x) then [x] + s
    else
      assert s == [s[0]] + s[1..];
      [s[0]] + InsertDesc(x, s[1..], key)
  }

  /** Dropping the first element keeps a sequence sorted. */
  lemma TailSorted<T>(s: seq<T>, key: T -> int)
    requires s != [] && NonIncreasing(s, key)
    ensures NonIncreasing(s[1..], key)
  {
    forall i, j | 0 <= i < j < |s| - 1 ensures key(s[1..][i]) >= key(s[1..][j]) {
      assert s[1..][i] == s[i + 1] && s[1..][j] == s[j + 1];
    }
  }

  /** An element with a key at least the first key of a sorted sequence can go in front of it. */
  lemma ConsSorted<T>(y: T, t: seq<T>, key: T -> int)
    requires NonIncreasing(t, key)
    requires t != [] ==> key(t[0]) <= key(y)
    ensures NonIncreasing([y] + t, key)
  {
    var r := [y] + t;
    forall i, j | 0 <= i < j < |r| ensures key(r[i]) >= key(r[j]) {
      assert r[j] == t[j - 1];
      if i > 0 {
        assert r[i] == t[i - 1];
      }
    }
  }

  /** Inserting into a sequence sorted by descending key keeps it sorted. */
  lemma {:induction false} InsertDescSorted<T>(x: T, s: seq<T>, key: T -> int)
    requires NonIncreasing(s, key)
    ensures NonIncreasing(InsertDesc(x, s, key), key)
  {
    if s == [] || key(s[0]) <= key(x) {
      ConsSorted(x, s, key);
    } else {
      TailSorted(s, key);
      InsertDescSorted(x, s[1..], key);
      var t := InsertDesc(x, s[1..], key);
      assert key(t[0]) <= key(s[0]) by {
        if key(t[0]) != key(x) {
          assert s[1..][0] == s[1];
        }
      }
      ConsSorted(s[0], t, key);
    }
  }

  /** The stable descending sort of s by key. */
  function SortDesc<T>(s: seq<T>, key: T -> int): (r: seq<T>)
    ensures |r| == |s|
    ensures multiset(r) == multiset(s)
    ensures NonIncreasing(r, key)
  {
    if s == [] then []
    else
      assert s == [s[0]] + s[1..];
      var t := SortDesc(s[1..], key);
      InsertDescSorted(s[0], t, key);
      InsertDesc(s[0], t, key)
  }

  /** Inserting x changes the elements of key v only by putting x in front of them. */
  lemma {:induction false} InsertDescStable<T>(x: T, s: seq<T>, key: T -> int, v: int)
    ensures Seqs.Filter(InsertDesc(x, s, key), KeyIs(key, v))
            == (if key(x) == v then [x] else []) + Seqs.Filter(s, KeyIs(key, v))
  {
    var p := KeyIs(key, v);
    if s == [] || key(s[0]) <= key(x) {
      Seqs.FilterCons(x, s, p);
    } else {
      var t := InsertDesc(x, s[1..], key);
      InsertDescStable(x, s[1..], key, v);
      Seqs.FilterCons(s[0], t, p);
      Seqs.FilterCons(s[0], s[1..], p);
      assert [s[0]] + s[1..] == s;
      var rest := Seqs.Filter(s[1..], p);
      if key(x) == v {
        assert !p(s[0]);
        assert Seqs.Filter(InsertDesc(x, s, key), p) == [] + ([x] + rest);
      } else {
        assert Seqs.Filter(t, p) == [] + rest;
        assert [] + rest == rest;
      }
    }
  }

  /**
   * Stability: for every key value, the elements with that key appear in the
   * sorted sequence in the same order as in the input.
   */
  lemma {:induction false} SortDescStable<T>(s: seq<T>, key: T -> int, v: int)
    ensures Seqs.Filter(SortDesc(s, key), KeyIs(key, v)) == Seqs.Filter(s, KeyIs(key, v))
  {
    if s != [] {
      SortDescStable(s[1..], key, v);
      InsertDescStable(s[0], SortDesc(s[1..], key), key, v);
    }
  }
}
