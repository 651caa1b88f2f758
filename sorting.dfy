/**
 * `Array.prototype.sort` with a comparator of the form `key(a) - key(b)`:
 * a stable sort by an integer key. A comparator `key(b) - key(a)` is the
 * same sort by the negated key.
 */
module Sorting {
  import opened Seqs

  /** Keys never decrease along `s`. */
  ghost predicate SortedBy<T>(s: seq<T>, key: T -> int) {
    forall i, j :: 0 <= i < j < |s| ==> key(s[i]) <= key(s[j])
  }

  /** Places `x` before the first element whose key is not below `x`'s. */
  function Insert<T>(x: T, s: seq<T>, key: T -> int): (r: seq<T>)
    ensures |r| == |s| + 1
  {
    if s == [] || key(x) <= key(s[0]) then [x] + s
    else [s[0]] + Insert(x, s[1..], key)
  }

  /** Insertion adds exactly `x`. */
  lemma {:induction false} InsertMultiset<T>(x: T, s: seq<T>, key: T -> int)
    ensures multiset(Insert(x, s, key)) == multiset(s) + multiset{x}
  {
    if s != [] && key(x) > key(s[0]) {
      InsertMultiset(x, s[1..], key);
      assert s == [s[0]] + s[1..];
    }
  }

  /** Inserting into a sorted sequence keeps it sorted. */
  lemma {:induction false} InsertSorted<T>(x: T, s: seq<T>, key: T -> int)
    requires SortedBy(s, key)
    ensures SortedBy(Insert(x, s, key), key)
  {
    if s != [] && key(x) > key(s[0]) {
      var rest := Insert(x, s[1..], key);
      InsertSorted(x, s[1..], key);
      InsertMultiset(x, s[1..], key);
      forall k | 0 <= k < |rest| ensures key(s[0]) <= key(rest[k]) {
        assert rest[k] in multiset(rest);
        assert rest[k] == x || rest[k] in multiset(s[1..]);
        if rest[k] != x {
          var m :| 0 <= m < |s[1..]| && s[1..][m] == rest[k];
          assert s[1 + m] == rest[k];
        }
      }
    }
  }

  /** Stable insertion sort: equal keys keep their input order. */
  function SortBy<T>(s: seq<T>, key: T -> int): (r: seq<T>)
    ensures |r| == |s|
  {
    if s == [] then []
    else Insert(s[0], SortBy(s[1..], key), key)
  }

  /** The sort is a permutation of its input. */
  lemma {:induction false} SortByPermutes<T>(s: seq<T>, key: T -> int)
    ensures multiset(SortBy(s, key)) == multiset(s)
  {
    if s != [] {
      SortByPermutes(s[1..], key);
      InsertMultiset(s[0], SortBy(s[1..], key), key);
      assert s == [s[0]] + s[1..];
    }
  }

  /** The sort orders its output by the key. */
  lemma {:induction false} SortBySorted<T>(s: seq<T>, key: T -> int)
    ensures SortedBy(SortBy(s, key), key)
  {
    if s != [] {
      SortBySorted(s[1..], key);
      InsertSorted(s[0], SortBy(s[1..], key), key);
    }
  }

  /** Unfolding one step of the sort. */
  lemma SortByCons<T>(x: T, s: seq<T>, key: T -> int)
    ensures SortBy([x] + s, key) == Insert(x, SortBy(s, key), key)
  {
    assert ([x] + s)[1..] == s;
  }

  /** An element whose key is past the first one's goes behind it. */
  lemma InsertPast<T>(x: T, y: T, s: seq<T>, key: T -> int)
    requires key(y) < key(x)
    ensures Insert(x, [y] + s, key) == [y] + Insert(x, s, key)
  {
    assert ([y] + s)[1..] == s;
  }

  /**
   * Insertion keeps the order among equal keys: `x` passes only smaller
   * keys and stops at the first one not below it, so it lands before the
   * elements of `s` whose key equals its own. In `SortBy` these come from
   * later in the input, so the input order among equal keys is kept.
   */
  lemma {:induction false} InsertFilterKey<T(!new)>(x: T, s: seq<T>, key: T -> int, k: int)
    ensures Filter(Insert(x, s, key), y => key(y) == k)
         == (if key(x) == k then [x] else []) + Filter(s, y => key(y) == k)
  {
    if s == [] || key(x) <= key(s[0]) {
      assert ([x] + s)[1..] == s;
    } else {
      InsertFilterKey(x, s[1..], key, k);
      assert ([s[0]] + Insert(x, s[1..], key))[1..] == Insert(x, s[1..], key);
    }
  }

  /**
   * Stability: for every key value, the elements carrying it come out in
   * the order they went in.
   */
  lemma {:induction false} SortByStable<T(!new)>(s: seq<T>, key: T -> int, k: int)
    ensures Filter(SortBy(s, key), y => key(y) == k) == Filter(s, y => key(y) == k)
  {
    if s != [] {
      SortByStable(s[1..], key, k);
      InsertFilterKey(s[0], SortBy(s[1..], key), key, k);
    }
  }

  /** A sequence already in key order is returned unchanged. */
  lemma {:induction false} SortSortedIsIdentity<T>(s: seq<T>, key: T -> int)
    requires SortedBy(s, key)
    ensures SortBy(s, key) == s
  {
    if s != [] {
      assert SortedBy(s[1..], key);
      SortSortedIsIdentity(s[1..], key);
      assert s == [s[0]] + s[1..];
    }
  }

  /** A comparator that always answers 0 keeps the input order. */
  lemma ConstantKeyIsIdentity<T>(s: seq<T>, key: T -> int, c: int)
    requires forall i :: 0 <= i < |s| ==> key(s[i]) == c
    ensures SortBy(s, key) == s
  {
    SortSortedIsIdentity(s, key);
  }

  /** Sorting twice by the same key is sorting once. */
  lemma SortIdempotent<T>(s: seq<T>, key: T -> int)
    ensures SortBy(SortBy(s, key), key) == SortBy(s, key)
  {
    SortBySorted(s, key);
    SortSortedIsIdentity(SortBy(s, key), key);
  }

  /** Ascending order by the negated key is descending order by the key. */
  lemma NegatedKeyDescending<T>(s: seq<T>, key: T -> int, neg: T -> int)
    requires forall i :: 0 <= i < |s| ==> neg(s[i]) == -key(s[i])
    requires SortedBy(s, neg)
    ensures forall i, j :: 0 <= i < j < |s| ==> key(s[j]) <= key(s[i])
  {
    forall i, j | 0 <= i < j < |s| ensures key(s[j]) <= key(s[i]) {
      assert neg(s[i]) <= neg(s[j]);
    }
  }
}
