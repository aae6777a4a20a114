/** The stable sort that `Array.prototype.sort` performs with a numeric
    comparator `(a, b) => key(a) - key(b)`, written as an insertion sort.
    Both the calendar's day view and the application's appointment list use it. */
module Sorting {

  ghost predicate SortedBy<T>(s: seq<T>, key: T -> int) {
    forall i, j :: 0 <= i < j < |s| ==> key(s[i]) <= key(s[j])
  }

  /** Places `x` after every element of `s` whose key is at most key(x), scanning from the right. */
  function InsertBy<T>(s: seq<T>, x: T, key: T -> int): (r: seq<T>)
    ensures |r| == |s| + 1
    ensures multiset(r) == multiset(s) + multiset{x}
  {
    if s == [] then [x]
    else if key(s[|s| - 1]) <= key(x) then s + [x]
    else
      assert s == s[..|s| - 1] + [s[|s| - 1]];
      InsertBy(s[..|s| - 1], x, key) + [s[|s| - 1]]
  }

  /** Inserting into a sorted list keeps it sorted. */
  lemma {:induction false} InsertBySorted<T>(s: seq<T>, x: T, key: T -> int)
    requires SortedBy(s, key)
    ensures SortedBy(InsertBy(s, x, key), key)
  {
    if s == [] {
    } else if key(s[|s| - 1]) <= key(x) {
      SortedSnoc(s, x, key);
    } else {
      var init, last := s[..|s| - 1], s[|s| - 1];
      assert s == init + [last];
      assert SortedBy(init, key);
      InsertBySorted(init, x, key);
      var p := InsertBy(init, x, key);
      assert InsertBy(s, x, key) == p + [last];
      InsertBounded(init, x, key, key(last));
      SortedSnoc(p, last, key);
    }
  }

  /** Appending an element no smaller than the last one keeps a list sorted. */
  lemma SortedSnoc<T>(s: seq<T>, x: T, key: T -> int)
    requires SortedBy(s, key)
    requires s == [] || key(s[|s| - 1]) <= key(x)
    ensures SortedBy(s + [x], key)
  {
    var r := s + [x];
    forall i, j | 0 <= i < j < |r| ensures key(r[i]) <= key(r[j]) {
      if j == |s| && i < |s| - 1 {
        assert key(s[i]) <= key(s[|s| - 1]);
      }
    }
  }

  /** A bound on every key survives an insertion that respects it. */
  lemma InsertBounded<T>(s: seq<T>, x: T, key: T -> int, b: int)
    requires forall i :: 0 <= i < |s| ==> key(s[i]) <= b
    requires key(x) <= b
    ensures forall i :: 0 <= i < |InsertBy(s, x, key)| ==> key(InsertBy(s, x, key)[i]) <= b
  {
    var r := InsertBy(s, x, key);
    forall i | 0 <= i < |r| ensures key(r[i]) <= b {
      assert r[i] in multiset(r);
      if r[i] != x {
        assert r[i] in multiset(s);
        var k :| 0 <= k < |s| && s[k] == r[i];
      }
    }
  }

  /** `r` is `s` with `x` placed at position k, every later element's key above
      key(x) and, when k > 0, the element just before it at most key(x). */
  ghost predicate PlacedAt<T>(s: seq<T>, x: T, key: T -> int, r: seq<T>, k: int) {
    0 <= k <= |s| && r == s[..k] + [x] + s[k..] &&
    (k > 0 ==> key(s[k - 1]) <= key(x)) &&
    forall i :: k <= i < |s| ==> key(s[i]) > key(x)
  }

  /** Where InsertBy puts `x`: after the last element whose key is at most key(x),
      before a run of elements with larger keys. */
  lemma {:induction false} InsertByPosition<T>(s: seq<T>, x: T, key: T -> int)
    ensures exists k :: PlacedAt(s, x, key, InsertBy(s, x, key), k)
  {
    var r := InsertBy(s, x, key);
    if s == [] {
      assert r == s[..0] + [x] + s[0..];
      assert PlacedAt(s, x, key, r, 0);
    } else if key(s[|s| - 1]) <= key(x) {
      assert r == s[..|s|] + [x] + s[|s|..];
      assert PlacedAt(s, x, key, r, |s|);
    } else {
      var init, last := s[..|s| - 1], s[|s| - 1];
      InsertByPosition(init, x, key);
      var k :| PlacedAt(init, x, key, InsertBy(init, x, key), k);
      PlacedAtSnoc(init, x, key, InsertBy(init, x, key), k, last);
      assert s == init + [last];
    }
  }

  /** A placement survives appending an element whose key is above key(x). */
  lemma PlacedAtSnoc<T>(s: seq<T>, x: T, key: T -> int, r: seq<T>, k: int, last: T)
    requires PlacedAt(s, x, key, r, k)
    requires key(last) > key(x)
    ensures PlacedAt(s + [last], x, key, r + [last], k)
  {
    SplitAppend(s, [last], k);
    var t := s + [last];
    forall i | k <= i < |t| ensures key(t[i]) > key(x) {
      if i < |s| {
        assert t[i] == s[i];
      }
    }
  }

  /** Splitting `a + b` inside `a` splits `a`. */
  lemma SplitAppend<T>(a: seq<T>, b: seq<T>, k: int)
    requires 0 <= k <= |a|
    ensures (a + b)[..k] == a[..k]
    ensures (a + b)[k..] == a[k..] + b
  {
  }

  /** The elements of `s` whose key is `v`, in their order in `s`. */
  function WithKey<T>(s: seq<T>, key: T -> int, v: int): (r: seq<T>)
    ensures |r| <= |s|
    ensures forall i :: 0 <= i < |r| ==> key(r[i]) == v
  {
    if s == [] then []
    else (if key(s[0]) == v then [s[0]] else []) + WithKey(s[1..], key, v)
  }

  lemma {:induction false} WithKeyAppend<T>(a: seq<T>, b: seq<T>, key: T -> int, v: int)
    ensures WithKey(a + b, key, v) == WithKey(a, key, v) + WithKey(b, key, v)
  {
    if a == [] {
      assert a + b == b;
    } else {
      assert (a + b)[1..] == a[1..] + b;
      WithKeyAppend(a[1..], b, key, v);
    }
  }

  /** Inserting `x` leaves the elements of every other key in place and puts `x` after
      all elements of its own key. */
  lemma {:induction false} InsertByWithKey<T>(s: seq<T>, x: T, key: T -> int, v: int)
    ensures WithKey(InsertBy(s, x, key), key, v) ==
            WithKey(s, key, v) + (if key(x) == v then [x] else [])
  {
    if s == [] {
    } else if key(s[|s| - 1]) <= key(x) {
      WithKeyAppend(s, [x], key, v);
    } else {
      var init, last := s[..|s| - 1], s[|s| - 1];
      assert s == init + [last];
      InsertByWithKey(init, x, key, v);
      WithKeyAppend(InsertBy(init, x, key), [last], key, v);
      WithKeyAppend(init, [last], key, v);
    }
  }

  /** Stable sort of `s` by `key`. */
  function SortBy<T>(s: seq<T>, key: T -> int): (r: seq<T>)
    ensures |r| == |s|
    ensures multiset(r) == multiset(s)
    ensures SortedBy(r, key)
  {
    if s == [] then []
    else
      assert s == s[..|s| - 1] + [s[|s| - 1]];
      var sortedInit := SortBy(s[..|s| - 1], key);
      InsertBySorted(sortedInit, s[|s| - 1], key);
      InsertBy(sortedInit, s[|s| - 1], key)
  }

  /** Stability: for every key, the elements carrying it come out of the sort in the
      order they went in. */
  lemma {:induction false} SortByStable<T>(s: seq<T>, key: T -> int, v: int)
    ensures WithKey(SortBy(s, key), key, v) == WithKey(s, key, v)
  {
    if s != [] {
      var init, last := s[..|s| - 1], s[|s| - 1];
      assert s == init + [last];
      SortByStable(init, key, v);
      InsertByWithKey(SortBy(init, key), last, key, v);
      WithKeyAppend(init, [last], key, v);
    }
  }

  /** Sorting an already sorted list changes nothing. */
  lemma {:induction false} SortBySorted<T>(s: seq<T>, key: T -> int)
    requires SortedBy(s, key)
    ensures SortBy(s, key) == s
  {
    if s != [] {
      var init := s[..|s| - 1];
      assert SortedBy(init, key);
      SortBySorted(init, key);
      assert s == init + [s[|s| - 1]];
      assert init == [] || key(init[|init| - 1]) <= key(s[|s| - 1]);
    }
  }

  /** Appending one element to a sorted list and sorting is inserting it:
      every element already present keeps its relative order. */
  lemma SortAfterAppend<T>(s: seq<T>, x: T, key: T -> int)
    requires SortedBy(s, key)
    ensures SortBy(s + [x], key) == InsertBy(s, x, key)
  {
    assert (s + [x])[..|s + [x]| - 1] == s;
    SortBySorted(s, key);
  }
}
