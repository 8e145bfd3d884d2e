/** Python's `list.sort(key=...)` / `sorted(...)`: a stable sort by a real-valued key,
    written as an insertion sort. */
module Sorting {

  predicate SortedBy<T>(s: seq<T>, key: T -> real) {
    forall i, j :: 0 <= i < j < |s| ==> key(s[i]) <= key(s[j])
  }

  /** Inserts `x` after every element whose key is not larger than its own, so
      that elements with equal keys keep their order of arrival. */
  function InsertBy<T>(s: seq<T>, x: T, key: T -> real): (r: seq<T>)
    requires SortedBy(s, key)
    ensures SortedBy(r, key)
    ensures multiset(r) == multiset(s) + multiset{x}
    ensures |r| == |s| + 1
  {
    if s == [] || key(s[|s| - 1]) <= key(x) then
      s + [x]
    else
      var init, last := s[..|s| - 1], s[|s| - 1];
      var front := InsertBy(init, x, key);
      assert init + [last] == s;
      InsertedBelowLast(init, last, x, front, key);
      front + [last]
  }

  /** Every element of `init`, and `x`, has a key no larger than `last`'s, so
      the same holds of any arrangement of them. */
  lemma InsertedBelowLast<T>(init: seq<T>, last: T, x: T, front: seq<T>, key: T -> real)
    requires SortedBy(init + [last], key) && key(x) < key(last)
    requires multiset(front) == multiset(init) + multiset{x}
    ensures forall k :: 0 <= k < |front| ==> key(front[k]) <= key(last)
  {
    forall k | 0 <= k < |front|
      ensures key(front[k]) <= key(last)
    {
      var y := front[k];
      assert y in multiset(front);
      if y != x {
        assert y in multiset(init);
        var m :| 0 <= m < |init| && init[m] == y;
        assert (init + [last])[m] == y && (init + [last])[|init|] == last;
      }
    }
  }

  /** The sorted arrangement of `s`: ascending by key, a permutation of `s`. */
  function SortBy<T>(s: seq<T>, key: T -> real): (r: seq<T>)
    ensures SortedBy(r, key)
    ensures multiset(r) == multiset(s)
    ensures |r| == |s|
  {
    if s == [] then []
    else
      assert s[..|s| - 1] + [s[|s| - 1]] == s;
      InsertBy(SortBy(s[..|s| - 1], key), s[|s| - 1], key)
  }

  /** The elements of `s` whose key is `v`, in their order in `s`. */
  function WithKey<T>(s: seq<T>, key: T -> real, v: real): seq<T> {
    if s == [] then []
    else WithKey(s[..|s| - 1], key, v) + (if key(s[|s| - 1]) == v then [s[|s| - 1]] else [])
  }

  lemma {:induction false} WithKeyAppend<T>(a: seq<T>, b: seq<T>, key: T -> real, v: real)
    ensures WithKey(a + b, key, v) == WithKey(a, key, v) + WithKey(b, key, v)
  {
    if b == [] {
      assert a + b == a;
    } else {
      var init := b[..|b| - 1];
      assert (a + b)[..|a + b| - 1] == a + init;
      WithKeyAppend(a, init, key, v);
    }
  }

  lemma WithKeySingle<T>(x: T, key: T -> real, v: real)
    ensures WithKey([x], key, v) == if key(x) == v then [x] else []
  {
    assert [x][..0] == [];
  }

  /** Inserting `x` puts it after every element of equal key. */
  lemma {:induction false} InsertByStable<T>(s: seq<T>, x: T, key: T -> real, v: real)
    requires SortedBy(s, key)
    ensures WithKey(InsertBy(s, x, key), key, v) == WithKey(s, key, v) + WithKey([x], key, v)
  {
    if s == [] || key(s[|s| - 1]) <= key(x) {
      assert InsertBy(s, x, key) == s + [x];
      WithKeyAppend(s, [x], key, v);
    } else {
      var init, last := s[..|s| - 1], s[|s| - 1];
      assert SortedBy(init, key);
      var front := InsertBy(init, x, key);
      assert InsertBy(s, x, key) == front + [last];
      InsertByStable(init, x, key, v);
      assert s == init + [last];
      StableAfterLast(init, last, x, front, key, v);
    }
  }

  /** `x` goes before `last`, whose key is larger, so no element of key `v`
      comes between them. */
  lemma StableAfterLast<T>(init: seq<T>, last: T, x: T, front: seq<T>, key: T -> real, v: real)
    requires key(x) < key(last)
    requires WithKey(front, key, v) == WithKey(init, key, v) + WithKey([x], key, v)
    ensures WithKey(front + [last], key, v) == WithKey(init + [last], key, v) + WithKey([x], key, v)
  {
    WithKeyAppend(front, [last], key, v);
    WithKeyAppend(init, [last], key, v);
    WithKeySingle(x, key, v);
    WithKeySingle(last, key, v);
  }

  /** The sort is stable: the elements of any one key keep their order. */
  lemma {:induction false} SortByStable<T>(s: seq<T>, key: T -> real, v: real)
    ensures WithKey(SortBy(s, key), key, v) == WithKey(s, key, v)
  {
    if s != [] {
      var init, last := s[..|s| - 1], s[|s| - 1];
      assert SortBy(s, key) == InsertBy(SortBy(init, key), last, key);
      SortByStable(init, key, v);
      InsertByStable(SortBy(init, key), last, key, v);
      WithKeySingle(last, key, v);
    }
  }

  /** The key that turns an ascending sort into Python's `sorted(..., reverse=True)` on integers. */
  function Descending(i: int): real {
    -(i as real)
  }

  predicate Distinct<T(==)>(s: seq<T>) {
    forall i, j :: 0 <= i < j < |s| ==> s[i] != s[j]
  }

  lemma {:induction false} DistinctMultiplicity<T>(s: seq<T>, x: T)
    requires Distinct(s)
    ensures multiset(s)[x] <= 1
  {
    if s != [] {
      var init := s[..|s| - 1];
      assert s == init + [s[|s| - 1]];
      DistinctMultiplicity(init, x);
      if x == s[|s| - 1] {
        assert x !in init;
      }
    }
  }

  lemma RepeatedMultiplicity<T>(s: seq<T>, i: nat, j: nat)
    requires i < j < |s| && s[i] == s[j]
    ensures multiset(s)[s[i]] >= 2
  {
    assert s == s[..j] + [s[j]] + s[j + 1..];
    assert s[i] in s[..j];
  }

  /** Sorting distinct integers in descending order leaves them strictly descending. */
  lemma SortedDescendingDistinct(s: seq<int>)
    requires Distinct(s)
    ensures var r := SortBy(s, Descending);
            (forall i, j :: 0 <= i < j < |r| ==> r[i] > r[j]) &&
            (forall x :: x in r <==> x in s)
  {
    var r := SortBy(s, Descending);
    forall i, j | 0 <= i < j < |r|
      ensures r[i] > r[j]
    {
      assert Descending(r[i]) <= Descending(r[j]);
      if r[i] == r[j] {
        RepeatedMultiplicity(r, i, j);
        DistinctMultiplicity(s, r[i]);
        assert false;
      }
    }
    forall x
      ensures x in r <==> x in s
    {
      assert x in r <==> x in multiset(r);
      assert x in s <==> x in multiset(s);
    }
  }
}
