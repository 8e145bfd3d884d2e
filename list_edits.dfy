/** The list operations the timeline mutators are built from: `list.pop(i)`,
    popping a whole index list in order, and the position-based views that
    say what those pops amount to. */
module ListEdits {
  import opened Common

  /** Python's `list.pop(i)` for a valid non-negative index: the rest closes up. */
  function RemoveAt<T>(s: seq<T>, i: nat): (r: seq<T>)
    requires i < |s|
    ensures |r| == |s| - 1
    ensures forall j :: 0 <= j < i ==> r[j] == s[j]
    ensures forall j :: i <= j < |r| ==> r[j] == s[j + 1]
  {
    s[..i] + s[i + 1..]
  }

  /** `for i in order: s.pop(i)`. A pop whose index is not a position of the
      list as it is at that moment raises IndexError, which is `None` here.
      (Every caller validates its indices as non-negative before popping.) */
  function PopAll<T>(s: seq<T>, order: seq<int>): Option<seq<T>>
    decreases |order|
  {
    if order == [] then Some(s)
    else if 0 <= order[0] < |s| then PopAll(RemoveAt(s, order[0]), order[1..])
    else None
  }

  /** The elements of `s` whose positions are not in `drop`, in their original order. */
  function Without<T>(s: seq<T>, drop: set<int>): (r: seq<T>)
    ensures |r| <= |s|
  {
    if s == [] then []
    else Without(s[..|s| - 1], drop) + (if |s| - 1 in drop then [] else [s[|s| - 1]])
  }

  /** The elements of `s` that `p` rejects, in their original order. */
  function Reject<T>(s: seq<T>, p: T -> bool): (r: seq<T>)
    ensures |r| <= |s|
    ensures forall k :: 0 <= k < |r| ==> r[k] in s && !p(r[k])
    ensures forall k :: 0 <= k < |s| && !p(s[k]) ==> s[k] in r
  {
    if s == [] then []
    else
      assert s == s[..|s| - 1] + [s[|s| - 1]];
      Reject(s[..|s| - 1], p) + (if p(s[|s| - 1]) then [] else [s[|s| - 1]])
  }

  /** How many elements of `s` satisfy `p`. */
  function Count<T>(s: seq<T>, p: T -> bool): nat {
    if s == [] then 0
    else Count(s[..|s| - 1], p) + (if p(s[|s| - 1]) then 1 else 0)
  }

  /** The positions of `s` at which `p` holds, ascending: the `indices.append(i)`
      loops of the collector. */
  function PositionsWhere<T>(s: seq<T>, p: T -> bool): (r: seq<int>)
    ensures |r| == Count(s, p)
    ensures forall k :: 0 <= k < |r| ==> 0 <= r[k] < |s| && p(s[r[k]])
    ensures forall i, j :: 0 <= i < j < |r| ==> r[i] < r[j]
    ensures forall i :: 0 <= i < |s| && p(s[i]) ==> i in r
  {
    if s == [] then []
    else
      var init := s[..|s| - 1];
      var r := PositionsWhere(init, p) + (if p(s[|s| - 1]) then [|s| - 1] else []);
      assert forall i :: 0 <= i < |init| ==> init[i] == s[i];
      r
  }

  /** The first position at which `p` holds, if any. */
  function FirstWhere<T>(s: seq<T>, p: T -> bool): (r: Option<nat>)
    ensures r.Some? ==> r.value < |s| && p(s[r.value]) && forall j :: 0 <= j < r.value ==> !p(s[j])
    ensures r.None? ==> forall j :: 0 <= j < |s| ==> !p(s[j])
  {
    if s == [] then None
    else if p(s[0]) then Some(0)
    else match FirstWhere(s[1..], p)
      case None => None
      case Some(k) => Some(k + 1)
  }

  function SetOf(s: seq<int>): set<int> {
    set k | 0 <= k < |s| :: s[k]
  }

  /** Positions outside the list do not affect `Without`. */
  lemma {:induction false} WithoutSameInside<T>(s: seq<T>, d1: set<int>, d2: set<int>)
    requires forall k :: 0 <= k < |s| ==> (k in d1 <==> k in d2)
    ensures Without(s, d1) == Without(s, d2)
  {
    if s != [] {
      WithoutSameInside(s[..|s| - 1], d1, d2);
    }
  }

  /** Dropping nothing keeps the list. */
  lemma {:induction false} WithoutNothing<T>(s: seq<T>, d: set<int>)
    requires forall k :: 0 <= k < |s| ==> k !in d
    ensures Without(s, d) == s
  {
    if s != [] {
      WithoutNothing(s[..|s| - 1], d);
    }
  }

  /** A tail none of whose positions is dropped is kept whole. */
  lemma {:induction false} WithoutKeepsTail<T>(a: seq<T>, b: seq<T>, d: set<int>)
    requires forall k :: |a| <= k < |a| + |b| ==> k !in d
    ensures Without(a + b, d) == Without(a, d) + b
    decreases |b|
  {
    if b == [] {
      assert a + b == a;
    } else {
      var b' := b[..|b| - 1];
      assert (a + b)[..|a + b| - 1] == a + b';
      WithoutKeepsTail(a, b', d);
      assert b' + [b[|b| - 1]] == b;
    }
  }

  /** Popping strictly descending, valid positions one by one removes exactly
      those positions: each pop leaves the positions still to be popped in place. */
  lemma {:induction false} PopDescending<T>(s: seq<T>, order: seq<int>)
    requires forall i, j :: 0 <= i < j < |order| ==> order[i] > order[j]
    requires forall k :: 0 <= k < |order| ==> 0 <= order[k] < |s|
    ensures PopAll(s, order) == Some(Without(s, SetOf(order)))
    decreases |order|
  {
    if order == [] {
      WithoutNothing(s, SetOf(order));
    } else {
      var i := order[0];
      var rest := order[1..];
      var d := SetOf(order);
      var d' := SetOf(rest);
      var t := RemoveAt(s, i);
      forall k | 0 <= k < |rest|
        ensures 0 <= rest[k] < |t|
      {
        assert rest[k] == order[k + 1];
      }
      forall a, b | 0 <= a < b < |rest|
        ensures rest[a] > rest[b]
      {
        assert rest[a] == order[a + 1] && rest[b] == order[b + 1];
      }
      PopDescending(t, rest);
      assert forall k :: k in d' ==> k < i by {
        forall k | k in d' ensures k < i {
          var m :| 0 <= m < |rest| && rest[m] == k;
          assert order[m + 1] == k;
        }
      }
      assert forall k :: k in d <==> k == i || k in d' by {
        forall k ensures k in d <==> k == i || k in d' {
          if k in d {
            var m :| 0 <= m < |order| && order[m] == k;
            if m > 0 { assert rest[m - 1] == k; }
          }
          if k in d' {
            var m :| 0 <= m < |rest| && rest[m] == k;
            assert order[m + 1] == k;
          }
        }
      }
      // Without(s, d) == Without(s[..i], d') + s[i+1..] == Without(t, d')
      assert s == s[..i + 1] + s[i + 1..];
      WithoutKeepsTail(s[..i + 1], s[i + 1..], d);
      assert s[..i + 1][..i] == s[..i];
      WithoutSameInside(s[..i], d, d');
      assert Without(s[..i + 1], d) == Without(s[..i], d');
      assert t == s[..i] + s[i + 1..];
      WithoutKeepsTail(s[..i], s[i + 1..], d');
    }
  }

  /** Dropping the positions where `p` holds is the same as rejecting by `p`. */
  lemma {:induction false} WithoutPositions<T>(s: seq<T>, p: T -> bool)
    ensures Without(s, SetOf(PositionsWhere(s, p))) == Reject(s, p)
  {
    if s != [] {
      var init := s[..|s| - 1];
      var last := |s| - 1;
      var d := SetOf(PositionsWhere(s, p));
      var d0 := SetOf(PositionsWhere(init, p));
      WithoutPositions(init, p);
      forall k | 0 <= k < |init|
        ensures k in d <==> k in d0
      {
        assert init[k] == s[k];
        if k in d0 {
          var m :| 0 <= m < |PositionsWhere(init, p)| && PositionsWhere(init, p)[m] == k;
          assert PositionsWhere(s, p)[m] == k;
        }
      }
      WithoutSameInside(init, d, d0);
      if p(s[last]) {
        assert PositionsWhere(s, p)[|PositionsWhere(s, p)| - 1] == last;
      } else {
        assert last !in d;
      }
    }
  }

  /** Rejecting by `p` removes exactly the elements `p` counts. */
  lemma {:induction false} RejectLength<T>(s: seq<T>, p: T -> bool)
    ensures |Reject(s, p)| == |s| - Count(s, p)
  {
    if s != [] {
      RejectLength(s[..|s| - 1], p);
    }
  }

  /** Nothing that survives `Reject` satisfies `p`. */
  lemma {:induction false} RejectCountsNone<T>(s: seq<T>, p: T -> bool)
    ensures Count(Reject(s, p), p) == 0
  {
    if s != [] {
      var init := s[..|s| - 1];
      RejectCountsNone(init, p);
      var front := Reject(init, p);
      if !p(s[|s| - 1]) {
        var r := front + [s[|s| - 1]];
        assert Reject(s, p) == r;
        assert r[..|r| - 1] == front;
        assert Count(r, p) == Count(front, p);
      } else {
        assert Reject(s, p) == front;
      }
    }
  }

  lemma {:induction false} CountAppend<T>(a: seq<T>, b: seq<T>, p: T -> bool)
    ensures Count(a + b, p) == Count(a, p) + Count(b, p)
    decreases |b|
  {
    if b == [] {
      assert a + b == a;
    } else {
      assert (a + b)[..|a + b| - 1] == a + b[..|b| - 1];
      CountAppend(a, b[..|b| - 1], p);
    }
  }
}
