/** `Array.prototype.sort` with a comparator. The sort is stable (ECMAScript 2019 and later),
    so its result is the insertion sort below: each element, taken in order, goes in front of
    the first element already placed that it strictly precedes. `before(a, b)` holds when the
    comparator puts `a` strictly before `b` (its result is negative). */
module Sorting {
  import opened Common

  /** No element strictly precedes an element placed before it. */
  ghost predicate Sorted<T>(s: seq<T>, before: (T, T) -> bool) {
    forall i, j :: 0 <= i < j < |s| ==> !before(s[j], s[i])
  }

  /** `before` is a strict order: irreflexive and transitive. */
  ghost predicate StrictOrder<T(!new)>(before: (T, T) -> bool) {
    && (forall a :: !before(a, a))
    && (forall a, b, c :: before(a, b) && before(b, c) ==> before(a, c))
  }

  /** `before` is a strict weak order, as a consistent comparator is: a strict order in which
      whatever precedes an element also precedes, or is preceded by, any third one. */
  ghost predicate StrictWeakOrder<T(!new)>(before: (T, T) -> bool) {
    && StrictOrder(before)
    && (forall a, b, c :: before(a, c) ==> before(a, b) || before(b, c))
  }

  /** The copies of `a` and `b` in `s`, in order. */
  function Only<T(==)>(s: seq<T>, a: T, b: T): (r: seq<T>)
    ensures |r| <= |s|
    ensures forall k :: 0 <= k < |r| ==> r[k] == a || r[k] == b
    decreases |s|
  {
    if s == [] then []
    else (if s[0] == a || s[0] == b then [s[0]] else []) + Only(s[1..], a, b)
  }

  /** The position where `x` goes in `t`: in front of the first element it strictly precedes. */
  function InsertPos<T>(t: seq<T>, x: T, before: (T, T) -> bool): (j: nat)
    ensures j <= |t|
    ensures forall k :: 0 <= k < j ==> !before(x, t[k])
    ensures j < |t| ==> before(x, t[j])
    decreases |t|
  {
    if t == [] || before(x, t[0]) then 0 else 1 + InsertPos(t[1..], x, before)
  }

  function InsertSorted<T>(t: seq<T>, x: T, before: (T, T) -> bool): (r: seq<T>)
    ensures multiset(r) == multiset(t) + multiset{x}
    ensures |r| == |t| + 1
  {
    var j := InsertPos(t, x, before);
    assert t == t[..j] + t[j..];
    t[..j] + [x] + t[j..]
  }

  /** The stable sort of `s`. */
  function Sort<T>(s: seq<T>, before: (T, T) -> bool): (r: seq<T>)
    ensures multiset(r) == multiset(s)
    ensures |r| == |s|
    decreases |s|
  {
    if s == [] then []
    else
      assert s == AllButLast(s) + [Last(s)];
      InsertSorted(Sort(AllButLast(s), before), Last(s), before)
  }

  /** Sorting keeps exactly the elements it was given. */
  lemma SortMembers<T>(s: seq<T>, before: (T, T) -> bool)
    ensures forall x :: x in Sort(s, before) <==> x in s
  {
    var r := Sort(s, before);
    forall x ensures x in r <==> x in s {
      assert x in r <==> x in multiset(r);
      assert x in s <==> x in multiset(s);
    }
  }

  /** Inserting into a sorted list keeps it sorted. */
  lemma InsertKeepsSorted<T(!new)>(t: seq<T>, x: T, before: (T, T) -> bool)
    requires StrictOrder(before) && Sorted(t, before)
    ensures Sorted(InsertSorted(t, x, before), before)
  {
    var j := InsertPos(t, x, before);
    var r := InsertSorted(t, x, before);
    forall i, k | 0 <= i < k < |r| ensures !before(r[k], r[i]) {
      if k < j {
        assert r[k] == t[k] && r[i] == t[i];
      } else if k == j {
        assert r[i] == t[i];
      } else if i > j {
        assert r[k] == t[k - 1] && r[i] == t[i - 1];
      } else if i == j {
        assert r[k] == t[k - 1];
      } else {
        assert r[k] == t[k - 1] && r[i] == t[i];
      }
    }
  }

  /** With a strict order, the result is sorted. */
  lemma {:induction false} SortSorted<T(!new)>(s: seq<T>, before: (T, T) -> bool)
    requires StrictOrder(before)
    ensures Sorted(Sort(s, before), before)
    decreases |s|
  {
    if s != [] {
      SortSorted(AllButLast(s), before);
      InsertKeepsSorted(Sort(AllButLast(s), before), Last(s), before);
    }
  }

  /** An element that precedes nothing already placed goes at the end. */
  lemma InsertLast<T>(t: seq<T>, x: T, before: (T, T) -> bool)
    requires forall k :: 0 <= k < |t| ==> !before(x, t[k])
    ensures InsertSorted(t, x, before) == t + [x]
  {
    InsertPosEnd(t, x, before);
  }

  lemma {:induction false} InsertPosEnd<T>(t: seq<T>, x: T, before: (T, T) -> bool)
    requires forall k :: 0 <= k < |t| ==> !before(x, t[k])
    ensures InsertPos(t, x, before) == |t|
    decreases |t|
  {
    if t != [] {
      InsertPosEnd(t[1..], x, before);
    }
  }

  /** A list that is already sorted is left as it is: equal elements keep their order. */
  lemma {:induction false} SortOfSorted<T>(s: seq<T>, before: (T, T) -> bool)
    requires Sorted(s, before)
    ensures Sort(s, before) == s
    decreases |s|
  {
    if s != [] {
      var init := AllButLast(s);
      assert Sorted(init, before);
      SortOfSorted(init, before);
      InsertLast(init, Last(s), before);
      assert init + [Last(s)] == s;
    }
  }

  lemma {:induction false} OnlyAppend<T>(u: seq<T>, v: seq<T>, a: T, b: T)
    ensures Only(u + v, a, b) == Only(u, a, b) + Only(v, a, b)
    decreases |u|
  {
    if u == [] {
      assert u + v == v;
    } else {
      assert (u + v)[0] == u[0] && (u + v)[1..] == u[1..] + v;
      OnlyAppend(u[1..], v, a, b);
    }
  }

  /** Inserting a copy of one of two tied elements into a sorted list puts it after every copy
      already there: whatever it strictly precedes is neither of them. */
  lemma InsertTied<T(!new)>(t: seq<T>, x: T, before: (T, T) -> bool, a: T, b: T)
    requires StrictWeakOrder(before) && Sorted(t, before)
    requires !before(a, b) && !before(b, a)
    ensures Only(InsertSorted(t, x, before), a, b) == Only(t, a, b) + Only([x], a, b)
  {
    if x == a || x == b {
      var j := InsertPos(t, x, before);
      forall k | j <= k < |t| ensures t[k] != a && t[k] != b {
        AfterInsertPos(t, x, before, a, b, j, k);
      }
    }
    InsertOnly(t, x, before, a, b);
  }

  /** The copies after inserting `x`, when no copy stands where a copy `x` would go. */
  lemma InsertOnly<T>(t: seq<T>, x: T, before: (T, T) -> bool, a: T, b: T)
    requires x == a || x == b ==> forall k :: InsertPos(t, x, before) <= k < |t| ==> t[k] != a && t[k] != b
    ensures Only(InsertSorted(t, x, before), a, b) == Only(t, a, b) + Only([x], a, b)
  {
    OnlyInsertAt(t, InsertPos(t, x, before), x, a, b);
  }

  /** Splicing `x` in at `j`, with no copy at or after `j` when `x` is one, adds its copy at
      the end of the copies. */
  lemma OnlyInsertAt<T>(t: seq<T>, j: nat, x: T, a: T, b: T)
    requires j <= |t|
    requires x == a || x == b ==> forall k :: j <= k < |t| ==> t[k] != a && t[k] != b
    ensures Only(t[..j] + [x] + t[j..], a, b) == Only(t, a, b) + Only([x], a, b)
  {
    OnlySplice(t, j, x, a, b);
    if x == a || x == b {
      OnlyNoneFrom(t, j, a, b);
      DropEmptyLast(Only(t[..j], a, b), Only([x], a, b), Only(t[j..], a, b));
    } else {
      DropEmptyMiddle(Only(t[..j], a, b), Only([x], a, b), Only(t[j..], a, b));
    }
  }

  /** With `back` empty, `front + mid + back` is `(front + back) + mid`. */
  lemma DropEmptyLast<T>(front: seq<T>, mid: seq<T>, back: seq<T>)
    requires back == []
    ensures front + mid + back == (front + back) + mid
  {
    assert front + mid + back == front + mid;
    assert front + back == front;
  }

  /** With `mid` empty, `front + mid + back` is `(front + back) + mid`. */
  lemma DropEmptyMiddle<T>(front: seq<T>, mid: seq<T>, back: seq<T>)
    requires mid == []
    ensures front + mid + back == (front + back) + mid
  {
    assert front + mid + back == front + back;
    assert (front + back) + mid == front + back;
  }

  /** The copies in a list with `x` spliced in at `j`: those before `j`, then `x`'s, then
      those after. */
  lemma OnlySplice<T>(t: seq<T>, j: nat, x: T, a: T, b: T)
    requires j <= |t|
    ensures Only(t[..j] + [x] + t[j..], a, b) == Only(t[..j], a, b) + Only([x], a, b) + Only(t[j..], a, b)
    ensures Only(t, a, b) == Only(t[..j], a, b) + Only(t[j..], a, b)
  {
    assert t == t[..j] + t[j..];
    OnlyAppend(t[..j], t[j..], a, b);
    OnlyAppend(t[..j] + [x], t[j..], a, b);
    OnlyAppend(t[..j], [x], a, b);
  }

  lemma OnlyNoneFrom<T>(t: seq<T>, j: nat, a: T, b: T)
    requires j <= |t| && forall k :: j <= k < |t| ==> t[k] != a && t[k] != b
    ensures Only(t[j..], a, b) == []
  {
    assert forall k :: 0 <= k < |t[j..]| ==> t[j..][k] == t[j + k];
    OnlyNone(t[j..], a, b);
  }

  /** Whatever stands at or after the insertion position of one of two tied elements is
      strictly preceded by it, so it is neither of them. */
  lemma AfterInsertPos<T(!new)>(t: seq<T>, x: T, before: (T, T) -> bool, a: T, b: T, j: nat, k: nat)
    requires StrictWeakOrder(before) && Sorted(t, before)
    requires !before(a, b) && !before(b, a) && (x == a || x == b)
    requires j == InsertPos(t, x, before) && j <= k < |t|
    ensures t[k] != a && t[k] != b
  {
    var first, y := t[j], t[k];
    assert before(x, first);
    if k > j {
      assert !before(y, first);
    }
    assert before(x, y);
  }

  lemma {:induction false} OnlyNone<T>(s: seq<T>, a: T, b: T)
    requires forall k :: 0 <= k < |s| ==> s[k] != a && s[k] != b
    ensures Only(s, a, b) == []
    decreases |s|
  {
    if s != [] {
      assert forall k :: 0 <= k < |s| - 1 ==> s[1..][k] == s[k + 1];
      OnlyNone(s[1..], a, b);
    }
  }

  /** The sort is stable: two elements the comparator ties keep, in the result, the order in
      which their copies stood in the input. */
  lemma {:induction false} SortStable<T(!new)>(s: seq<T>, before: (T, T) -> bool, a: T, b: T)
    requires StrictWeakOrder(before)
    requires !before(a, b) && !before(b, a)
    ensures Only(Sort(s, before), a, b) == Only(s, a, b)
    decreases |s|
  {
    if s != [] {
      var init := AllButLast(s);
      SortStable(init, before, a, b);
      SortSorted(init, before);
      InsertTied(Sort(init, before), Last(s), before, a, b);
      InitLast(s);
      OnlyAppend(init, [Last(s)], a, b);
    }
  }
}
