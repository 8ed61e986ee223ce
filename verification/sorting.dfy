/**
 * Python's `list.sort` / `sorted`: a stable sort. It is modelled as insertion
 * sort under a total preorder `before` ("may come first"); equivalent elements
 * keep the order they had in the input.
 */
module Sorting {
  import opened Common

  ghost predicate TotalPreorder<T(!new)>(before: (T, T) -> bool)
  {
    && (forall a, b :: before(a, b) || before(b, a))
    && (forall a, b, c :: before(a, b) && before(b, c) ==> before(a, c))
  }

  predicate Sorted<T>(s: seq<T>, before: (T, T) -> bool)
  {
    forall i, j :: 0 <= i < j < |s| ==> before(s[i], s[j])
  }

  /** Places `x` after every element of `s` that may come before it. */
  function Insert<T>(x: T, s: seq<T>, before: (T, T) -> bool): (r: seq<T>)
    ensures |r| == |s| + 1
  {
    if s == [] then [x]
    else if before(s[0], x) then [s[0]] + Insert(x, s[1..], before)
    else [x] + s
  }

  /** Insertion of the elements in their input order. */
  function SortStable<T>(s: seq<T>, before: (T, T) -> bool): (r: seq<T>)
    ensures |r| == |s|
  {
    if s == [] then [] else Insert(s[|s| - 1], SortStable(s[..|s| - 1], before), before)
  }

  /** The elements `before` cannot tell apart from `c`. */
  function EquivalentTo<T>(before: (T, T) -> bool, c: T): T -> bool
  {
    (y: T) => before(y, c) && before(c, y)
  }

  lemma {:induction false} InsertMultiset<T>(x: T, s: seq<T>, before: (T, T) -> bool)
    ensures multiset(Insert(x, s, before)) == multiset(s) + multiset{x}
  {
    if s != [] {
      assert s == [s[0]] + s[1..];
      if before(s[0], x) {
        InsertMultiset(x, s[1..], before);
      }
    }
  }

  lemma {:induction false} InsertSorted<T(!new)>(x: T, s: seq<T>, before: (T, T) -> bool)
    requires TotalPreorder(before)
    requires Sorted(s, before)
    ensures Sorted(Insert(x, s, before), before)
  {
    if s != [] {
      var r := Insert(x, s, before);
      if before(s[0], x) {
        var t := Insert(x, s[1..], before);
        InsertSorted(x, s[1..], before);
        InsertMultiset(x, s[1..], before);
        assert s == [s[0]] + s[1..];
        forall j | 0 <= j < |t|
          ensures before(s[0], t[j])
        {
          assert t[j] in multiset(t);
          assert t[j] == x || t[j] in multiset(s[1..]);
          if t[j] != x {
            var m :| 0 <= m < |s[1..]| && s[1..][m] == t[j];
            assert s[m + 1] == t[j];
          }
        }
        assert r == [s[0]] + t;
        forall i, j | 0 <= i < j < |r|
          ensures before(r[i], r[j])
        {
          if i > 0 {
            assert r[i] == t[i - 1] && r[j] == t[j - 1];
          }
        }
      } else {
        assert before(x, s[0]);
        forall i, j | 0 <= i < j < |r|
          ensures before(r[i], r[j])
        {
          if i == 0 {
            assert r[j] == s[j - 1];
            if j > 1 {
              assert before(s[0], s[j - 1]);
            }
          } else {
            assert r[i] == s[i - 1] && r[j] == s[j - 1];
          }
        }
      }
    }
  }

  /** The result is ordered by `before`. */
  lemma {:induction false} SortStableSorted<T(!new)>(s: seq<T>, before: (T, T) -> bool)
    requires TotalPreorder(before)
    ensures Sorted(SortStable(s, before), before)
  {
    if s != [] {
      SortStableSorted(s[..|s| - 1], before);
      InsertSorted(s[|s| - 1], SortStable(s[..|s| - 1], before), before);
    }
  }

  /** The result is a permutation of the input. */
  lemma {:induction false} SortStablePermutation<T>(s: seq<T>, before: (T, T) -> bool)
    ensures multiset(SortStable(s, before)) == multiset(s)
  {
    if s != [] {
      SortStablePermutation(s[..|s| - 1], before);
      InsertMultiset(s[|s| - 1], SortStable(s[..|s| - 1], before), before);
      assert s == s[..|s| - 1] + [s[|s| - 1]];
    }
  }

  lemma FilterNone<T>(s: seq<T>, p: T -> bool)
    requires forall i :: 0 <= i < |s| ==> !p(s[i])
    ensures Filter(s, p) == []
  {
    if s != [] {
      FilterNone(s[..|s| - 1], p);
    }
  }

  /** If `x` cannot go after the head of a sorted `s`, nothing in `s` is equivalent to `x`. */
  lemma NothingEquivalentBehind<T(!new)>(x: T, s: seq<T>, before: (T, T) -> bool, c: T)
    requires TotalPreorder(before)
    requires Sorted(s, before)
    requires s != [] && !before(s[0], x)
    requires EquivalentTo(before, c)(x)
    ensures forall i :: 0 <= i < |s| ==> !EquivalentTo(before, c)(s[i])
  {
    forall i | 0 <= i < |s|
      ensures !(before(s[i], c) && before(c, s[i]))
    {
      if i > 0 {
        assert before(s[0], s[i]);
      }
    }
  }

  lemma {:induction false} InsertStable<T(!new)>(x: T, s: seq<T>, before: (T, T) -> bool, c: T)
    requires TotalPreorder(before)
    requires Sorted(s, before)
    ensures var e := EquivalentTo(before, c);
      Filter(Insert(x, s, before), e) == Filter(s, e) + (if e(x) then [x] else [])
  {
    var e := EquivalentTo(before, c);
    if s == [] {
      assert Insert(x, s, before) == [] + [x];
      FilterAppend([], [x], e);
    } else if before(s[0], x) {
      InsertStable(x, s[1..], before, c);
      InsertStableStep(x, s, before, e);
    } else {
      assert Insert(x, s, before) == [x] + s;
      FilterAppend([x], s, e);
      if e(x) {
        NothingEquivalentBehind(x, s, before, c);
        FilterNone(s, e);
      }
    }
  }

  lemma InsertStableStep<T>(x: T, s: seq<T>, before: (T, T) -> bool, e: T -> bool)
    requires s != [] && before(s[0], x)
    requires Filter(Insert(x, s[1..], before), e) == Filter(s[1..], e) + (if e(x) then [x] else [])
    ensures Filter(Insert(x, s, before), e) == Filter(s, e) + (if e(x) then [x] else [])
  {
    var head, tail := [s[0]], s[1..];
    var extra := if e(x) then [x] else [];
    var t := Insert(x, tail, before);
    assert s == head + tail;
    assert Insert(x, s, before) == head + t;
    FilterAppend(head, tail, e);
    FilterAppend(head, t, e);
    assert Filter(head, e) + (Filter(tail, e) + extra) == (Filter(head, e) + Filter(tail, e)) + extra;
  }

  /**
   * Stability: for every class of equivalent elements, the elements of that
   * class appear in the output in exactly their input order.
   */
  lemma {:induction false} SortStableKeepsTieOrder<T(!new)>(s: seq<T>, before: (T, T) -> bool, c: T)
    requires TotalPreorder(before)
    ensures Filter(SortStable(s, before), EquivalentTo(before, c)) == Filter(s, EquivalentTo(before, c))
  {
    if s != [] {
      var init := s[..|s| - 1];
      SortStableKeepsTieOrder(init, before, c);
      SortStableSorted(init, before);
      InsertStable(s[|s| - 1], SortStable(init, before), before, c);
    }
  }
}
