/**
 * The sort behind `Array.prototype.sort(compare)`, as an insertion sort
 * that takes the elements from first to last and inserts each one in
 * front of the first element it must precede. `prec(a, b)` holds
 * when `a` must come strictly before `b` (the comparator is negative for
 * `(a, b)`). What is proved: the result is a permutation, it is in order
 * under a strict order, and a list already in order comes back unchanged.
 */
module Sorting {

  /** `prec` is a strict order: irreflexive and transitive. */
  ghost predicate StrictOrder<T(!new)>(prec: (T, T) -> bool) {
    && (forall a :: !prec(a, a))
    && (forall a, b, c :: prec(a, b) && prec(b, c) ==> prec(a, c))
  }

  /** No element is placed after one that must precede it. */
  predicate SortedBy<T>(s: seq<T>, prec: (T, T) -> bool) {
    forall i, j :: 0 <= i < j < |s| ==> !prec(s[j], s[i])
  }

  /** Puts `x` in front of the first element it must precede. */
  function Insert<T>(s: seq<T>, x: T, prec: (T, T) -> bool): (r: seq<T>)
    ensures multiset(r) == multiset(s) + multiset{x}
    ensures |r| == |s| + 1
  {
    if s == [] || prec(x, s[0]) then [x] + s
    else
      assert s == [s[0]] + s[1..];
      [s[0]] + Insert(s[1..], x, prec)
  }

  /** Insertion sort, taking the elements from first to last. */
  function SortBy<T>(s: seq<T>, prec: (T, T) -> bool): (r: seq<T>)
    ensures multiset(r) == multiset(s)
    ensures |r| == |s|
  {
    if s == [] then []
    else
      assert s == s[..|s| - 1] + [s[|s| - 1]];
      Insert(SortBy(s[..|s| - 1], prec), s[|s| - 1], prec)
  }

  lemma {:induction false} InsertSorted<T(!new)>(s: seq<T>, x: T, prec: (T, T) -> bool)
    requires StrictOrder(prec) && SortedBy(s, prec)
    ensures SortedBy(Insert(s, x, prec), prec)
  {
    if s == [] || prec(x, s[0]) {
      var r := [x] + s;
      forall i, j | 0 <= i < j < |r|
        ensures !prec(r[j], r[i])
      {
        if i == 0 {
          assert j - 1 == 0 || !prec(s[j - 1], s[0]);
        }
      }
    } else {
      var rest := Insert(s[1..], x, prec);
      InsertSorted(s[1..], x, prec);
      var r := [s[0]] + rest;
      forall i, j | 0 <= i < j < |r|
        ensures !prec(r[j], r[i])
      {
        if i == 0 {
          assert r[j] in multiset(rest);
          assert r[j] in multiset(s[1..]) || r[j] == x;
          if r[j] != x {
            var k :| 0 <= k < |s[1..]| && s[1..][k] == r[j];
            assert s[k + 1] == r[j];
          }
        }
      }
    }
  }

  /** The sort's result is in order. */
  lemma {:induction false} SortBySorted<T(!new)>(s: seq<T>, prec: (T, T) -> bool)
    requires StrictOrder(prec)
    ensures SortedBy(SortBy(s, prec), prec)
  {
    if s != [] {
      SortBySorted(s[..|s| - 1], prec);
      InsertSorted(SortBy(s[..|s| - 1], prec), s[|s| - 1], prec);
    }
  }

  /** An element that precedes nothing in `s` is appended at the end. */
  lemma {:induction false} InsertAtEnd<T>(s: seq<T>, x: T, prec: (T, T) -> bool)
    requires forall i :: 0 <= i < |s| ==> !prec(x, s[i])
    ensures Insert(s, x, prec) == s + [x]
  {
    if s != [] {
      InsertAtEnd(s[1..], x, prec);
      assert [s[0]] + (s[1..] + [x]) == s + [x];
    }
  }

  /** Sorting a list that is already in order leaves it exactly as it is. */
  lemma {:induction false} SortByKeepsSorted<T>(s: seq<T>, prec: (T, T) -> bool)
    requires SortedBy(s, prec)
    ensures SortBy(s, prec) == s
  {
    if s != [] {
      var init, last := s[..|s| - 1], s[|s| - 1];
      assert SortedBy(init, prec) by {
        forall i, j | 0 <= i < j < |init|
          ensures !prec(init[j], init[i])
        {
          assert init[i] == s[i] && init[j] == s[j];
        }
      }
      forall i | 0 <= i < |init|
        ensures !prec(last, init[i])
      {
        assert init[i] == s[i];
      }
      SortByKeepsSorted(init, prec);
      InsertAtEnd(init, last, prec);
      assert init + [last] == s;
    }
  }
}
