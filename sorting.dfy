/**
 Sorting a table's rows by a caller-chosen order, as `sort_values` does. The
 order is given as a relation `before(a, b)` ("a may come before b") that is
 total and transitive. Rows the relation ranks equally may appear in either
 order: the contracts fix the key order only, not the order of ties.
 */
module Sorting {
  import opened Tally

  ghost predicate TotalPreorder<T(!new)>(before: (T, T) -> bool)
  {
    && (forall a, b :: before(a, b) || before(b, a))
    && (forall a, b, c :: before(a, b) && before(b, c) ==> before(a, c))
  }

  predicate SortedBy<T>(s: seq<T>, before: (T, T) -> bool)
  {
    forall i, j :: 0 <= i < j < |s| ==> before(s[i], s[j])
  }

  /** Inserts `x` into a sorted list, in front of the first element it may precede. */
  function InsertBy<T(==,!new)>(x: T, s: seq<T>, before: (T, T) -> bool): (r: seq<T>)
    requires TotalPreorder(before)
    requires SortedBy(s, before)
    ensures |r| == |s| + 1
    ensures SortedBy(r, before)
    ensures multiset(r) == multiset(s) + multiset{x}
    ensures forall y :: y in r <==> y == x || y in s
    ensures NoDup(s) && x !in s ==> NoDup(r)
  {
    if s == [] || before(x, s[0]) then
      PrependSorted(x, s, before);
      [x] + s
    else
      var rest := InsertBy(x, s[1..], before);
      assert s == [s[0]] + s[1..];
      assert before(s[0], rest[0]) by {
        assert rest[0] in rest;
        if rest[0] != x {
          var k :| 0 <= k < |s[1..]| && s[1..][k] == rest[0];
          assert s[k + 1] == rest[0];
        }
      }
      PrependSorted(s[0], rest, before);
      assert NoDup(s) && x !in s ==> NoDup([s[0]] + rest) by {
        if NoDup(s) && x !in s {
          PrependNoDup(s[0], rest);
        }
      }
      [s[0]] + rest
  }

  lemma PrependNoDup<T>(y: T, s: seq<T>)
    requires NoDup(s) && y !in s
    ensures NoDup([y] + s)
  {
    var r := [y] + s;
    forall i, j | 0 <= i < j < |r| ensures r[i] != r[j] {
      if i == 0 {
        assert r[j] == s[j - 1];
      }
    }
  }

  /** An element that may precede the head of a sorted list may precede all of it. */
  lemma PrependSorted<T(!new)>(x: T, s: seq<T>, before: (T, T) -> bool)
    requires TotalPreorder(before)
    requires SortedBy(s, before)
    requires s == [] || before(x, s[0])
    ensures SortedBy([x] + s, before)
  {
    var r := [x] + s;
    forall i, j | 0 <= i < j < |r| ensures before(r[i], r[j]) {
      if i == 0 && j > 1 {
        assert before(s[0], s[j - 1]);
      }
    }
  }

  /** The rows of `xs` rearranged so that each row may come before every later one. */
  function SortBy<T(==,!new)>(xs: seq<T>, before: (T, T) -> bool): (r: seq<T>)
    requires TotalPreorder(before)
    ensures |r| == |xs|
    ensures SortedBy(r, before)
    ensures multiset(r) == multiset(xs)
    ensures forall y :: y in r <==> y in xs
    ensures NoDup(xs) ==> NoDup(r)
  {
    if xs == [] then []
    else
      assert xs == [xs[0]] + xs[1..];
      InsertBy(xs[0], SortBy(xs[1..], before), before)
  }
}
