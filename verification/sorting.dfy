/** Stable sorting under a comparator, as `Array.prototype.sort` does it
    (the ECMAScript specification has required a stable sort since 2019).
    A comparator `cmp(a, b)` of the source becomes the relation
    `le(a, b) := cmp(a, b) <= 0`, "a may come before b". */
module Sorting {
  import opened Common

  /** `le` is total and transitive: what a consistent comparator gives. */
  ghost predicate TotalPreorder<T(!new)>(le: (T, T) -> bool) {
    && (forall a, b :: le(a, b) || le(b, a))
    && (forall a, b, c :: le(a, b) && le(b, c) ==> le(a, c))
  }

  /** Every element may come before every later one. */
  ghost predicate Sorted<T>(s: seq<T>, le: (T, T) -> bool) {
    forall i, j :: 0 <= i < j < |s| ==> le(s[i], s[j])
  }

  /** Elements that compare equal to `e` (the comparator returns 0). */
  function EquivTo<T>(le: (T, T) -> bool, e: T): T -> bool {
    y => le(e, y) && le(y, e)
  }

  /** Putting in front an element that may precede every element keeps a
      sequence sorted. */
  lemma SortedCons<T>(h: T, t: seq<T>, le: (T, T) -> bool)
    requires Sorted(t, le)
    requires forall i :: 0 <= i < |t| ==> le(h, t[i])
    ensures Sorted([h] + t, le)
  {
    var r := [h] + t;
    forall i, j | 0 <= i < j < |r|
      ensures le(r[i], r[j])
    {
      assert r[j] == t[j - 1];
      if i > 0 {
        assert r[i] == t[i - 1];
      }
    }
  }

  /** The tail of a sorted sequence is sorted, and its head may precede
      every element of the tail. */
  lemma SortedTail<T>(s: seq<T>, le: (T, T) -> bool)
    requires Sorted(s, le) && |s| > 0
    ensures Sorted(s[1..], le)
    ensures forall i :: 0 <= i < |s| - 1 ==> le(s[0], s[1..][i])
  {
    var t := s[1..];
    forall i, j | 0 <= i < j < |t|
      ensures le(t[i], t[j])
    {
      assert t[i] == s[i + 1] && t[j] == s[j + 1];
    }
    forall i | 0 <= i < |t|
      ensures le(s[0], t[i])
    {
      assert t[i] == s[i + 1];
    }
  }

  /** Inserts `x` in front of the first element it may precede. */
  function Insert<T(!new)>(x: T, s: seq<T>, le: (T, T) -> bool): (r: seq<T>)
    requires TotalPreorder(le)
    requires Sorted(s, le)
    ensures multiset(r) == multiset(s) + multiset{x}
    ensures |r| == |s| + 1
    ensures Sorted(r, le)
  {
    if |s| == 0 then [x]
    else if le(x, s[0]) then
      SortedCons(x, s, le);
      [x] + s
    else
      SortedTail(s, le);
      var rest := Insert(x, s[1..], le);
      assert s == [s[0]] + s[1..];
      InsertBound(x, s, le, rest);
      SortedCons(s[0], rest, le);
      [s[0]] + rest
  }

  /** The head of `s` may precede every element of `rest` when `rest` holds
      the tail of `s` and an element the head may precede. */
  lemma InsertBound<T(!new)>(x: T, s: seq<T>, le: (T, T) -> bool, rest: seq<T>)
    requires TotalPreorder(le)
    requires Sorted(s, le) && |s| > 0 && !le(x, s[0])
    requires multiset(rest) == multiset(s[1..]) + multiset{x}
    ensures forall i :: 0 <= i < |rest| ==> le(s[0], rest[i])
  {
    SortedTail(s, le);
    forall i | 0 <= i < |rest|
      ensures le(s[0], rest[i])
    {
      assert rest[i] in multiset(rest);
      if rest[i] != x {
        assert rest[i] in multiset(s[1..]);
        var k :| 0 <= k < |s[1..]| && s[1..][k] == rest[i];
      }
    }
  }

  /** Insertion sort: sorts the tail, then inserts the head. Because the head
      goes in front of every element equal to it, the sort is stable. */
  function Sort<T(!new)>(s: seq<T>, le: (T, T) -> bool): (r: seq<T>)
    requires TotalPreorder(le)
    ensures |r| == |s|
    ensures multiset(r) == multiset(s)
    ensures Sorted(r, le)
  {
    if |s| == 0 then []
    else
      assert s == [s[0]] + s[1..];
      Insert(s[0], Sort(s[1..], le), le)
  }

  /** Inserting `x` keeps the order of every class of equal elements, and puts
      `x` first in its own class. */
  lemma {:induction false} InsertKeepsClasses<T(!new)>(x: T, s: seq<T>, le: (T, T) -> bool, e: T)
    requires TotalPreorder(le)
    requires Sorted(s, le)
    ensures Filter(Insert(x, s, le), EquivTo(le, e))
         == if EquivTo(le, e)(x) then [x] + Filter(s, EquivTo(le, e)) else Filter(s, EquivTo(le, e))
  {
    var p := EquivTo(le, e);
    if |s| == 0 {
    } else if le(x, s[0]) {
      assert Insert(x, s, le) == [x] + s;
    } else {
      InsertKeepsClasses(x, s[1..], le, e);
      assert Insert(x, s, le) == [s[0]] + Insert(x, s[1..], le);
      if p(x) {
        assert !p(s[0]);
      }
    }
  }

  /** Stability: within every class of equal elements, the sorted sequence
      keeps the input order. */
  lemma {:induction false} SortStable<T(!new)>(s: seq<T>, le: (T, T) -> bool, e: T)
    requires TotalPreorder(le)
    ensures Filter(Sort(s, le), EquivTo(le, e)) == Filter(s, EquivTo(le, e))
  {
    if |s| > 0 {
      SortStable(s[1..], le, e);
      InsertKeepsClasses(s[0], Sort(s[1..], le), le, e);
    }
  }

  /** A sequence that is already sorted comes back unchanged. */
  lemma {:induction false} SortSorted<T(!new)>(s: seq<T>, le: (T, T) -> bool)
    requires TotalPreorder(le)
    requires Sorted(s, le)
    ensures Sort(s, le) == s
  {
    if |s| > 0 {
      var t := s[1..];
      SortedTail(s, le);
      SortSorted(t, le);
      if |t| > 0 {
        assert le(s[0], t[0]);
      }
      assert Insert(s[0], t, le) == [s[0]] + t;
      assert s == [s[0]] + t;
    }
  }
}
