/** `ORDER BY` over a table scan: a stable insertion sort by a caller-chosen order.
    SQLite leaves the order of rows that compare equal unspecified; the model keeps them
    in scan (rowid) order. */
module Sorting {

  ghost predicate TotalPreorder<T(!new)>(le: (T, T) -> bool) {
    && (forall a, b :: le(a, b) || le(b, a))
    && (forall a, b, c :: le(a, b) && le(b, c) ==> le(a, c))
  }

  ghost predicate SortedBy<T>(s: seq<T>, le: (T, T) -> bool) {
    forall i, j :: 0 <= i < j < |s| ==> le(s[i], s[j])
  }

  function Insert<T>(x: T, s: seq<T>, le: (T, T) -> bool): seq<T> {
    if s == [] then [x]
    else if le(x, s[0]) then [x] + s
    else [s[0]] + Insert(x, s[1..], le)
  }

  function SortBy<T>(s: seq<T>, le: (T, T) -> bool): seq<T> {
    if s == [] then [] else Insert(s[0], SortBy(s[1..], le), le)
  }

  lemma {:induction false} InsertPermutes<T>(x: T, s: seq<T>, le: (T, T) -> bool)
    ensures multiset(Insert(x, s, le)) == multiset(s) + multiset{x}
  {
    if s != [] && !le(x, s[0]) {
      InsertPermutes(x, s[1..], le);
      assert s == [s[0]] + s[1..];
    }
  }

  /** A row ordered before every row of a sorted sequence can go in front of it. */
  lemma ConsSorted<T>(y: T, t: seq<T>, le: (T, T) -> bool)
    requires SortedBy(t, le) && forall k :: 0 <= k < |t| ==> le(y, t[k])
    ensures SortedBy([y] + t, le)
  {
    var r := [y] + t;
    forall i, j | 0 <= i < j < |r| ensures le(r[i], r[j]) {
      assert r[j] == t[j - 1];
      if i > 0 {
        assert r[i] == t[i - 1];
      }
    }
  }

  /** The row `Insert` passes over is ordered before everything the inserted tail holds. */
  lemma InsertTailAbove<T(!new)>(x: T, s: seq<T>, le: (T, T) -> bool)
    requires TotalPreorder(le) && SortedBy(s, le) && s != [] && !le(x, s[0])
    ensures forall k :: 0 <= k < |Insert(x, s[1..], le)| ==> le(s[0], Insert(x, s[1..], le)[k])
  {
    var tail := Insert(x, s[1..], le);
    InsertPermutes(x, s[1..], le);
    forall k | 0 <= k < |tail| ensures le(s[0], tail[k]) {
      var y := tail[k];
      assert y in multiset(tail);
      assert y == x || y in multiset(s[1..]);
      if y != x {
        var m :| 1 <= m < |s| && s[m] == y;
      }
    }
  }

  lemma {:induction false} InsertSorted<T(!new)>(x: T, s: seq<T>, le: (T, T) -> bool)
    requires TotalPreorder(le) && SortedBy(s, le)
    ensures SortedBy(Insert(x, s, le), le)
  {
    if s == [] {
    } else if le(x, s[0]) {
      assert forall k :: 0 <= k < |s| ==> le(x, s[k]);
      ConsSorted(x, s, le);
    } else {
      InsertSorted(x, s[1..], le);
      InsertTailAbove(x, s, le);
      ConsSorted(s[0], Insert(x, s[1..], le), le);
    }
  }

  /** Sorting rearranges the rows without adding or dropping any. */
  lemma {:induction false} SortByPermutes<T>(s: seq<T>, le: (T, T) -> bool)
    ensures multiset(SortBy(s, le)) == multiset(s)
    ensures |SortBy(s, le)| == |s|
  {
    if s != [] {
      SortByPermutes(s[1..], le);
      InsertPermutes(s[0], SortBy(s[1..], le), le);
      assert s == [s[0]] + s[1..];
    }
  }

  /** Sorting by a total preorder yields rows in that order. */
  lemma {:induction false} SortBySorted<T(!new)>(s: seq<T>, le: (T, T) -> bool)
    requires TotalPreorder(le)
    ensures SortedBy(SortBy(s, le), le)
  {
    if s != [] {
      SortBySorted(s[1..], le);
      InsertSorted(s[0], SortBy(s[1..], le), le);
    }
  }
  /** `rows.map(f)` */
  function Map<T, U>(s: seq<T>, f: T -> U): (r: seq<U>)
    ensures |r| == |s| && forall i :: 0 <= i < |s| ==> r[i] == f(s[i])
  {
    seq(|s|, i requires 0 <= i < |s| => f(s[i]))
  }

  lemma MapCons<T, U>(y: T, t: seq<T>, f: T -> U)
    ensures Map([y] + t, f) == [f(y)] + Map(t, f)
  {
    var a, b := Map([y] + t, f), [f(y)] + Map(t, f);
    forall i | 0 <= i < |a| ensures a[i] == b[i] {
      if i > 0 {
        assert ([y] + t)[i] == t[i - 1];
      }
    }
    assert a == b;
  }

  lemma {:induction false} InsertMapPermutes<T, U>(x: T, s: seq<T>, le: (T, T) -> bool, f: T -> U)
    ensures multiset(Map(Insert(x, s, le), f)) == multiset(Map(s, f)) + multiset{f(x)}
  {
    if s == [] {
      assert Map([x], f) == [f(x)];
    } else if le(x, s[0]) {
      MapCons(x, s, f);
    } else {
      InsertMapPermutes(x, s[1..], le, f);
      MapCons(s[0], Insert(x, s[1..], le), f);
      MapCons(s[0], s[1..], f);
      assert s == [s[0]] + s[1..];
    }
  }

  /** Whatever is read off each row, sorting rearranges those readings and no more. */
  lemma {:induction false} SortByMapPermutes<T, U>(s: seq<T>, le: (T, T) -> bool, f: T -> U)
    ensures multiset(Map(SortBy(s, le), f)) == multiset(Map(s, f))
  {
    if s == [] {
      assert Map(s, f) == [];
    } else {
      SortByMapPermutes(s[1..], le, f);
      InsertMapPermutes(s[0], SortBy(s[1..], le), le, f);
      assert Map(s, f) == [f(s[0])] + Map(s[1..], f);
    }
  }
}
