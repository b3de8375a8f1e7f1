/**
 Python's `sorted`: a stable sort by a key. When no two different elements share a key, the
 result depends only on which elements there are, not on the order they came in.
 */
module Sorting {

  ghost predicate Ordering<T(!new)>(le: (T, T) -> bool) {
    && (forall x, y :: le(x, y) || le(y, x))
    && (forall x, y, z :: le(x, y) && le(y, z) ==> le(x, z))
  }

  ghost predicate Ascending<T>(s: seq<T>, le: (T, T) -> bool) {
    forall i, j :: 0 <= i < j < |s| ==> le(s[i], s[j])
  }

  /** No two different elements of `s` tie. */
  ghost predicate Strict<T>(s: seq<T>, le: (T, T) -> bool) {
    forall x, y :: x in s && y in s && le(x, y) && le(y, x) ==> x == y
  }

  function Insert<T>(x: T, s: seq<T>, le: (T, T) -> bool): seq<T> {
    if s == [] || le(x, s[0]) then [x] + s else [s[0]] + Insert(x, s[1..], le)
  }

  function Sorted<T>(s: seq<T>, le: (T, T) -> bool): seq<T> {
    if s == [] then [] else Insert(s[0], Sorted(s[1..], le), le)
  }

  lemma {:induction false} InsertKeeps<T>(x: T, s: seq<T>, le: (T, T) -> bool)
    ensures multiset(Insert(x, s, le)) == multiset([x]) + multiset(s)
  {
    if !(s == [] || le(x, s[0])) {
      InsertKeeps(x, s[1..], le);
      assert s == [s[0]] + s[1..];
    }
  }

  lemma {:induction false} SortedKeeps<T>(s: seq<T>, le: (T, T) -> bool)
    ensures multiset(Sorted(s, le)) == multiset(s)
  {
    if s != [] {
      SortedKeeps(s[1..], le);
      InsertKeeps(s[0], Sorted(s[1..], le), le);
      assert s == [s[0]] + s[1..];
    }
  }

  lemma SameElements<T>(a: seq<T>, b: seq<T>)
    requires multiset(a) == multiset(b)
    ensures |a| == |b| && forall x :: x in a <==> x in b
  {
    assert |multiset(a)| == |a| && |multiset(b)| == |b|;
    forall x ensures x in a <==> x in b {
      assert x in a <==> x in multiset(a);
      assert x in b <==> x in multiset(b);
    }
  }

  lemma ConsAscends<T>(h: T, t: seq<T>, le: (T, T) -> bool)
    requires Ascending(t, le) && forall y :: y in t ==> le(h, y)
    ensures Ascending([h] + t, le)
  {
  }

  lemma {:induction false} InsertAscends<T(!new)>(x: T, s: seq<T>, le: (T, T) -> bool)
    requires Ordering(le) && Ascending(s, le)
    ensures Ascending(Insert(x, s, le), le)
  {
    if !(s == [] || le(x, s[0])) {
      InsertAscends(x, s[1..], le);
      InsertKeeps(x, s[1..], le);
      var t := Insert(x, s[1..], le);
      SameElements(t, [x] + s[1..]);
      forall y | y in t ensures le(s[0], y) {
        assert y in [x] + s[1..];
      }
      ConsAscends(s[0], t, le);
    }
  }

  lemma {:induction false} SortedAscends<T(!new)>(s: seq<T>, le: (T, T) -> bool)
    requires Ordering(le)
    ensures Ascending(Sorted(s, le), le)
  {
    if s != [] {
      SortedAscends(s[1..], le);
      InsertAscends(s[0], Sorted(s[1..], le), le);
    }
  }

  lemma SameTails<T>(a: seq<T>, b: seq<T>)
    requires multiset(a) == multiset(b) && a != [] && b != [] && a[0] == b[0]
    ensures multiset(a[1..]) == multiset(b[1..])
  {
    assert a == [a[0]] + a[1..] && b == [b[0]] + b[1..];
    assert multiset(a[1..]) == multiset(a) - multiset([a[0]]);
    assert multiset(b[1..]) == multiset(b) - multiset([b[0]]);
  }

  lemma {:induction false} AscendingIsUnique<T>(a: seq<T>, b: seq<T>, le: (T, T) -> bool)
    requires multiset(a) == multiset(b)
    requires Ascending(a, le) && Ascending(b, le) && Strict(a, le)
    requires forall x :: x in a ==> le(x, x)
    ensures a == b
    decreases |a|
  {
    SameElements(a, b);
    if a != [] {
      assert a[0] in b && b[0] in a;
      assert le(a[0], b[0]) && le(b[0], a[0]);
      SameTails(a, b);
      AscendingIsUnique(a[1..], b[1..], le);
      assert a == [a[0]] + a[1..] && b == [b[0]] + b[1..];
    }
  }

  /** Sorting forgets the input order exactly where ties are between equal elements. */
  lemma SortForgetsOrder<T(!new)>(a: seq<T>, b: seq<T>, le: (T, T) -> bool)
    requires Ordering(le) && multiset(a) == multiset(b) && Strict(a, le)
    ensures Sorted(a, le) == Sorted(b, le)
  {
    SortedKeeps(a, le);
    SortedKeeps(b, le);
    SortedAscends(a, le);
    SortedAscends(b, le);
    SameElements(a, Sorted(a, le));
    AscendingIsUnique(Sorted(a, le), Sorted(b, le), le);
  }

  /** A list already in order, without ties between different elements, is its own sort. */
  lemma AscendingIsSorted<T(!new)>(a: seq<T>, b: seq<T>, le: (T, T) -> bool)
    requires Ordering(le) && multiset(a) == multiset(b) && Ascending(b, le) && Strict(a, le)
    ensures Sorted(a, le) == b
  {
    SortedKeeps(a, le);
    SortedAscends(a, le);
    SameElements(a, Sorted(a, le));
    AscendingIsUnique(Sorted(a, le), b, le);
  }
}
