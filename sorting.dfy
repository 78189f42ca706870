/** Python's `list.sort(key=...)`: a stable sort. A stable sort by a total preorder has exactly
    one possible result, so a stable insertion sort describes the result of the built-in sort. */
module Sorting {

  ghost predicate TotalPreorder<T(!new)>(le: (T, T) -> bool) {
    && (forall a, b :: le(a, b) || le(b, a))
    && (forall a, b, c :: le(a, b) && le(b, c) ==> le(a, c))
  }

  predicate SortedBy<T>(s: seq<T>, le: (T, T) -> bool) {
    forall i, j :: 0 <= i < j < |s| ==> le(s[i], s[j])
  }

  /** `x` goes in front of the first element it is not greater than. */
  function InsertBy<T>(x: T, s: seq<T>, le: (T, T) -> bool): seq<T> {
    if s == [] || le(x, s[0]) then [x] + s else [s[0]] + InsertBy(x, s[1..], le)
  }

  function SortBy<T>(s: seq<T>, le: (T, T) -> bool): seq<T> {
    if s == [] then [] else InsertBy(s[0], SortBy(s[1..], le), le)
  }

  /** The elements of `s` that are equivalent to `y` under `le`, in their order in `s`. */
  function Ties<T>(s: seq<T>, y: T, le: (T, T) -> bool): seq<T> {
    if s == [] then []
    else (if le(s[0], y) && le(y, s[0]) then [s[0]] else []) + Ties(s[1..], y, le)
  }

  lemma {:induction false} InsertByPermutes<T>(x: T, s: seq<T>, le: (T, T) -> bool)
    ensures multiset(InsertBy(x, s, le)) == multiset(s) + multiset{x}
  {
    if s != [] && !le(x, s[0]) {
      InsertByPermutes(x, s[1..], le);
      assert s == [s[0]] + s[1..];
    }
  }

  lemma {:induction false} SortByPermutes<T>(s: seq<T>, le: (T, T) -> bool)
    ensures multiset(SortBy(s, le)) == multiset(s)
    ensures |SortBy(s, le)| == |s|
  {
    if s != [] {
      SortByPermutes(s[1..], le);
      InsertByPermutes(s[0], SortBy(s[1..], le), le);
      assert s == [s[0]] + s[1..];
    }
  }

  lemma {:induction false} InsertBySorted<T(!new)>(x: T, s: seq<T>, le: (T, T) -> bool)
    requires TotalPreorder(le)
    requires SortedBy(s, le)
    ensures SortedBy(InsertBy(x, s, le), le)
  {
    if s != [] && !le(x, s[0]) {
      InsertBySorted(x, s[1..], le);
      InsertByPermutes(x, s[1..], le);
      var t := InsertBy(x, s[1..], le);
      forall j | 0 <= j < |t|
        ensures le(s[0], t[j])
      {
        assert t[j] in multiset(t);
        assert t[j] == x || t[j] in multiset(s[1..]);
      }
    }
  }

  lemma {:induction false} SortBySorted<T(!new)>(s: seq<T>, le: (T, T) -> bool)
    requires TotalPreorder(le)
    ensures SortedBy(SortBy(s, le), le)
  {
    if s != [] {
      SortBySorted(s[1..], le);
      InsertBySorted(s[0], SortBy(s[1..], le), le);
    }
  }

  lemma {:induction false} TiesAppend<T>(a: seq<T>, b: seq<T>, y: T, le: (T, T) -> bool)
    ensures Ties(a + b, y, le) == Ties(a, y, le) + Ties(b, y, le)
  {
    if a != [] {
      TiesAppend(a[1..], b, y, le);
      assert (a + b)[1..] == a[1..] + b;
    } else {
      assert a + b == b;
    }
  }

  lemma {:induction false} InsertByTies<T(!new)>(x: T, s: seq<T>, y: T, le: (T, T) -> bool)
    requires TotalPreorder(le)
    ensures Ties(InsertBy(x, s, le), y, le) == Ties([x], y, le) + Ties(s, y, le)
  {
    if s == [] || le(x, s[0]) {
      TiesAppend([x], s, y, le);
    } else {
      InsertByTies(x, s[1..], y, le);
      TiesAppend([s[0]], InsertBy(x, s[1..], le), y, le);
      TiesAppend([s[0]], s[1..], y, le);
      assert s == [s[0]] + s[1..];
      // s[0] is strictly below x, so the two cannot both be equivalent to y
      assert Ties([s[0]], y, le) == [] || Ties([x], y, le) == [];
    }
  }

  /** Stability: among equivalent elements the sorted order is the input order. */
  lemma {:induction false} SortByStable<T(!new)>(s: seq<T>, y: T, le: (T, T) -> bool)
    requires TotalPreorder(le)
    ensures Ties(SortBy(s, le), y, le) == Ties(s, y, le)
  {
    if s != [] {
      SortByStable(s[1..], y, le);
      InsertByTies(s[0], SortBy(s[1..], le), y, le);
      TiesAppend([s[0]], s[1..], y, le);
      assert s == [s[0]] + s[1..];
    }
  }

  /** No two elements share a key. */
  predicate DistinctBy<T, K(==)>(s: seq<T>, key: T -> K) {
    forall i, j :: 0 <= i < j < |s| ==> key(s[i]) != key(s[j])
  }

  lemma {:induction false} InsertByDistinct<T, K>(x: T, s: seq<T>, le: (T, T) -> bool, key: T -> K)
    requires DistinctBy(s, key)
    requires forall y :: y in s ==> key(y) != key(x)
    ensures DistinctBy(InsertBy(x, s, le), key)
  {
    if s != [] && !le(x, s[0]) {
      InsertByDistinct(x, s[1..], le, key);
      InsertByPermutes(x, s[1..], le);
      var t := InsertBy(x, s[1..], le);
      forall j | 0 <= j < |t|
        ensures key(s[0]) != key(t[j])
      {
        assert t[j] in multiset(t);
        if t[j] != x {
          assert t[j] in s[1..];
          var m :| 0 <= m < |s[1..]| && s[1..][m] == t[j];
          assert s[m + 1] == t[j];
        }
      }
    }
  }

  /** Sorting keeps keys distinct. */
  lemma {:induction false} SortByDistinct<T, K>(s: seq<T>, le: (T, T) -> bool, key: T -> K)
    requires DistinctBy(s, key)
    ensures DistinctBy(SortBy(s, le), key)
  {
    if s != [] {
      SortByDistinct(s[1..], le, key);
      SortByPermutes(s[1..], le);
      var t := SortBy(s[1..], le);
      forall y | y in t
        ensures key(y) != key(s[0])
      {
        assert y in multiset(t);
        assert y in s[1..];
        var m :| 0 <= m < |s[1..]| && s[1..][m] == y;
        assert s[m + 1] == y;
      }
      InsertByDistinct(s[0], t, le, key);
    }
  }
}
