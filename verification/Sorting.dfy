/** Stable sorting of sequences, as `Array.prototype.sort` promises it. */
module Sorting {
  import opened Common

  ghost predicate TotalPreorder<T(!new)>(le: (T, T) -> bool) {
    && (forall a, b :: le(a, b) || le(b, a))
    && (forall a, b, c :: le(a, b) && le(b, c) ==> le(a, c))
  }

  predicate Sorted<T>(s: seq<T>, le: (T, T) -> bool) {
    forall i, j :: 0 <= i < j < |s| ==> le(s[i], s[j])
  }

  function Insert<T>(x: T, s: seq<T>, le: (T, T) -> bool): seq<T> {
    if s == [] || le(x, s[0]) then [x] + s else [s[0]] + Insert(x, s[1..], le)
  }

  function Sort<T>(s: seq<T>, le: (T, T) -> bool): seq<T> {
    if s == [] then [] else Insert(s[0], Sort(s[1..], le), le)
  }

  lemma {:induction false} InsertSorted<T(!new)>(x: T, s: seq<T>, le: (T, T) -> bool)
    requires TotalPreorder(le) && Sorted(s, le)
    ensures Sorted(Insert(x, s, le), le)
    ensures multiset(Insert(x, s, le)) == multiset{x} + multiset(s)
  {
    if s == [] || le(x, s[0]) {
      assert forall j :: 0 <= j < |s| ==> le(s[0], s[j]) || j == 0;
    } else {
      assert s == [s[0]] + s[1..];
      InsertSorted(x, s[1..], le);
      var t := Insert(x, s[1..], le);
      forall j | 0 <= j < |t| ensures le(s[0], t[j]) {
        assert t[j] in multiset(t);
        assert t[j] == x || t[j] in s[1..];
      }
    }
  }

  /** Sorting orders the sequence and permutes it. */
  lemma {:induction false} SortSorts<T(!new)>(s: seq<T>, le: (T, T) -> bool)
    requires TotalPreorder(le)
    ensures Sorted(Sort(s, le), le)
    ensures multiset(Sort(s, le)) == multiset(s)
    ensures |Sort(s, le)| == |s|
  {
    if s != [] {
      SortSorts(s[1..], le);
      InsertSorted(s[0], Sort(s[1..], le), le);
      assert s == [s[0]] + s[1..];
    }
    assert |multiset(Sort(s, le))| == |multiset(s)|;
  }

  lemma {:induction false} SortMembers<T(!new)>(s: seq<T>, le: (T, T) -> bool)
    requires TotalPreorder(le)
    ensures forall x :: x in Sort(s, le) <==> x in s
  {
    SortSorts(s, le);
    forall x ensures x in Sort(s, le) <==> x in s {
      assert x in multiset(Sort(s, le)) <==> x in multiset(s);
    }
  }

  /** A sorted sequence is left as it is. */
  lemma {:induction false} SortFixed<T(!new)>(s: seq<T>, le: (T, T) -> bool)
    requires Sorted(s, le)
    ensures Sort(s, le) == s
  {
    if s != [] {
      SortFixed(s[1..], le);
      assert s == [s[0]] + s[1..];
      assert |s| > 1 ==> le(s[0], s[1]);
    }
  }

  /** Elements that compare equal. */
  predicate Tied<T>(a: T, b: T, le: (T, T) -> bool) {
    le(a, b) && le(b, a)
  }

  lemma {:induction false} InsertStable<T(!new)>(x: T, s: seq<T>, le: (T, T) -> bool, pivot: T)
    requires TotalPreorder(le) && Sorted(s, le)
    ensures var tie := y => Tied(pivot, y, le);
      Filter(Insert(x, s, le), tie) == Filter([x] + s, tie)
  {
    var tie := y => Tied(pivot, y, le);
    if s == [] || le(x, s[0]) {
    } else {
      InsertStable(x, s[1..], le, pivot);
      var t := Insert(x, s[1..], le);
      assert ([s[0]] + t)[1..] == t && ([x] + s)[1..] == s && ([x] + s[1..])[1..] == s[1..];
      assert !(tie(x) && tie(s[0]));
    }
  }

  /** Elements that compare equal keep their order. */
  lemma {:induction false} SortStable<T(!new)>(s: seq<T>, le: (T, T) -> bool, pivot: T)
    requires TotalPreorder(le)
    ensures var tie := y => Tied(pivot, y, le);
      Filter(Sort(s, le), tie) == Filter(s, tie)
  {
    if s != [] {
      var tie := y => Tied(pivot, y, le);
      var t := Sort(s[1..], le);
      SortSorts(s[1..], le);
      SortStable(s[1..], le, pivot);
      InsertStable(s[0], t, le, pivot);
      assert ([s[0]] + t)[1..] == t;
    }
  }
}
