/**
 * A stable sort by a comparator, the behaviour `Collections.sort` and `Arrays.sort`
 * guarantee for objects: the result is ordered, a permutation of the input, and
 * elements the comparator calls equal keep their input order.
 */
module Sorting {

  /** `cmp` obeys the `Comparator` contract: sign antisymmetry and transitivity. */
  ghost predicate IsComparator<T(!new)>(cmp: (T, T) -> int)
  {
    && (forall a, b :: cmp(a, b) > 0 <==> cmp(b, a) < 0)
    && (forall a, b, c :: cmp(a, b) <= 0 && cmp(b, c) <= 0 ==> cmp(a, c) <= 0)
  }

  ghost predicate Sorted<T>(s: seq<T>, cmp: (T, T) -> int)
  {
    forall i, j :: 0 <= i < j < |s| ==> cmp(s[i], s[j]) <= 0
  }

  /** Places `x` in front of the first element it does not exceed. */
  function Insert<T>(x: T, t: seq<T>, cmp: (T, T) -> int): (r: seq<T>)
    ensures |r| == |t| + 1
  {
    if t == [] || cmp(x, t[0]) <= 0 then [x] + t
    else [t[0]] + Insert(x, t[1..], cmp)
  }

  /** Stable insertion sort: each element goes in front of the equal ones behind it. */
  function SortBy<T>(s: seq<T>, cmp: (T, T) -> int): (r: seq<T>)
    ensures |r| == |s|
  {
    if s == [] then [] else Insert(s[0], SortBy(s[1..], cmp), cmp)
  }

  /** The elements of `s` the comparator calls equal to `e`, in order. */
  function Ties<T>(s: seq<T>, e: T, cmp: (T, T) -> int): seq<T>
  {
    if s == [] then []
    else (if cmp(s[0], e) == 0 then [s[0]] else []) + Ties(s[1..], e, cmp)
  }

  lemma {:induction false} InsertPermutes<T>(x: T, t: seq<T>, cmp: (T, T) -> int)
    ensures multiset(Insert(x, t, cmp)) == multiset([x] + t)
  {
    if t != [] && cmp(x, t[0]) > 0 {
      InsertPermutes(x, t[1..], cmp);
      assert t == [t[0]] + t[1..];
    }
  }

  /** Sorting only reorders. */
  lemma {:induction false} SortPermutes<T>(s: seq<T>, cmp: (T, T) -> int)
    ensures multiset(SortBy(s, cmp)) == multiset(s)
  {
    if s != [] {
      SortPermutes(s[1..], cmp);
      InsertPermutes(s[0], SortBy(s[1..], cmp), cmp);
      assert s == [s[0]] + s[1..];
    }
  }

  lemma {:induction false} InsertSorted<T(!new)>(x: T, t: seq<T>, cmp: (T, T) -> int)
    requires IsComparator(cmp) && Sorted(t, cmp)
    ensures Sorted(Insert(x, t, cmp), cmp)
    ensures forall i :: 0 <= i < |Insert(x, t, cmp)| ==> Insert(x, t, cmp)[i] == x || Insert(x, t, cmp)[i] in t
  {
    if t != [] && cmp(x, t[0]) > 0 {
      InsertSorted(x, t[1..], cmp);
      var r := Insert(x, t, cmp);
      assert cmp(t[0], x) < 0;
      forall j | 1 <= j < |r|
        ensures cmp(t[0], r[j]) <= 0
      {
        if r[j] != x {
          assert r[j] in t[1..];
        }
      }
    }
  }

  /** A sort by a lawful comparator yields an ordered list. */
  lemma {:induction false} SortSorted<T(!new)>(s: seq<T>, cmp: (T, T) -> int)
    requires IsComparator(cmp)
    ensures Sorted(SortBy(s, cmp), cmp)
  {
    if s != [] {
      SortSorted(s[1..], cmp);
      InsertSorted(s[0], SortBy(s[1..], cmp), cmp);
    }
  }

  lemma TiesCons<T>(s: seq<T>, e: T, cmp: (T, T) -> int)
    requires s != []
    ensures Ties(s, e, cmp) == Ties([s[0]], e, cmp) + Ties(s[1..], e, cmp)
  {
    assert [s[0]][1..] == [];
  }

  /** An element tied with `e` cannot exceed another element tied with `e`. */
  lemma TieExcludes<T(!new)>(x: T, y: T, e: T, cmp: (T, T) -> int)
    requires IsComparator(cmp) && cmp(x, y) > 0 && cmp(x, e) == 0
    ensures cmp(y, e) != 0
  {
    assert cmp(y, e) == 0 ==> cmp(e, y) <= 0;
    assert cmp(x, e) <= 0 && cmp(e, y) <= 0 ==> cmp(x, y) <= 0;
  }

  lemma {:induction false} InsertTies<T(!new)>(x: T, t: seq<T>, e: T, cmp: (T, T) -> int)
    requires IsComparator(cmp)
    ensures Ties(Insert(x, t, cmp), e, cmp) == Ties([x], e, cmp) + Ties(t, e, cmp)
  {
    if t == [] || cmp(x, t[0]) <= 0 {
      assert ([x] + t)[1..] == t;
    } else {
      var r := Insert(x, t[1..], cmp);
      var tx, t0 := Ties([x], e, cmp), Ties([t[0]], e, cmp);
      assert Ties(Insert(x, t, cmp), e, cmp) == t0 + Ties(r, e, cmp) by {
        assert Insert(x, t, cmp) == [t[0]] + r;
        TiesCons([t[0]] + r, e, cmp);
        assert ([t[0]] + r)[1..] == r;
      }
      assert Ties(t, e, cmp) == t0 + Ties(t[1..], e, cmp) by {
        TiesCons(t, e, cmp);
      }
      InsertTies(x, t[1..], e, cmp);
      assert tx == [] || t0 == [] by {
        if cmp(x, e) == 0 {
          TieExcludes(x, t[0], e, cmp);
        }
      }
    }
  }

  /** Stability: the elements tied with any `e` appear in the same order after sorting. */
  lemma {:induction false} SortStable<T(!new)>(s: seq<T>, e: T, cmp: (T, T) -> int)
    requires IsComparator(cmp)
    ensures Ties(SortBy(s, cmp), e, cmp) == Ties(s, e, cmp)
  {
    if s != [] {
      SortStable(s[1..], e, cmp);
      InsertTies(s[0], SortBy(s[1..], cmp), e, cmp);
      assert [s[0]][1..] == [];
      TiesCons(s, e, cmp);
    }
  }
}
