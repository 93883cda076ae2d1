/**
 * Lists of fretboard locations: span, count and bound queries, the ordering of whole
 * lists, and the mutable `LocationList` with its in-place transpositions and filter.
 */
module LocationLists {
  import opened Outcomes
  import opened JavaText
  import opened Locations
  import opened Sorting
  import GuitarStrings

  // ---------------------------------------------------------------- coordinates

  /** The frets of the locations, in order. */
  function FretList(l: seq<Loc>): (fs: seq<int>)
    ensures |fs| == |l| && forall k :: 0 <= k < |l| ==> fs[k] == l[k].fret
  {
    if l == [] then [] else FretList(l[..|l| - 1]) + [l[|l| - 1].fret]
  }

  /** The strings of the locations, in order. */
  function StringList(l: seq<Loc>): (ss: seq<int>)
    ensures |ss| == |l| && forall k :: 0 <= k < |l| ==> ss[k] == l[k].str
  {
    if l == [] then [] else StringList(l[..|l| - 1]) + [l[|l| - 1].str]
  }

  /** The smallest member; `Integer.MAX_VALUE`, the loop's starting value, for none. */
  function Min(xs: seq<int>): (m: int)
    ensures xs != [] ==> m in xs && forall k :: 0 <= k < |xs| ==> m <= xs[k]
    ensures xs == [] ==> m == INT_MAX
  {
    if xs == [] then INT_MAX
    else if |xs| == 1 then xs[0]
    else
      var m := Min(xs[..|xs| - 1]);
      if xs[|xs| - 1] < m then xs[|xs| - 1] else m
  }

  /** The largest member; `Integer.MIN_VALUE`, the loop's starting value, for none. */
  function Max(xs: seq<int>): (m: int)
    ensures xs != [] ==> m in xs && forall k :: 0 <= k < |xs| ==> xs[k] <= m
    ensures xs == [] ==> m == INT_MIN
  {
    if xs == [] then INT_MIN
    else if |xs| == 1 then xs[0]
    else
      var m := Max(xs[..|xs| - 1]);
      if xs[|xs| - 1] > m then xs[|xs| - 1] else m
  }

  /** `minFret`. */
  function MinFret(l: seq<Loc>): int { Min(FretList(l)) }

  /** `maxFret`. */
  function MaxFret(l: seq<Loc>): int { Max(FretList(l)) }

  /** `minString`. */
  function MinString(l: seq<Loc>): int { Min(StringList(l)) }

  /** `maxString`. */
  function MaxString(l: seq<Loc>): int { Max(StringList(l)) }

  /**
   * `fretSpan`: highest minus lowest fret. On an empty list the two sentinels wrap
   * around 32 bits to 1.
   */
  function FretSpan(l: seq<Loc>): (span: int)
    ensures span >= 0
    ensures l != [] ==> span == MaxFret(l) - MinFret(l)
    ensures l == [] ==> span == 1
  {
    if l == [] then Wrap32(MaxFret(l) - MinFret(l)) else MaxFret(l) - MinFret(l)
  }

  /** `stringSpan`: the distance between the highest and lowest string; 1 on an empty list. */
  function StringSpan(l: seq<Loc>): (span: int)
    ensures span >= 0
    ensures l != [] ==> span == MaxString(l) - MinString(l)
    ensures l == [] ==> span == 1
  {
    var d := if l == [] then Wrap32(MaxString(l) - MinString(l)) else MaxString(l) - MinString(l);
    if d < 0 then -d else d
  }

  // ---------------------------------------------------------------- strings used

  function SetOf(xs: seq<int>): set<int>
  {
    set k | 0 <= k < |xs| :: xs[k]
  }

  /** No value occurs twice. */
  predicate Distinct(xs: seq<int>)
  {
    forall i, j :: 0 <= i < j < |xs| ==> xs[i] != xs[j]
  }

  /** `getStringCount`: how many different strings the list uses. */
  function StringCount(l: seq<Loc>): nat
  {
    |SetOf(StringList(l))|
  }

  /** `uniqueStrings`: no string holds two of the locations. */
  predicate UniqueStrings(l: seq<Loc>)
  {
    Distinct(StringList(l))
  }

  lemma {:induction false} SetOfSnoc(xs: seq<int>, x: int)
    ensures SetOf(xs + [x]) == SetOf(xs) + {x}
  {
    var ys := xs + [x];
    forall v | v in SetOf(ys)
      ensures v in SetOf(xs) + {x}
    {
      var k :| 0 <= k < |ys| && ys[k] == v;
      if k < |xs| {
        assert xs[k] == v;
      }
    }
    forall v | v in SetOf(xs)
      ensures v in SetOf(ys)
    {
      var k :| 0 <= k < |xs| && xs[k] == v;
      assert ys[k] == v;
    }
    assert ys[|xs|] == x;
  }

  /** A list has as many different values as members exactly when none repeats. */
  lemma {:induction false} DistinctCount(xs: seq<int>)
    ensures |SetOf(xs)| <= |xs|
    ensures Distinct(xs) <==> |SetOf(xs)| == |xs|
  {
    if xs != [] {
      var init, x := xs[..|xs| - 1], xs[|xs| - 1];
      assert xs == init + [x];
      DistinctCount(init);
      SetOfSnoc(init, x);
      if x in SetOf(init) {
        var k :| 0 <= k < |init| && init[k] == x;
        assert xs[k] == xs[|xs| - 1];
        assert !Distinct(xs);
      } else {
        if !Distinct(init) {
          var i, j :| 0 <= i < j < |init| && init[i] == init[j];
          assert xs[i] == xs[j];
        }
        if Distinct(init) {
          forall i, j | 0 <= i < j < |xs|
            ensures xs[i] != xs[j]
          {
            if j == |xs| - 1 {
              assert init[i] in SetOf(init);
            } else {
              assert xs[i] == init[i] && xs[j] == init[j];
            }
          }
        }
      }
    }
  }

  /** `uniqueStrings` holds exactly when the string count equals the size. */
  lemma UniqueStringsMeaning(l: seq<Loc>)
    ensures StringCount(l) <= |l|
    ensures UniqueStrings(l) <==> StringCount(l) == |l|
  {
    DistinctCount(StringList(l));
  }

  /** Integers in ascending order, as `Collections.sort` orders them. */
  function IntCompare(a: int, b: int): int
  {
    a - b
  }

  lemma IntCompareLawful()
    ensures IsComparator(IntCompare)
  {
  }

  /** The first occurrences, in order. */
  function FirstOccurrences(xs: seq<int>): (ys: seq<int>)
    ensures Distinct(ys) && SetOf(ys) == SetOf(xs)
  {
    if xs == [] then []
    else
      var init, x := xs[..|xs| - 1], xs[|xs| - 1];
      var ys := FirstOccurrences(init);
      SetOfSnoc(init, x);
      if x in ys then
        assert x in SetOf(ys) by {
          var k :| 0 <= k < |ys| && ys[k] == x;
        }
        ys
      else
        SetOfSnoc(ys, x);
        DistinctSnoc(ys, x);
        ys + [x]
  }

  lemma DistinctSnoc(ys: seq<int>, x: int)
    requires Distinct(ys) && x !in ys
    ensures Distinct(ys + [x])
  {
  }

  /** `getStringSet` / `getFretSet`: the different values, each once, in ascending order. */
  function SortedSet(xs: seq<int>): seq<int>
  {
    SortBy(FirstOccurrences(xs), IntCompare)
  }

  /** The sorted set is strictly ascending and holds exactly the values of the list. */
  lemma SortedSetMeaning(xs: seq<int>)
    ensures SetOf(SortedSet(xs)) == SetOf(xs)
    ensures forall i, j :: 0 <= i < j < |SortedSet(xs)| ==> SortedSet(xs)[i] < SortedSet(xs)[j]
    ensures |SortedSet(xs)| == |SetOf(xs)|
  {
    var ys := FirstOccurrences(xs);
    var zs := SortedSet(xs);
    IntCompareLawful();
    SortSorted(ys, IntCompare);
    SortPermutes(ys, IntCompare);
    MultisetSameSet(ys, zs);
    DistinctByMultiset(ys, zs);
    DistinctCount(ys);
    DistinctCount(zs);
  }

  lemma MultisetSameSet(a: seq<int>, b: seq<int>)
    requires multiset(a) == multiset(b)
    ensures SetOf(a) == SetOf(b)
  {
    forall v | v in SetOf(a)
      ensures v in SetOf(b)
    {
      var k :| 0 <= k < |a| && a[k] == v;
      assert v in multiset(a);
      assert v in multiset(b);
      var j :| 0 <= j < |b| && b[j] == v;
    }
    forall v | v in SetOf(b)
      ensures v in SetOf(a)
    {
      var k :| 0 <= k < |b| && b[k] == v;
      assert v in multiset(b);
      assert v in multiset(a);
      var j :| 0 <= j < |a| && a[j] == v;
    }
  }

  lemma DistinctByMultiset(a: seq<int>, b: seq<int>)
    requires multiset(a) == multiset(b) && Distinct(a)
    ensures Distinct(b)
  {
    DistinctCount(a);
    MultisetSameSet(a, b);
    assert |a| == |multiset(a)| == |multiset(b)| == |b|;
    DistinctCount(b);
  }

  /** `getStringSet`. */
  function StringSet(l: seq<Loc>): seq<int>
  {
    SortedSet(StringList(l))
  }

  /** `getFretSet`. */
  function FretSet(l: seq<Loc>): seq<int>
  {
    SortedSet(FretList(l))
  }

  /** The interior gaps of an ascending list: the first value adds nothing, each later one its distance less one. */
  function Gaps(xs: seq<int>): int
  {
    if |xs| <= 1 then 0
    else Gaps(xs[..|xs| - 1]) + (xs[|xs| - 1] - xs[|xs| - 2] - 1)
  }

  /** The gaps telescope: last minus first, less one per step. */
  lemma {:induction false} GapsTelescope(xs: seq<int>)
    requires |xs| >= 1
    ensures Gaps(xs) == xs[|xs| - 1] - xs[0] - (|xs| - 1)
  {
    if |xs| > 1 {
      GapsTelescope(xs[..|xs| - 1]);
    }
  }

  /** `getSkippedStringCount`: the strings missing between used ones. */
  function SkippedStringCount(l: seq<Loc>): int
  {
    Gaps(StringSet(l))
  }

  /** The skipped strings are the span of strings less the strings used; none for an empty list. */
  lemma SkippedStringCountMeaning(l: seq<Loc>)
    ensures l != [] ==> SkippedStringCount(l) == MaxString(l) - MinString(l) + 1 - StringCount(l)
    ensures l == [] ==> SkippedStringCount(l) == 0
  {
    var ss := StringList(l);
    var zs := StringSet(l);
    SortedSetMeaning(ss);
    if l != [] {
      assert ss[0] in SetOf(ss);
      assert |zs| >= 1;
      GapsTelescope(zs);
      var lo, hi := zs[0], zs[|zs| - 1];
      assert lo in SetOf(ss) && hi in SetOf(ss);
      assert Min(ss) in SetOf(zs) && Max(ss) in SetOf(zs);
      assert lo == Min(ss) by {
        var k :| 0 <= k < |zs| && zs[k] == Min(ss);
        var j :| 0 <= j < |ss| && ss[j] == lo;
      }
      assert hi == Max(ss) by {
        var k :| 0 <= k < |zs| && zs[k] == Max(ss);
        var j :| 0 <= j < |ss| && ss[j] == hi;
      }
    } else {
      assert SetOf(ss) == {};
    }
  }

  // ---------------------------------------------------------------- bounds

  predicate InBounds(l: Loc, minFret: int, maxFret: int)
  {
    minFret <= l.fret <= maxFret
  }

  /** `getBounded`: the locations inside [minFret, maxFret] (or outside, for `inBounds == false`), in order. */
  function Bounded(l: seq<Loc>, minFret: int, maxFret: int, inBounds: bool): (r: seq<Loc>)
    ensures |r| <= |l|
    ensures forall k :: 0 <= k < |r| ==> r[k] in l && InBounds(r[k], minFret, maxFret) == inBounds
  {
    if l == [] then []
    else
      var x := l[|l| - 1];
      Bounded(l[..|l| - 1], minFret, maxFret, inBounds) + (if InBounds(x, minFret, maxFret) == inBounds then [x] else [])
  }

  /** `getBoundedCount`, `getInBoundsCount`, `getOutBoundsCount`. */
  function BoundedCount(l: seq<Loc>, minFret: int, maxFret: int, inBounds: bool): int
  {
    |Bounded(l, minFret, maxFret, inBounds)|
  }

  /** Every location is inside or outside, never both. */
  lemma {:induction false} BoundsPartition(l: seq<Loc>, minFret: int, maxFret: int)
    ensures BoundedCount(l, minFret, maxFret, true) + BoundedCount(l, minFret, maxFret, false) == |l|
  {
    if l != [] {
      BoundsPartition(l[..|l| - 1], minFret, maxFret);
    }
  }

  /** A location is kept exactly when it lies in the bounds (inclusive at both ends). */
  lemma {:induction false} BoundedMembers(l: seq<Loc>, minFret: int, maxFret: int, x: Loc)
    ensures x in Bounded(l, minFret, maxFret, true) <==> x in l && minFret <= x.fret <= maxFret
  {
    if l != [] {
      var init := l[..|l| - 1];
      BoundedMembers(init, minFret, maxFret, x);
      assert l == init + [l[|l| - 1]];
    }
  }

  // ---------------------------------------------------------------- ordering

  /**
   * `compareTo`: at the first position whose keys differ, the other key minus this one
   * (so lists are in descending order of their elements); otherwise the shorter list
   * is smaller, by 2.
   */
  function CompareLists(a: seq<Loc>, b: seq<Loc>): int
  {
    if a == [] && b == [] then 0
    else if a == [] then -2
    else if b == [] then 2
    else if b[0].Key() - a[0].Key() != 0 then b[0].Key() - a[0].Key()
    else CompareLists(a[1..], b[1..])
  }

  /** `equals`: `compareTo` is 0. */
  predicate Equal(a: seq<Loc>, b: seq<Loc>)
  {
    CompareLists(a, b) == 0
  }

  /** Lists compare as 0 exactly when they have the same length and the same keys position by position. */
  lemma {:induction false} EqualMeaning(a: seq<Loc>, b: seq<Loc>)
    ensures Equal(a, b) <==> |a| == |b| && forall k :: 0 <= k < |a| ==> a[k].Key() == b[k].Key()
  {
    if a != [] && b != [] && b[0].Key() == a[0].Key() {
      EqualMeaning(a[1..], b[1..]);
      if |a| == |b| && forall k :: 0 <= k < |a[1..]| ==> a[1..][k].Key() == b[1..][k].Key() {
        forall k | 0 <= k < |a|
          ensures a[k].Key() == b[k].Key()
        {
          if k > 0 {
            assert a[k] == a[1..][k - 1] && b[k] == b[1..][k - 1];
          }
        }
      }
    }
  }

  /** A proper prefix is smaller by 2; the longer list is larger by 2. */
  lemma {:induction false} ComparePrefix(a: seq<Loc>, b: seq<Loc>)
    requires |a| < |b| && a == b[..|a|]
    ensures CompareLists(a, b) == -2 && CompareLists(b, a) == 2
  {
    if a != [] {
      assert b[1..][..|a| - 1] == a[1..];
      ComparePrefix(a[1..], b[1..]);
    }
  }

  /** The order is antisymmetric. */
  lemma {:induction false} CompareAntisymmetric(a: seq<Loc>, b: seq<Loc>)
    ensures CompareLists(a, b) == -CompareLists(b, a)
  {
    if a != [] && b != [] && b[0].Key() == a[0].Key() {
      CompareAntisymmetric(a[1..], b[1..]);
    }
  }

  /** The order is transitive. */
  lemma {:induction false} CompareTransitive(a: seq<Loc>, b: seq<Loc>, c: seq<Loc>)
    requires CompareLists(a, b) <= 0 && CompareLists(b, c) <= 0
    ensures CompareLists(a, c) <= 0
  {
    if a != [] && b != [] && c != [] {
      if a[0].Key() == b[0].Key() && b[0].Key() == c[0].Key() {
        CompareTransitive(a[1..], b[1..], c[1..]);
      }
    }
  }

  /** `compareTo` obeys the `Comparable` contract, so `Collections.sort` by it is well defined. */
  lemma CompareListsLawful()
    ensures IsComparator(CompareLists)
  {
    forall a, b
      ensures CompareLists(a, b) > 0 <==> CompareLists(b, a) < 0
    {
      CompareAntisymmetric(a, b);
    }
    forall a, b, c | CompareLists(a, b) <= 0 && CompareLists(b, c) <= 0
      ensures CompareLists(a, c) <= 0
    {
      CompareTransitive(a, b, c);
    }
  }

  /** `Location.compareTo`, the order `sort` uses: ascending keys. */
  function CompareLocations(a: Loc, b: Loc): int
  {
    a.Key() - b.Key()
  }

  lemma CompareLocationsLawful()
    ensures IsComparator(CompareLocations)
  {
  }

  /** `sort`'s ascending key order is sorted, a permutation, and keeps equal keys in their order. */
  lemma SortMeaning(l: seq<Loc>)
    ensures Sorted(SortBy(l, CompareLocations), CompareLocations)
    ensures multiset(SortBy(l, CompareLocations)) == multiset(l)
    ensures forall e :: Ties(SortBy(l, CompareLocations), e, CompareLocations) == Ties(l, e, CompareLocations)
  {
    CompareLocationsLawful();
    SortSorted(l, CompareLocations);
    SortPermutes(l, CompareLocations);
    forall e
      ensures Ties(SortBy(l, CompareLocations), e, CompareLocations) == Ties(l, e, CompareLocations)
    {
      SortStable(l, e, CompareLocations);
    }
  }

  // ---------------------------------------------------------------- transposition

  /** Every fret moved by `offset`, strings kept. */
  function ShiftFrets(l: seq<Loc>, offset: int): (r: seq<Loc>)
  {
    seq(|l|, k requires 0 <= k < |l| => Loc(l[k].str, l[k].fret + offset))
  }

  /** Every string moved by `offset`, frets kept. */
  function ShiftStrings(l: seq<Loc>, offset: int): (r: seq<Loc>)
  {
    seq(|l|, k requires 0 <= k < |l| => Loc(l[k].str + offset, l[k].fret))
  }

  /** The first `i` locations have their frets moved by `offset`, the rest are as they were. */
  predicate FretsMovedUpTo(l0: seq<Loc>, l: seq<Loc>, i: int, offset: int)
  {
    |l| == |l0| && forall k :: 0 <= k < |l0| ==> l[k] == if k < i then Loc(l0[k].str, l0[k].fret + offset) else l0[k]
  }

  /** The first `i` locations have their strings moved by `offset`, the rest are as they were. */
  predicate StringsMovedUpTo(l0: seq<Loc>, l: seq<Loc>, i: int, offset: int)
  {
    |l| == |l0| && forall k :: 0 <= k < |l0| ==> l[k] == if k < i then Loc(l0[k].str + offset, l0[k].fret) else l0[k]
  }

  lemma FretsMovedStep(l0: seq<Loc>, l: seq<Loc>, i: int, offset: int)
    requires 0 <= i < |l0| && FretsMovedUpTo(l0, l, i, offset)
    ensures FretsMovedUpTo(l0, l[i := Loc(l[i].str, l[i].fret + offset)], i + 1, offset)
  {
  }

  lemma FretsMovedIs(l0: seq<Loc>, l: seq<Loc>, i: int, offset: int)
    requires 0 <= i <= |l0| && FretsMovedUpTo(l0, l, i, offset)
    ensures l == ShiftFrets(l0[..i], offset) + l0[i..]
    ensures i == |l0| ==> l == ShiftFrets(l0, offset)
  {
    var r := ShiftFrets(l0[..i], offset) + l0[i..];
    assert |r| == |l|;
    forall k | 0 <= k < |l|
      ensures l[k] == r[k]
    {
      if k < i {
        assert r[k] == ShiftFrets(l0[..i], offset)[k];
      } else {
        assert r[k] == l0[i..][k - i];
      }
    }
    if i == |l0| {
      assert l0[..i] == l0;
      assert l0[i..] == [];
    }
  }

  lemma StringsMovedStep(l0: seq<Loc>, l: seq<Loc>, i: int, offset: int)
    requires 0 <= i < |l0| && StringsMovedUpTo(l0, l, i, offset)
    ensures StringsMovedUpTo(l0, l[i := Loc(l[i].str + offset, l[i].fret)], i + 1, offset)
  {
  }

  lemma StringsMovedIs(l0: seq<Loc>, l: seq<Loc>, i: int, offset: int)
    requires 0 <= i <= |l0| && StringsMovedUpTo(l0, l, i, offset)
    ensures l == ShiftStrings(l0[..i], offset) + l0[i..]
    ensures i == |l0| ==> l == ShiftStrings(l0, offset)
  {
    var r := ShiftStrings(l0[..i], offset) + l0[i..];
    assert |r| == |l|;
    forall k | 0 <= k < |l|
      ensures l[k] == r[k]
    {
      if k < i {
        assert r[k] == ShiftStrings(l0[..i], offset)[k];
      } else {
        assert r[k] == l0[i..][k - i];
      }
    }
    if i == |l0| {
      assert l0[..i] == l0;
      assert l0[i..] == [];
    }
  }

  /** The smallest of a shifted list is the shifted smallest. */
  lemma MinShift(xs: seq<int>, ys: seq<int>, d: int)
    requires xs != [] && |ys| == |xs|
    requires forall k :: 0 <= k < |xs| ==> ys[k] == xs[k] + d
    ensures Min(ys) == Min(xs) + d
  {
    var i :| 0 <= i < |xs| && xs[i] == Min(xs);
    var j :| 0 <= j < |ys| && ys[j] == Min(ys);
    assert Min(ys) <= ys[i];
    assert Min(xs) <= xs[j];
  }

  lemma MaxShift(xs: seq<int>, ys: seq<int>, d: int)
    requires xs != [] && |ys| == |xs|
    requires forall k :: 0 <= k < |xs| ==> ys[k] == xs[k] + d
    ensures Max(ys) == Max(xs) + d
  {
    var i :| 0 <= i < |xs| && xs[i] == Max(xs);
    var j :| 0 <= j < |ys| && ys[j] == Max(ys);
    assert Max(ys) >= ys[i];
    assert Max(xs) >= xs[j];
  }

  /** Moving the frets by `offset` moves `minFret` by `offset` and leaves the strings alone. */
  lemma ShiftFretsMeaning(l: seq<Loc>, offset: int)
    ensures l != [] ==> MinFret(ShiftFrets(l, offset)) == MinFret(l) + offset
    ensures FretSpan(ShiftFrets(l, offset)) == FretSpan(l)
    ensures StringList(ShiftFrets(l, offset)) == StringList(l)
  {
    var r := ShiftFrets(l, offset);
    var xs, ys := FretList(l), FretList(r);
    assert forall k :: 0 <= k < |xs| ==> ys[k] == xs[k] + offset;
    if l != [] {
      MinShift(xs, ys, offset);
      MaxShift(xs, ys, offset);
    }
    var ss, ts := StringList(l), StringList(r);
    assert forall k :: 0 <= k < |ss| ==> ts[k] == ss[k];
    assert ts == ss;
  }

  /** Moving the strings by `offset` moves `minString` by `offset` and leaves the frets alone. */
  lemma ShiftStringsMeaning(l: seq<Loc>, offset: int)
    ensures l != [] ==> MinString(ShiftStrings(l, offset)) == MinString(l) + offset
    ensures FretList(ShiftStrings(l, offset)) == FretList(l)
  {
    if l != [] {
      MinShift(StringList(l), StringList(ShiftStrings(l, offset)), offset);
    }
  }

  /**
   * Why `transposeFrets(fretboard, fret)` stops at a location: a fret below 0, a string the
   * fretboard lacks (`getString` throws), or a fret above that string's `maxFret`.
   */
  function FretMoveFault(x: Loc, strings: seq<GuitarStrings.GString>, offset: int): Option<Fault>
  {
    var f := x.fret + offset;
    if f < 0 then Some(IllegalArgument)
    else if !(0 <= x.str < |strings|) then Some(IndexOutOfBounds)
    else if f > strings[x.str].maxFret then Some(IllegalArgument)
    else None
  }

  /** The position of the first location that cannot be moved, or the length when all can. */
  function FirstFretFault(l: seq<Loc>, strings: seq<GuitarStrings.GString>, offset: int): (i: nat)
    ensures i <= |l|
    ensures forall k :: 0 <= k < i ==> FretMoveFault(l[k], strings, offset).None?
    ensures i < |l| ==> FretMoveFault(l[i], strings, offset).Some?
  {
    if l == [] then 0
    else if FretMoveFault(l[0], strings, offset).Some? then 0
    else 1 + FirstFretFault(l[1..], strings, offset)
  }

  lemma FirstFretFaultAt(l: seq<Loc>, strings: seq<GuitarStrings.GString>, offset: int, i: int)
    requires 0 <= i < |l| && i <= FirstFretFault(l, strings, offset)
    requires FretMoveFault(l[i], strings, offset).Some?
    ensures FirstFretFault(l, strings, offset) == i
  {
  }

  lemma FirstFretFaultPast(l: seq<Loc>, strings: seq<GuitarStrings.GString>, offset: int, i: int)
    requires 0 <= i < |l| && i <= FirstFretFault(l, strings, offset)
    requires FretMoveFault(l[i], strings, offset).None?
    ensures i + 1 <= FirstFretFault(l, strings, offset)
  {
  }

  /**
   * Why `transposeStrings(fretboard, string)` stops at a location: a string below 0 or one
   * past the last string of the fretboard.
   */
  function StringMoveFault(x: Loc, stringCount: int, offset: int): Option<Fault>
  {
    var s := x.str + offset;
    if s < 0 then Some(IllegalArgument)
    else if s >= stringCount then Some(IllegalArgument)
    else None
  }

  /** The upper check as the source writes it: `s > getStringCount()`, so `s == count` passes. */
  predicate StringMoveAllowedAsWritten(x: Loc, stringCount: int, offset: int)
  {
    var s := x.str + offset;
    0 <= s && !(s > stringCount)
  }

  /** The as-written check lets a chord move onto a string one past the last, where it has no notes. */
  lemma StringMoveAsWrittenOffBoard(strings: seq<GuitarStrings.GString>)
    requires |strings| == 6
    ensures StringMoveAllowedAsWritten(Loc(0, 3), |strings|, 6 - 0)
    ensures ShiftStrings([Loc(0, 3)], 6 - MinString([Loc(0, 3)])) == [Loc(6, 3)]
    ensures NoteOf(Loc(6, 3), strings).None?
    ensures StringMoveFault(Loc(0, 3), |strings|, 6).Some?
  {
    assert StringList([Loc(0, 3)]) == [0];
  }

  /** A moved string passes the corrected check exactly when it is a string of the fretboard. */
  lemma StringMoveFaultMeaning(x: Loc, strings: seq<GuitarStrings.GString>, offset: int)
    ensures StringMoveFault(x, |strings|, offset).None? <==> 0 <= x.str + offset < |strings|
  {
  }

  /** The position of the first location whose string cannot be moved, or the length when all can. */
  function FirstStringFault(l: seq<Loc>, stringCount: int, offset: int): (i: nat)
    ensures i <= |l|
    ensures forall k :: 0 <= k < i ==> StringMoveFault(l[k], stringCount, offset).None?
    ensures i < |l| ==> StringMoveFault(l[i], stringCount, offset).Some?
  {
    if l == [] then 0
    else if StringMoveFault(l[0], stringCount, offset).Some? then 0
    else 1 + FirstStringFault(l[1..], stringCount, offset)
  }

  lemma FirstStringFaultAt(l: seq<Loc>, stringCount: int, offset: int, i: int)
    requires 0 <= i < |l| && i <= FirstStringFault(l, stringCount, offset)
    requires StringMoveFault(l[i], stringCount, offset).Some?
    ensures FirstStringFault(l, stringCount, offset) == i
  {
  }

  lemma FirstStringFaultPast(l: seq<Loc>, stringCount: int, offset: int, i: int)
    requires 0 <= i < |l| && i <= FirstStringFault(l, stringCount, offset)
    requires StringMoveFault(l[i], stringCount, offset).None?
    ensures i + 1 <= FirstStringFault(l, stringCount, offset)
  {
  }

  /**
   * The outcome of `transposeFrets(fretboard, fret)` on `l0`: the locations before the first
   * one that cannot move have moved by `fret - minFret()`, the rest are untouched, and the
   * status is that location's fault, or success when there is none.
   */
  function FretsOutcome(l0: seq<Loc>, strings: seq<GuitarStrings.GString>, offset: int): (seq<Loc>, Status)
  {
    var i := FirstFretFault(l0, strings, offset);
    (ShiftFrets(l0[..i], offset) + l0[i..],
     if i == |l0| then Done else Failed(FretMoveFault(l0[i], strings, offset).value))
  }

  /** The same outcome for `transposeStrings(fretboard, string)`, with the corrected check. */
  function StringsOutcome(l0: seq<Loc>, stringCount: int, offset: int): (seq<Loc>, Status)
  {
    var i := FirstStringFault(l0, stringCount, offset);
    (ShiftStrings(l0[..i], offset) + l0[i..],
     if i == |l0| then Done else Failed(StringMoveFault(l0[i], stringCount, offset).value))
  }

  lemma FretsTransposedAt(l0: seq<Loc>, l: seq<Loc>, strings: seq<GuitarStrings.GString>, offset: int, i: int, st: Status)
    requires 0 <= i <= |l0| && i <= FirstFretFault(l0, strings, offset)
    requires FretsMovedUpTo(l0, l, i, offset)
    requires i < |l0| ==> FretMoveFault(l0[i], strings, offset).Some?
    requires st == if i == |l0| then Done else Failed(FretMoveFault(l0[i], strings, offset).value)
    ensures (l, st) == FretsOutcome(l0, strings, offset)
  {
    FretsMovedIs(l0, l, i, offset);
  }

  lemma StringsTransposedAt(l0: seq<Loc>, l: seq<Loc>, stringCount: int, offset: int, i: int, st: Status)
    requires 0 <= i <= |l0| && i <= FirstStringFault(l0, stringCount, offset)
    requires StringsMovedUpTo(l0, l, i, offset)
    requires i < |l0| ==> StringMoveFault(l0[i], stringCount, offset).Some?
    requires st == if i == |l0| then Done else Failed(StringMoveFault(l0[i], stringCount, offset).value)
    ensures (l, st) == StringsOutcome(l0, stringCount, offset)
  {
    StringsMovedIs(l0, l, i, offset);
  }

  /**
   * After a complete `transposeFrets(fretboard, fret)` every moved fret is playable on its
   * string (and, by `ShiftFretsMeaning`, the lowest fret is `fret`).
   */
  lemma TransposeFretsComplete(l: seq<Loc>, strings: seq<GuitarStrings.GString>, freti: int)
    requires l != []
    requires FirstFretFault(l, strings, freti - MinFret(l)) == |l|
    ensures forall k :: 0 <= k < |l| ==>
      0 <= l[k].str < |strings| && 0 <= l[k].fret + freti - MinFret(l) <= strings[l[k].str].maxFret
  {
    var offset := freti - MinFret(l);
    forall k | 0 <= k < |l|
      ensures 0 <= l[k].str < |strings| && 0 <= l[k].fret + offset <= strings[l[k].str].maxFret
    {
      assert FretMoveFault(l[k], strings, offset).None?;
    }
  }

  // ---------------------------------------------------------------- filter

  /** Inside the string/fret box spanned by `min` and `max`, inclusive. */
  predicate InBox(x: Loc, min: Loc, max: Loc)
  {
    min.fret <= x.fret <= max.fret && min.str <= x.str <= max.str
  }

  /** The locations inside (or outside) the box, in order. */
  function Boxed(l: seq<Loc>, min: Loc, max: Loc, inside: bool): (r: seq<Loc>)
    ensures |r| <= |l|
    ensures forall k :: 0 <= k < |r| ==> r[k] in l && InBox(r[k], min, max) == inside
  {
    if l == [] then []
    else (if InBox(l[0], min, max) == inside then [l[0]] else []) + Boxed(l[1..], min, max, inside)
  }

  lemma {:induction false} BoxedConcat(a: seq<Loc>, b: seq<Loc>, min: Loc, max: Loc, inside: bool)
    ensures Boxed(a + b, min, max, inside) == Boxed(a, min, max, inside) + Boxed(b, min, max, inside)
  {
    if a != [] {
      var h := if InBox(a[0], min, max) == inside then [a[0]] else [];
      var ab := a + b;
      assert ab[0] == a[0] && ab[1..] == a[1..] + b;
      calc {
        Boxed(ab, min, max, inside);
        h + Boxed(a[1..] + b, min, max, inside);
        { BoxedConcat(a[1..], b, min, max, inside); }
        h + (Boxed(a[1..], min, max, inside) + Boxed(b, min, max, inside));
        (h + Boxed(a[1..], min, max, inside)) + Boxed(b, min, max, inside);
        Boxed(a, min, max, inside) + Boxed(b, min, max, inside);
      }
    } else {
      assert a + b == b;
    }
  }

  /** `List.remove(Object)`: drops the first element `equals` to `r`, which compares keys. */
  function RemoveFirstKey(l: seq<Loc>, r: Loc): seq<Loc>
  {
    if l == [] then []
    else if l[0].Key() == r.Key() then l[1..]
    else [l[0]] + RemoveFirstKey(l[1..], r)
  }

  /** Each of `rs` removed in turn. */
  function RemoveEach(l: seq<Loc>, rs: seq<Loc>): seq<Loc>
    decreases |rs|
  {
    if rs == [] then l else RemoveEach(RemoveFirstKey(l, rs[0]), rs[1..])
  }

  /** Removals that match nothing at the head pass it by. */
  lemma {:induction false} RemoveEachSkip(x: Loc, t: seq<Loc>, rs: seq<Loc>)
    requires forall k :: 0 <= k < |rs| ==> rs[k].Key() != x.Key()
    ensures RemoveEach([x] + t, rs) == [x] + RemoveEach(t, rs)
    decreases |rs|
  {
    if rs != [] {
      assert RemoveFirstKey([x] + t, rs[0]) == [x] + RemoveFirstKey(t, rs[0]) by {
        assert ([x] + t)[1..] == t;
      }
      RemoveEachSkip(x, RemoveFirstKey(t, rs[0]), rs[1..]);
    }
  }

  /** Frets in [0, 100], where keys identify locations. */
  predicate KeysExact(l: seq<Loc>)
  {
    forall k :: 0 <= k < |l| ==> 0 <= l[k].fret <= 100
  }

  /**
   * Removing the out-of-box locations one by one by key leaves exactly the in-box ones,
   * in their order, while keys identify locations.
   */
  lemma {:induction false} FilterKeepsBox(l: seq<Loc>, min: Loc, max: Loc)
    requires KeysExact(l)
    ensures RemoveEach(l, Boxed(l, min, max, false)) == Boxed(l, min, max, true)
  {
    if l != [] {
      var x, t := l[0], l[1..];
      assert l == [x] + t;
      assert KeysExact(t) by {
        forall k | 0 <= k < |t| ensures 0 <= t[k].fret <= 100 {
          assert t[k] == l[k + 1];
        }
      }
      FilterKeepsBox(t, min, max);
      var rs := Boxed(t, min, max, false);
      if InBox(x, min, max) {
        assert Boxed(l, min, max, false) == rs;
        assert Boxed(l, min, max, true) == [x] + Boxed(t, min, max, true);
        forall k | 0 <= k < |rs|
          ensures rs[k].Key() != x.Key()
        {
          var j :| 0 <= j < |t| && t[j] == rs[k];
          assert l[j + 1] == rs[k];
          KeyInjective(rs[k], x);
        }
        RemoveEachSkip(x, t, rs);
      } else {
        assert Boxed(l, min, max, false) == [x] + rs;
        assert RemoveFirstKey(l, x) == t;
      }
    }
  }

  /** Every location is inside or outside the box. */
  lemma {:induction false} BoxPartition(l: seq<Loc>, min: Loc, max: Loc)
    ensures |Boxed(l, min, max, true)| + |Boxed(l, min, max, false)| == |l|
  {
    if l != [] {
      BoxPartition(l[1..], min, max);
    }
  }

  /** Past fret 100 a key collision makes `filter` delete the wrong location and keep the one outside. */
  lemma FilterKeyCollision()
    ensures var l := [Loc(1, 0), Loc(0, 101)];
      RemoveEach(l, Boxed(l, Loc(0, 0), Loc(5, 24), false)) == [Loc(0, 101)]
      && Boxed(l, Loc(0, 0), Loc(5, 24), true) == [Loc(1, 0)]
  {
    var l := [Loc(1, 0), Loc(0, 101)];
    assert Boxed(l, Loc(0, 0), Loc(5, 24), false) == [Loc(0, 101)] by {
      assert l[1..] == [Loc(0, 101)];
      assert l[1..][1..] == [];
    }
    assert RemoveFirstKey(l, Loc(0, 101)) == [Loc(0, 101)] by {
      assert l[1..] == [Loc(0, 101)];
    }
  }

  // ---------------------------------------------------------------- text

  /** The class `[\s,"]` that `parseString` splits on. */
  const ListDelims: string := " \t\n\U{000B}\U{000C}\r,\""

  /** The printed locations, in order. */
  function Printed(l: seq<Loc>): (ps: seq<string>)
    ensures |ps| == |l| && forall k :: 0 <= k < |l| ==> ps[k] == Locations.ToString(l[k])
  {
    if l == [] then []
    else
      var init := l[..|l| - 1];
      assert forall k :: 0 <= k < |init| ==> init[k] == l[k];
      Printed(init) + [Locations.ToString(l[|l| - 1])]
  }

  /** `toString`: the locations joined by `,`. */
  function ListToString(l: seq<Loc>): string
  {
    Join(Printed(l), ',')
  }

  /** The locations the pieces parse to; empty pieces and unparsable ones are skipped. */
  function ParsePieces(pieces: seq<string>): seq<Loc>
  {
    if pieces == [] then []
    else
      var rest := ParsePieces(pieces[..|pieces| - 1]);
      var last := pieces[|pieces| - 1];
      if last == [] then rest
      else match Locations.Parse(last)
        case Ok(x) => rest + [x]
        case Err(_) => rest
  }

  lemma ParsePiecesSnoc(pieces: seq<string>, p: string)
    ensures ParsePieces(pieces + [p]) == ParsePieces(pieces) + (if p != [] && Locations.Parse(p).Ok? then [Locations.Parse(p).value] else [])
  {
    assert (pieces + [p])[..|pieces|] == pieces;
  }

  lemma ParsePiecesStep(values: seq<string>, i: int)
    requires 0 <= i < |values|
    ensures ParsePieces(values[..i + 1]) == ParsePieces(values[..i])
      + (if values[i] != [] && Locations.Parse(values[i]).Ok? then [Locations.Parse(values[i]).value] else [])
  {
    assert values[..i + 1] == values[..i] + [values[i]];
    ParsePiecesSnoc(values[..i], values[i]);
  }

  /** `parseString`: empty text gives the empty list. */
  function ParseList(s: string): seq<Loc>
  {
    if |s| < 1 then [] else ParsePieces(Split(s, ListDelims))
  }

  /** The `parseString` loop, which drops whatever `Location.parseString` refuses. */
  method ParseListString(s: string) returns (l: seq<Loc>)
    ensures l == ParseList(s)
  {
    l := [];
    if |s| < 1 {
      return;
    }
    var values := Split(s, ListDelims);
    for i := 0 to |values|
      invariant l == ParsePieces(values[..i])
    {
      ParsePiecesStep(values, i);
      if values[i] != [] {
        var parsed := Locations.ParseString(values[i]);
        if parsed.Ok? {
          l := l + [parsed.value];
        }
      }
    }
    assert values[..|values|] == values;
  }

  /** Coordinates `toString` prints without a sign and `parseInt` reads back. */
  predicate Printable(l: seq<Loc>)
  {
    forall k :: 0 <= k < |l| ==> 0 <= l[k].str <= INT_MAX && 0 <= l[k].fret <= INT_MAX
  }

  lemma {:induction false} ParsePrinted(l: seq<Loc>)
    requires Printable(l)
    ensures ParsePieces(Printed(l)) == l
  {
    if l != [] {
      var n := |l| - 1;
      var init, last := l[..n], l[n];
      assert l == init + [last];
      assert Printable(init) by {
        forall k | 0 <= k < |init| ensures 0 <= init[k].str <= INT_MAX && 0 <= init[k].fret <= INT_MAX {
          assert init[k] == l[k];
        }
      }
      var ps := Printed(l);
      assert ps == Printed(init) + [Locations.ToString(last)];
      ParsePrinted(init);
      Locations.ParseToString(last);
      ParsePiecesSnoc(Printed(init), Locations.ToString(last));
    }
  }

  /** `parseString` reads back what `toString` printed, for coordinates that are not negative. */
  lemma ParseToString(l: seq<Loc>)
    requires Printable(l)
    ensures ParseList(ListToString(l)) == l
  {
    var ps := Printed(l);
    if l != [] {
      forall k | 0 <= k < |ps|
        ensures ps[k] != [] && Free(ps[k], ListDelims)
      {
        NatToStringFree(l[k].str, ListDelims);
        NatToStringFree(l[k].fret, ListDelims);
        assert ps[k] == IntToString(l[k].str) + "-" + IntToString(l[k].fret);
      }
      SplitJoin(ps, ',', ListDelims);
      ParsePrinted(l);
    }
  }

  lemma SplitGarbage()
    ensures Split("x,0-1", ListDelims) == ["x", "0-1"]
  {
    assert "x" + [','] + "0-1" == "x,0-1";
    SplitTwo("x", ',', "0-1", ListDelims);
  }

  lemma ParseGarbagePiece()
    ensures Locations.Parse("x").Err?
  {
    FieldsOfFree("x", Locations.Delims);
  }

  lemma ParseLocationPiece()
    ensures Locations.Parse("0-1") == Ok(Loc(0, 1))
  {
    Locations.ParseToString(Loc(0, 1));
    assert Locations.ToString(Loc(0, 1)) == "0-1";
  }

  /** `parseString` drops text that is not a location: `"x,0-1"` reads as the one location. */
  lemma ParseDropsGarbage()
    ensures ParseList("x,0-1") == [Loc(0, 1)]
  {
    SplitGarbage();
    ParseGarbagePiece();
    ParseLocationPiece();
    ParsePiecesSnoc([], "x");
    ParsePiecesSnoc(["x"], "0-1");
    assert [] + ["x"] == ["x"];
    assert ["x"] + ["0-1"] == ["x", "0-1"];
  }

  // ---------------------------------------------------------------- the list

  /**
   * The loop of `transposeFrets(fretboard, fret)`: location by location, the fret moves by
   * `offset` until one location cannot take the move.
   */
  method MoveFrets(start: seq<Loc>, strings: seq<GuitarStrings.GString>, offset: int) returns (l: seq<Loc>, st: Status)
    ensures (l, st) == FretsOutcome(start, strings, offset)
  {
    l := start;
    ghost var stop := FirstFretFault(start, strings, offset);
    for i := 0 to |l|
      invariant i <= stop && FretsMovedUpTo(start, l, i, offset)
    {
      var x := l[i];
      var fault := FretMoveFault(x, strings, offset);
      if fault.Some? {
        FretsTransposedAt(start, l, strings, offset, i, Failed(fault.value));
        return l, Failed(fault.value);
      }
      FretsMovedStep(start, l, i, offset);
      FirstFretFaultPast(start, strings, offset, i);
      l := l[i := Loc(x.str, x.fret + offset)];
    }
    FretsTransposedAt(start, l, strings, offset, |start|, Done);
    return l, Done;
  }

  /** The loop of `transposeStrings(fretboard, string)`, with the corrected upper check. */
  method MoveStrings(start: seq<Loc>, stringCount: int, offset: int) returns (l: seq<Loc>, st: Status)
    ensures (l, st) == StringsOutcome(start, stringCount, offset)
  {
    l := start;
    ghost var stop := FirstStringFault(start, stringCount, offset);
    for i := 0 to |l|
      invariant i <= stop && StringsMovedUpTo(start, l, i, offset)
    {
      var x := l[i];
      var fault := StringMoveFault(x, stringCount, offset);
      if fault.Some? {
        StringsTransposedAt(start, l, stringCount, offset, i, Failed(fault.value));
        return l, Failed(fault.value);
      }
      StringsMovedStep(start, l, i, offset);
      FirstStringFaultPast(start, stringCount, offset, i);
      l := l[i := Loc(x.str + offset, x.fret)];
    }
    StringsTransposedAt(start, l, stringCount, offset, |start|, Done);
    return l, Done;
  }

  /** A `LocationList`: the list field, rewritten in place by the transpositions, `filter`, `sort` and `set`. */
  class LocationList {
    var locs: seq<Loc>

    /** `LocationList()`. */
    constructor ()
      ensures locs == []
    {
      locs := [];
    }

    /** The copy constructors: a deep copy of the locations, in order. */
    constructor Of(other: seq<Loc>)
      ensures locs == other
    {
      locs := other;
    }

    /** `LocationList(String)`: the parsed text. */
    constructor FromString(s: string)
      ensures locs == ParseList(s)
    {
      var parsed := ParseListString(s);
      locs := parsed;
    }

    /** `set`: the list becomes a copy of `other`. */
    method Set(other: seq<Loc>)
      modifies this
      ensures locs == other
    {
      locs := other;
    }

    /** `transposeFrets(offset)`: every fret moves by `offset`. */
    method TransposeFrets(offset: int)
      modifies this
      ensures locs == ShiftFrets(old(locs), offset)
    {
      ghost var start := locs;
      for i := 0 to |locs|
        invariant FretsMovedUpTo(start, locs, i, offset)
      {
        locs := locs[i := Loc(locs[i].str, locs[i].fret + offset)];
      }
      FretsMovedIs(start, locs, |start|, offset);
    }

    /** `transposeStrings(offset)`: every string moves by `offset`. */
    method TransposeStrings(offset: int)
      modifies this
      ensures locs == ShiftStrings(old(locs), offset)
    {
      ghost var start := locs;
      for i := 0 to |locs|
        invariant StringsMovedUpTo(start, locs, i, offset)
      {
        locs := locs[i := Loc(locs[i].str + offset, locs[i].fret)];
      }
      StringsMovedIs(start, locs, |start|, offset);
    }

    /**
     * `transposeFrets(fretboard, fret)`: moves every fret by `fret - minFret()`, stopping with
     * the fault of the first location that cannot move; the ones before it stay moved.
     */
    method TransposeFretsTo(strings: seq<GuitarStrings.GString>, freti: int) returns (st: Status)
      modifies this
      ensures (locs, st) == FretsOutcome(old(locs), strings, freti - MinFret(old(locs)))
    {
      ghost var start := locs;
      var offset := freti - MinFret(locs);
      var moved;
      moved, st := MoveFrets(locs, strings, offset);
      assert (moved, st) == FretsOutcome(start, strings, freti - MinFret(start));
      locs := moved;
    }

    /**
     * `transposeStrings(fretboard, string)` with the corrected upper check: moves every string
     * by `string - minString()`, stopping at the first location that would leave the fretboard.
     */
    method TransposeStringsTo(strings: seq<GuitarStrings.GString>, stringi: int) returns (st: Status)
      modifies this
      ensures (locs, st) == StringsOutcome(old(locs), |strings|, stringi - MinString(old(locs)))
    {
      ghost var start := locs;
      var offset := stringi - MinString(locs);
      var moved;
      moved, st := MoveStrings(locs, |strings|, offset);
      assert (moved, st) == StringsOutcome(start, |strings|, stringi - MinString(start));
      locs := moved;
    }

    /**
     * `filter(min, max)`: collects the locations outside the box, removes each by key, and
     * returns how many it collected.
     */
    method Filter(min: Loc, max: Loc) returns (delCount: int)
      modifies this
      ensures delCount == |Boxed(old(locs), min, max, false)|
      ensures locs == RemoveEach(old(locs), Boxed(old(locs), min, max, false))
    {
      var removeList: seq<Loc> := [];
      delCount := 0;
      var start := locs;
      for i := 0 to |start|
        invariant locs == start
        invariant removeList == Boxed(start[..i], min, max, false) && delCount == |removeList|
      {
        var x := start[i];
        assert start[..i + 1] == start[..i] + [x];
        BoxedConcat(start[..i], [x], min, max, false);
        if x.fret < min.fret || x.fret > max.fret || x.str < min.str || x.str > max.str {
          removeList := removeList + [x];
          delCount := delCount + 1;
        }
      }
      assert start[..|start|] == start;
      for j := 0 to |removeList|
        invariant RemoveEach(start, removeList) == RemoveEach(locs, removeList[j..])
      {
        assert removeList[j..][1..] == removeList[j + 1..];
        locs := RemoveFirstKey(locs, removeList[j]);
      }
      assert removeList[|removeList|..] == [];
    }

    /** `sort`: the locations in ascending key order, stably. */
    method Sort()
      modifies this
      ensures locs == SortBy(old(locs), CompareLocations)
    {
      if |locs| > 0 {
        locs := SortBy(locs, CompareLocations);
      }
    }
  }
}
