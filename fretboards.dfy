/**
 * A fretboard: an ordered list of strings, lowest first, with its lowest and highest
 * string cached; where a note can be played on it; and the variations of a chord,
 * one list of candidate locations per note.
 */
module Fretboards {
  import opened Outcomes
  import opened JavaText
  import opened Sorting
  import opened Notes
  import opened GuitarStrings
  import opened Locations
  import LocationLists

  // ---------------------------------------------------------------- lowest and highest string

  /**
   * The position of the string the `validateLowHigh` scan keeps as the lowest: a later string
   * replaces it only when it compares strictly lower, so the first of the lowest wins.
   */
  function LowIndex(strings: seq<GString>): (i: nat)
    requires |strings| > 0
    ensures i < |strings|
    ensures forall j :: 0 <= j < |strings| ==> CompareStrings(strings[i], strings[j]) <= 0
    ensures forall j :: 0 <= j < i ==> CompareStrings(strings[j], strings[i]) > 0
  {
    if |strings| == 1 then 0
    else
      var init := strings[..|strings| - 1];
      var k := LowIndex(init);
      assert forall j :: 0 <= j < |init| ==> init[j] == strings[j];
      if CompareStrings(strings[|strings| - 1], strings[k]) < 0 then |strings| - 1 else k
  }

  /** The position of the string the scan keeps as the highest: the first of the highest. */
  function HighIndex(strings: seq<GString>): (i: nat)
    requires |strings| > 0
    ensures i < |strings|
    ensures forall j :: 0 <= j < |strings| ==> CompareStrings(strings[i], strings[j]) >= 0
    ensures forall j :: 0 <= j < i ==> CompareStrings(strings[j], strings[i]) < 0
  {
    if |strings| == 1 then 0
    else
      var init := strings[..|strings| - 1];
      var k := HighIndex(init);
      assert forall j :: 0 <= j < |init| ==> init[j] == strings[j];
      if CompareStrings(strings[|strings| - 1], strings[k]) > 0 then |strings| - 1 else k
  }

  /** `lowString` after the scan: `null` (here `None`) for no strings. */
  function Low(strings: seq<GString>): Option<GString>
  {
    if strings == [] then None else Some(strings[LowIndex(strings)])
  }

  /** `highString` after the scan. */
  function High(strings: seq<GString>): Option<GString>
  {
    if strings == [] then None else Some(strings[HighIndex(strings)])
  }

  /** One more string in the scan: it replaces the low (high) one when strictly below (above) it. */
  lemma LowHighStep(s: seq<GString>, i: int)
    requires 0 <= i < |s|
    ensures Low(s[..i + 1]) ==
      if Low(s[..i]).None? || CompareStrings(s[i], Low(s[..i]).value) < 0 then Some(s[i]) else Low(s[..i])
    ensures High(s[..i + 1]) ==
      if High(s[..i]).None? || CompareStrings(s[i], High(s[..i]).value) > 0 then Some(s[i]) else High(s[..i])
  {
    var p := s[..i + 1];
    assert p[..i] == s[..i] && p[i] == s[i];
    if i > 0 {
      assert p[LowIndex(s[..i])] == s[..i][LowIndex(s[..i])];
      assert p[HighIndex(s[..i])] == s[..i][HighIndex(s[..i])];
    }
  }

  /** The cached strings are members, no string is below the low one or above the high one. */
  lemma LowHighMeaning(strings: seq<GString>)
    ensures Low(strings).Some? <==> strings != []
    ensures High(strings).Some? <==> strings != []
    ensures Low(strings).Some? ==> Low(strings).value in strings
    ensures Low(strings).Some? ==> forall j :: 0 <= j < |strings| ==> Weight(Low(strings).value) <= Weight(strings[j])
    ensures High(strings).Some? ==> High(strings).value in strings
    ensures High(strings).Some? ==> forall j :: 0 <= j < |strings| ==> Weight(strings[j]) <= Weight(High(strings).value)
  {
    if strings != [] {
      var lo, hi := LowIndex(strings), HighIndex(strings);
      forall j | 0 <= j < |strings|
        ensures Weight(strings[lo]) <= Weight(strings[j]) && Weight(strings[j]) <= Weight(strings[hi])
      {
        CompareByWeight(strings[lo], strings[j]);
        CompareByWeight(strings[hi], strings[j]);
      }
    }
  }

  /** The joint maximum of the strings' fret counts, for a non-empty list. */
  function Highest(strings: seq<GString>): (m: int)
    requires |strings| > 0
    ensures exists k :: 0 <= k < |strings| && strings[k].maxFret == m
    ensures forall k :: 0 <= k < |strings| ==> strings[k].maxFret <= m
  {
    if |strings| == 1 then strings[0].maxFret
    else
      var init := strings[..|strings| - 1];
      var m0 := Highest(init);
      assert forall k :: 0 <= k < |init| ==> init[k] == strings[k];
      var last := strings[|strings| - 1].maxFret;
      if last > m0 then last else m0
  }

  /** `getMaxFret`: 0 without strings, else the largest `maxFret`. */
  function MaxFretOf(strings: seq<GString>): int
  {
    if strings == [] then 0 else Highest(strings)
  }

  // ---------------------------------------------------------------- locations of a note

  /**
   * The locations `getLocations(note, minFret, maxFret)` collects: each string in order
   * contributes `(string, getFret(note))` when that fret is in [minFret, maxFret). The
   * `NOFRET` answer -1 is collected too when `minFret` is -1 or less.
   */
  function Hits(strings: seq<GString>, note: Pitch, minFret: int, maxFret: int): (r: seq<Loc>)
    ensures |r| <= |strings|
  {
    if strings == [] then []
    else
      var n := |strings| - 1;
      var f := FretOf(strings[n], note);
      Hits(strings[..n], note, minFret, maxFret) + (if minFret <= f < maxFret then [Loc(n, f)] else [])
  }

  /**
   * The locations found for a note: one per string at most, in string order, each at the fret
   * its string gives the note and inside [minFret, maxFret), and every such string is there.
   */
  lemma {:induction false} HitsMeaning(strings: seq<GString>, note: Pitch, minFret: int, maxFret: int)
    ensures var r := Hits(strings, note, minFret, maxFret);
      && (forall k :: 0 <= k < |r| ==> 0 <= r[k].str < |strings|)
      && (forall k :: 0 <= k < |r| ==> r[k].fret == FretOf(strings[r[k].str], note) && minFret <= r[k].fret < maxFret)
      && (forall j, k :: 0 <= j < k < |r| ==> r[j].str < r[k].str)
      && (forall s :: 0 <= s < |strings| && minFret <= FretOf(strings[s], note) < maxFret ==>
            Loc(s, FretOf(strings[s], note)) in r)
  {
    if strings != [] {
      var n := |strings| - 1;
      var init := strings[..n];
      HitsMeaning(init, note, minFret, maxFret);
      assert forall j :: 0 <= j < n ==> init[j] == strings[j];
    }
  }

  /** `getLocations(note, minFret, maxFret)`: `null` (here `None`) for a fretboard without strings. */
  function LocationsOf(strings: seq<GString>, note: Pitch, minFret: int, maxFret: int): Option<seq<Loc>>
  {
    if strings == [] then None else Some(Hits(strings, note, minFret, maxFret))
  }

  /** Every location found for a note plays that note again, when frets start at 0 or above. */
  lemma HitsPlayNote(strings: seq<GString>, note: Pitch, minFret: int, maxFret: int)
    requires minFret >= 0
    ensures forall k :: 0 <= k < |Hits(strings, note, minFret, maxFret)| ==>
      NoteOf(Hits(strings, note, minFret, maxFret)[k], strings) == Some(Normal(note))
  {
    var r := Hits(strings, note, minFret, maxFret);
    HitsMeaning(strings, note, minFret, maxFret);
    forall k | 0 <= k < |r|
      ensures NoteOf(r[k], strings) == Some(Normal(note))
    {
      var p := NoteOf(r[k], strings);
      assert p.Some?;
      NormalizedByAbs(p.value, Normal(note));
    }
  }

  /** Six strings tuned E2 A2 D3 G3 B3 E4, each with 18 frets. */
  const StandardTuning: seq<GString> :=
    [Standard(Pitch(2, 4)), Standard(Pitch(2, 9)), Standard(Pitch(3, 2)),
     Standard(Pitch(3, 7)), Standard(Pitch(3, 11)), Standard(Pitch(4, 4))]

  /** The location string `k` contributes, if any. */
  function Hit(strings: seq<GString>, note: Pitch, minFret: int, maxFret: int, k: int): seq<Loc>
    requires 0 <= k < |strings|
  {
    if minFret <= FretOf(strings[k], note) < maxFret then [Loc(k, FretOf(strings[k], note))] else []
  }

  lemma HitsStep(strings: seq<GString>, note: Pitch, minFret: int, maxFret: int, k: int)
    requires 0 <= k < |strings|
    ensures Hits(strings[..k + 1], note, minFret, maxFret) == Hits(strings[..k], note, minFret, maxFret) + Hit(strings, note, minFret, maxFret, k)
  {
    assert strings[..k + 1][..k] == strings[..k];
  }

  /** The locations on six strings, from the frets each string gives the note. */
  lemma SixHits(t: seq<GString>, g: Pitch, minFret: int, maxFret: int)
    requires |t| == 6
    ensures Hits(t, g, minFret, maxFret) ==
      Hit(t, g, minFret, maxFret, 0) + Hit(t, g, minFret, maxFret, 1) + Hit(t, g, minFret, maxFret, 2) +
      Hit(t, g, minFret, maxFret, 3) + Hit(t, g, minFret, maxFret, 4) + Hit(t, g, minFret, maxFret, 5)
  {
    var a0, a1, a2 := Hit(t, g, minFret, maxFret, 0), Hit(t, g, minFret, maxFret, 1), Hit(t, g, minFret, maxFret, 2);
    var a3, a4, a5 := Hit(t, g, minFret, maxFret, 3), Hit(t, g, minFret, maxFret, 4), Hit(t, g, minFret, maxFret, 5);
    assert t[..0] == [] && t[..6] == t;
    HitsStep(t, g, minFret, maxFret, 0);
    assert Hits(t[..1], g, minFret, maxFret) == a0;
    HitsStep(t, g, minFret, maxFret, 1);
    HitsStep(t, g, minFret, maxFret, 2);
    HitsStep(t, g, minFret, maxFret, 3);
    HitsStep(t, g, minFret, maxFret, 4);
    HitsStep(t, g, minFret, maxFret, 5);
  }

  /** The frets of G3 on the strings of standard tuning: 15, 10, 5 and 0, then two strings above it. */
  lemma StandardGFrets()
    ensures var t, g := StandardTuning, Pitch(3, 7);
      FretOf(t[0], g) == 15 && FretOf(t[1], g) == 10 && FretOf(t[2], g) == 5 &&
      FretOf(t[3], g) == 0 && FretOf(t[4], g) == NOFRET && FretOf(t[5], g) == NOFRET
  {
  }

  /** G3 on standard tuning: one location on each of the four lowest strings. */
  lemma StandardG()
    ensures Hits(StandardTuning, Pitch(3, 7), 0, INT_MAX) == [Loc(0, 15), Loc(1, 10), Loc(2, 5), Loc(3, 0)]
  {
    StandardGFrets();
    SixHits(StandardTuning, Pitch(3, 7), 0, INT_MAX);
  }

  /** G3 on standard tuning below fret 6: only the D and G strings. */
  lemma StandardGLow()
    ensures Hits(StandardTuning, Pitch(3, 7), 0, 6) == [Loc(2, 5), Loc(3, 0)]
  {
    StandardGFrets();
    SixHits(StandardTuning, Pitch(3, 7), 0, 6);
  }

  // ---------------------------------------------------------------- variations

  /**
   * The lower octaves `getVariations` adds: while the note is not negative and not below the
   * low string's open note, its locations, then those of the octave below.
   */
  function LowerOctaves(strings: seq<GString>, n: Pitch, lowOpen: Pitch, minFret: int, maxFret: int): seq<Loc>
    decreases n.Abs()
  {
    if n.Abs() >= 0 && Compare(n, lowOpen) >= 0 then
      Hits(strings, n, minFret, maxFret) + LowerOctaves(strings, Minus(n, 12), lowOpen, minFret, maxFret)
    else []
  }

  /**
   * The higher octaves: while the note is not above the high string's highest note, its
   * locations, then those of the octave above.
   */
  function HigherOctaves(strings: seq<GString>, n: Pitch, highMax: Pitch, minFret: int, maxFret: int): seq<Loc>
    decreases highMax.Abs() - n.Abs()
  {
    if Compare(n, highMax) <= 0 then
      Hits(strings, n, minFret, maxFret) + HigherOctaves(strings, Plus(n, 12), highMax, minFret, maxFret)
    else []
  }

  /** Stands in for a cached string that is not there; only read when it is. */
  function Cached(o: Option<GString>): GString
  {
    if o.Some? then o.value else GString(Pitch(0, 0), 0, 0)
  }

  /** The candidate locations of one note: its own, then with octaves those of lower and higher octaves. */
  function NoteDigit(strings: seq<GString>, note: Pitch, minFret: int, maxFret: int,
                     includeOctaves: bool, low: GString, high: GString): seq<Loc>
  {
    Hits(strings, note, minFret, maxFret)
      + (if includeOctaves then
           LowerOctaves(strings, Minus(note, 12), low.open, minFret, maxFret)
             + HigherOctaves(strings, Plus(note, 12), HighNote(high), minFret, maxFret)
         else [])
  }

  /** Each fixed location as a list of its own. */
  function Singletons(fixed: seq<Loc>): (r: seq<seq<Loc>>)
    ensures |r| == |fixed| && forall k :: 0 <= k < |fixed| ==> r[k] == [fixed[k]]
  {
    seq(|fixed|, k requires 0 <= k < |fixed| => [fixed[k]])
  }

  /** One candidate list per note, in note order. */
  function NoteDigits(strings: seq<GString>, notes: seq<Pitch>, minFret: int, maxFret: int,
                      includeOctaves: bool, low: GString, high: GString): (r: seq<seq<Loc>>)
    ensures |r| == |notes|
    ensures forall k :: 0 <= k < |notes| ==> r[k] == NoteDigit(strings, notes[k], minFret, maxFret, includeOctaves, low, high)
  {
    seq(|notes|, k requires 0 <= k < |notes| => NoteDigit(strings, notes[k], minFret, maxFret, includeOctaves, low, high))
  }

  /** The fixed singletons, then the note lists, before sorting. */
  function Unsorted(strings: seq<GString>, fixed: seq<Loc>, notes: seq<Pitch>, minFret: int, maxFret: int,
                    includeOctaves: bool, low: GString, high: GString): (u: seq<seq<Loc>>)
    ensures |u| == |fixed| + |notes|
    ensures forall k :: 0 <= k < |fixed| ==> u[k] == [fixed[k]]
    ensures forall k :: 0 <= k < |notes| ==> u[|fixed| + k] == NoteDigit(strings, notes[k], minFret, maxFret, includeOctaves, low, high)
  {
    Singletons(fixed) + NoteDigits(strings, notes, minFret, maxFret, includeOctaves, low, high)
  }

  /**
   * `getVariations(fixed, notes, minFret, maxFret, includeOctaves)`: `null` for no notes or no
   * strings; otherwise the fixed singletons and the note lists, sorted by `LocationList.compareTo`.
   */
  function Variations(strings: seq<GString>, fixed: seq<Loc>, notes: seq<Pitch>, minFret: int, maxFret: int,
                      includeOctaves: bool, low: GString, high: GString): Option<seq<seq<Loc>>>
  {
    if notes == [] || strings == [] then None
    else Some(SortBy(Unsorted(strings, fixed, notes, minFret, maxFret, includeOctaves, low, high), LocationLists.CompareLists))
  }

  /** Sorting keeps every element: all of `u` is in the sorted list. */
  lemma SortKeeps(u: seq<seq<Loc>>)
    ensures forall k :: 0 <= k < |u| ==> u[k] in SortBy(u, LocationLists.CompareLists)
  {
    SortPermutes(u, LocationLists.CompareLists);
    forall k | 0 <= k < |u|
      ensures u[k] in SortBy(u, LocationLists.CompareLists)
    {
      assert u[k] in multiset(u);
    }
  }

  /** The variations are one list per fixed location and per note, sorted, and nothing else. */
  lemma VariationsMeaning(strings: seq<GString>, fixed: seq<Loc>, notes: seq<Pitch>, minFret: int, maxFret: int,
                          includeOctaves: bool, low: GString, high: GString, r: Option<seq<seq<Loc>>>)
    requires r == Variations(strings, fixed, notes, minFret, maxFret, includeOctaves, low, high)
    ensures r.None? <==> notes == [] || strings == []
    ensures r.Some? ==> |r.value| == |fixed| + |notes|
    ensures r.Some? ==> Sorted(r.value, LocationLists.CompareLists)
    ensures r.Some? ==> multiset(r.value) == multiset(Unsorted(strings, fixed, notes, minFret, maxFret, includeOctaves, low, high))
    ensures r.Some? ==> forall k :: 0 <= k < |fixed| ==> [fixed[k]] in r.value
    ensures r.Some? ==> forall k :: 0 <= k < |notes| ==>
      NoteDigit(strings, notes[k], minFret, maxFret, includeOctaves, low, high) in r.value
  {
    if r.Some? {
      var u := Unsorted(strings, fixed, notes, minFret, maxFret, includeOctaves, low, high);
      LocationLists.CompareListsLawful();
      SortSorted(u, LocationLists.CompareLists);
      SortPermutes(u, LocationLists.CompareLists);
      SortKeeps(u);
      forall k | 0 <= k < |notes|
        ensures NoteDigit(strings, notes[k], minFret, maxFret, includeOctaves, low, high) in r.value
      {
        assert u[|fixed| + k] == NoteDigit(strings, notes[k], minFret, maxFret, includeOctaves, low, high);
      }
    }
  }

  /** Without octaves each note's list is exactly the note's locations. */
  lemma EnharmonicDigit(strings: seq<GString>, note: Pitch, minFret: int, maxFret: int, low: GString, high: GString)
    ensures NoteDigit(strings, note, minFret, maxFret, false, low, high) == Hits(strings, note, minFret, maxFret)
  {
  }

  /** Locations depend on a note only through its absolute value. */
  lemma HitsByAbs(strings: seq<GString>, a: Pitch, b: Pitch, minFret: int, maxFret: int)
    requires a.Abs() == b.Abs()
    ensures Hits(strings, a, minFret, maxFret) == Hits(strings, b, minFret, maxFret)
  {
    if strings != [] {
      HitsByAbs(strings[..|strings| - 1], a, b, minFret, maxFret);
    }
  }

  /**
   * With octaves, the locations of each note `k` octaves down are candidates, as long as
   * it is not negative and not below the low open string.
   */
  lemma {:induction false} LowerOctavesCollect(strings: seq<GString>, n: Pitch, lowOpen: Pitch, minFret: int, maxFret: int,
                                              k: nat, p: Pitch)
    requires p.Abs() == n.Abs() - 12 * k && p.Abs() >= 0 && p.Abs() >= lowOpen.Abs()
    ensures forall x :: x in Hits(strings, p, minFret, maxFret) ==> x in LowerOctaves(strings, n, lowOpen, minFret, maxFret)
    decreases k
  {
    if k == 0 {
      HitsByAbs(strings, p, n, minFret, maxFret);
    } else {
      LowerOctavesCollect(strings, Minus(n, 12), lowOpen, minFret, maxFret, k - 1, p);
    }
  }

  // ---------------------------------------------------------------- strings not played

  /**
   * `getNotPlayedSet`: the strings 0 .. count-1, in order, that `played` does not hold;
   * all of them when there is no location list.
   */
  function NotPlayed(count: nat, played: Option<seq<int>>): (r: seq<int>)
    ensures forall x :: x in r <==> 0 <= x < count && (played.None? || x !in played.value)
    ensures forall i, j :: 0 <= i < j < |r| ==> r[i] < r[j]
  {
    if count == 0 then []
    else
      var r0 := NotPlayed(count - 1, played);
      assert forall i :: 0 <= i < |r0| ==> r0[i] in r0;
      r0 + (if played.None? || count - 1 !in played.value then [count - 1] else [])
  }

  /** The strings of a location list `getStringSet` reports. */
  function PlayedSet(locations: Option<seq<Loc>>): Option<seq<int>>
  {
    if locations.None? then None else Some(LocationLists.StringSet(locations.value))
  }

  /** A string is reported unplayed exactly when it exists and no location uses it. */
  lemma NotPlayedMeaning(count: nat, locations: Option<seq<Loc>>, x: int)
    ensures x in NotPlayed(count, PlayedSet(locations)) <==>
      0 <= x < count && (locations.None? || forall k :: 0 <= k < |locations.value| ==> locations.value[k].str != x)
  {
    if locations.Some? {
      var l := locations.value;
      LocationLists.SortedSetMeaning(LocationLists.StringList(l));
      var ss := LocationLists.StringSet(l);
      assert x in ss <==> x in LocationLists.SetOf(ss);
      if x in LocationLists.SetOf(LocationLists.StringList(l)) {
        var k :| 0 <= k < |l| && LocationLists.StringList(l)[k] == x;
        assert l[k].str == x;
      }
      if exists k :: 0 <= k < |l| && l[k].str == x {
        var k :| 0 <= k < |l| && l[k].str == x;
        assert LocationLists.StringList(l)[k] == x;
      }
    }
  }

  // ---------------------------------------------------------------- the fretboard

  /** A fretboard: its strings and the cached lowest and highest of them. */
  class Fretboard {
    var strings: seq<GString>
    var lowString: Option<GString>
    var highString: Option<GString>

    /** The cache holds what `validateLowHigh` finds. */
    predicate Valid()
      reads this
    {
      lowString == Low(strings) && highString == High(strings)
    }

    /** `Fretboard(strings)`. */
    constructor (strings: seq<GString>)
      ensures this.strings == strings && Valid()
    {
      this.strings := strings;
      lowString, highString := None, None;
      new;
      ValidateLowHigh();
    }

    /** `validateLowHigh`: one pass over the strings comparing with `compareTo`. */
    method ValidateLowHigh()
      modifies this
      ensures strings == old(strings) && Valid()
    {
      ghost var s := strings;
      lowString := None;
      highString := None;
      var i := 0;
      while i < |strings|
        invariant 0 <= i <= |s| && strings == s
        invariant lowString == Low(s[..i]) && highString == High(s[..i])
      {
        var curr := strings[i];
        LowHighStep(s, i);
        if lowString.None? || CompareStrings(curr, lowString.value) < 0 {
          lowString := Some(curr);
        }
        if highString.None? || CompareStrings(curr, highString.value) > 0 {
          highString := Some(curr);
        }
        i := i + 1;
      }
      assert s[..i] == s;
      assert lowString == Low(s) && highString == High(s);
    }

    /** `setStrings`. */
    method SetStrings(strings: seq<GString>)
      modifies this
      ensures this.strings == strings && Valid()
    {
      this.strings := strings;
      ValidateLowHigh();
    }

    /** `add(string)`: appended, then the cache is refreshed. */
    method Add(s: GString) returns (result: bool)
      modifies this
      ensures strings == old(strings) + [s] && Valid() && result
    {
      strings := strings + [s];
      ValidateLowHigh();
      result := true;
    }

    /** `addAll(strings)`: appended in order; `true` when anything was added. */
    method AddAll(c: seq<GString>) returns (result: bool)
      modifies this
      ensures strings == old(strings) + c && Valid() && result == (c != [])
    {
      strings := strings + c;
      ValidateLowHigh();
      result := c != [];
    }

    /** `clear`: no strings, and no cached ones. */
    method Clear()
      modifies this
      ensures strings == [] && lowString.None? && highString.None? && Valid()
    {
      strings := [];
      lowString := None;
      highString := None;
    }

    /** `remove(object)`: the first equal string goes, then the cache is refreshed. */
    method Remove(o: GString) returns (result: bool)
      modifies this
      ensures result <==> o in old(strings)
      ensures result ==> strings == old(strings)[..IndexOf(old(strings), o)] + old(strings)[IndexOf(old(strings), o) + 1..]
      ensures !result ==> strings == old(strings)
      ensures Valid()
    {
      var i := IndexOf(strings, o);
      if i >= 0 {
        strings := strings[..i] + strings[i + 1..];
      }
      ValidateLowHigh();
      result := i >= 0;
    }

    /**
     * `removeAll(strings)`: every string equal to one of `c` goes, and the cache is emptied
     * without a new scan, so it no longer describes the strings that are left.
     */
    method RemoveAll(c: seq<GString>) returns (result: bool)
      modifies this
      ensures strings == Without(old(strings), c)
      ensures result <==> |strings| != |old(strings)|
      ensures lowString.None? && highString.None?
      ensures strings != [] ==> !Valid()
    {
      lowString := None;
      highString := None;
      var kept := Without(strings, c);
      result := |kept| != |strings|;
      strings := kept;
    }

    /** `getString(i)`: `IndexOutOfBoundsException` outside the list. */
    function GetString(i: int): (r: Result<GString>)
      reads this
      ensures r.Ok? <==> 0 <= i < |strings|
      ensures r.Ok? ==> r.value == strings[i]
      ensures r.Err? ==> r.fault == IndexOutOfBounds
    {
      if 0 <= i < |strings| then Ok(strings[i]) else Err(IndexOutOfBounds)
    }

    /** `getMaxFret`: a loop keeping the largest fret count. */
    method GetMaxFret() returns (m: int)
      ensures m == MaxFretOf(strings)
      ensures strings == [] ==> m == 0
      ensures strings != [] ==> m in (set k | 0 <= k < |strings| :: strings[k].maxFret)
      ensures forall k :: 0 <= k < |strings| ==> strings[k].maxFret <= m
    {
      if |strings| < 1 {
        return 0;
      }
      // The source starts from `Integer.MIN_VALUE`, below every `int` fret count; the first string stands in for it.
      m := strings[0].maxFret;
      for i := 1 to |strings|
        invariant m == Highest(strings[..i])
      {
        assert strings[..i + 1][..i] == strings[..i];
        if strings[i].maxFret > m {
          m := strings[i].maxFret;
        }
      }
      assert strings[..|strings|] == strings;
    }

    /** `getLocations(note, minFret, maxFret)`: one pass over the strings. */
    method GetLocations(note: Pitch, minFret: int, maxFret: int) returns (r: Option<seq<Loc>>)
      ensures r == LocationsOf(strings, note, minFret, maxFret)
    {
      if |strings| == 0 {
        return None;
      }
      var locations: seq<Loc> := [];
      for stringi := 0 to |strings|
        invariant locations == Hits(strings[..stringi], note, minFret, maxFret)
      {
        var freti := FretOf(strings[stringi], note);
        assert strings[..stringi + 1][..stringi] == strings[..stringi];
        if freti >= minFret && freti < maxFret {
          locations := locations + [Loc(stringi, freti)];
        }
      }
      assert strings[..|strings|] == strings;
      return Some(locations);
    }

    /** `getLocations(note)`: every fret from 0 up. */
    method GetAllLocations(note: Pitch) returns (r: Option<seq<Loc>>)
      ensures r == LocationsOf(strings, note, 0, INT_MAX)
    {
      r := GetLocations(note, 0, INT_MAX);
    }

    /**
     * `getVariations(fixed, notes, minFret, maxFret, includeOctaves)`. With octaves it reads
     * the cached low and high strings, which must be there.
     */
    method GetVariations(fixed: seq<Loc>, notes: seq<Pitch>, minFret: int, maxFret: int, includeOctaves: bool)
      returns (r: Option<seq<seq<Loc>>>)
      requires includeOctaves && notes != [] && strings != [] ==> lowString.Some? && highString.Some?
      ensures r == Variations(strings, fixed, notes, minFret, maxFret, includeOctaves,
                              Cached(lowString), Cached(highString))
    {
      if |notes| == 0 || |strings| == 0 {
        return None;
      }
      var low, high := Cached(lowString), Cached(highString);
      var variations: seq<seq<Loc>> := [];
      for k := 0 to |fixed|
        invariant variations == Singletons(fixed[..k])
      {
        variations := variations + [[fixed[k]]];
      }
      assert fixed[..|fixed|] == fixed;
      for notei := 0 to |notes|
        invariant variations == Singletons(fixed) + NoteDigits(strings, notes[..notei], minFret, maxFret, includeOctaves, low, high)
      {
        var note := notes[notei];
        var locations := GetNoteLocations(note, minFret, maxFret, includeOctaves, low, high);
        assert locations == NoteDigit(strings, note, minFret, maxFret, includeOctaves, low, high);
        assert NoteDigits(strings, notes[..notei + 1], minFret, maxFret, includeOctaves, low, high)
          == NoteDigits(strings, notes[..notei], minFret, maxFret, includeOctaves, low, high) + [locations];
        variations := variations + [locations];
      }
      assert notes[..|notes|] == notes;
      return Some(SortBy(variations, LocationLists.CompareLists));
    }

    /** The body of the `getVariations` note loop: a note's locations, then its lower and higher octaves. */
    method GetNoteLocations(note: Pitch, minFret: int, maxFret: int, includeOctaves: bool, low: GString, high: GString)
      returns (locations: seq<Loc>)
      requires strings != []
      ensures locations == NoteDigit(strings, note, minFret, maxFret, includeOctaves, low, high)
    {
      var found := GetLocations(note, minFret, maxFret);
      locations := found.value;
      if includeOctaves {
        var lower := GetLowerOctaves(note, low.open, minFret, maxFret);
        var higher := GetHigherOctaves(note, HighNote(high), minFret, maxFret);
        locations := locations + lower + higher;
      }
    }

    /** The `getVariations` loop down the octaves below `note`. */
    method GetLowerOctaves(note: Pitch, lowOpen: Pitch, minFret: int, maxFret: int) returns (locations: seq<Loc>)
      requires strings != []
      ensures locations == LowerOctaves(strings, Minus(note, 12), lowOpen, minFret, maxFret)
    {
      locations := [];
      var lowerNote := Minus(note, 12);
      while lowerNote.Abs() >= 0 && Compare(lowerNote, lowOpen) >= 0
        invariant locations + LowerOctaves(strings, lowerNote, lowOpen, minFret, maxFret)
          == LowerOctaves(strings, Minus(note, 12), lowOpen, minFret, maxFret)
        decreases lowerNote.Abs()
      {
        var lower := GetLocations(lowerNote, minFret, maxFret);
        assert LowerOctaves(strings, lowerNote, lowOpen, minFret, maxFret)
          == lower.value + LowerOctaves(strings, Minus(lowerNote, 12), lowOpen, minFret, maxFret);
        locations := locations + lower.value;
        lowerNote := Minus(lowerNote, 12);
      }
    }

    /** The `getVariations` loop up the octaves above `note`, to the high string's highest note. */
    method GetHigherOctaves(note: Pitch, highMax: Pitch, minFret: int, maxFret: int) returns (locations: seq<Loc>)
      requires strings != []
      ensures locations == HigherOctaves(strings, Plus(note, 12), highMax, minFret, maxFret)
    {
      locations := [];
      var higherNote := Plus(note, 12);
      while Compare(higherNote, highMax) <= 0
        invariant locations + HigherOctaves(strings, higherNote, highMax, minFret, maxFret)
          == HigherOctaves(strings, Plus(note, 12), highMax, minFret, maxFret)
        decreases highMax.Abs() - higherNote.Abs()
      {
        var higher := GetLocations(higherNote, minFret, maxFret);
        assert HigherOctaves(strings, higherNote, highMax, minFret, maxFret)
          == higher.value + HigherOctaves(strings, Plus(higherNote, 12), highMax, minFret, maxFret);
        locations := locations + higher.value;
        higherNote := Plus(higherNote, 12);
      }
    }

    /** `getNotPlayedSet(locations)`: the strings the list leaves open, in order. */
    method GetNotPlayedSet(locations: Option<seq<Loc>>) returns (r: seq<int>)
      ensures r == NotPlayed(|strings|, PlayedSet(locations))
    {
      var played := PlayedSet(locations);
      r := [];
      for stringi := 0 to |strings|
        invariant r == NotPlayed(stringi, played)
      {
        if played.None? || stringi !in played.value {
          r := r + [stringi];
        }
      }
    }
  }

  /** `List.indexOf` over strings: where `o` first occurs, or -1. */
  function IndexOf(ss: seq<GString>, o: GString): (i: int)
    ensures -1 <= i < |ss|
    ensures i >= 0 ==> ss[i] == o && o !in ss[..i]
    ensures i == -1 <==> o !in ss
  {
    if ss == [] then -1
    else if ss[0] == o then 0
    else
      var j := IndexOf(ss[1..], o);
      assert ss == [ss[0]] + ss[1..];
      if j < 0 then -1 else j + 1
  }

  /** `List.removeAll` over strings: the strings not in `c`, in order. */
  function Without(ss: seq<GString>, c: seq<GString>): (r: seq<GString>)
    ensures |r| <= |ss|
    ensures forall x :: x in r <==> x in ss && x !in c
    ensures |r| == |ss| <==> forall k :: 0 <= k < |ss| ==> ss[k] !in c
  {
    if ss == [] then []
    else
      var rest := Without(ss[1..], c);
      assert ss == [ss[0]] + ss[1..];
      if ss[0] in c then rest else [ss[0]] + rest
  }
}
