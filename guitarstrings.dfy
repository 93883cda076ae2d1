/**
 * A guitar string: an open note and a number of frets. A note is playable on the
 * string when it lies in [open, open + maxFret); its fret is the distance from the
 * open note. `NOFRET` marks a note the string cannot play.
 */
module GuitarStrings {
  import opened Outcomes
  import opened JavaText
  import opened Notes

  const NOFRET: int := -1

  /** The state of a `GuitarString` (the multi-string `slaves` list is not modelled). */
  datatype GString = GString(open: Pitch, octaveFret: int, maxFret: int)

  /** `GuitarString(openNote)`: octave fret 12, 18 frets. */
  function Standard(open: Pitch): (s: GString)
    ensures s.open == open && s.octaveFret == 12 && s.maxFret == 18
  {
    GString(open, 12, 18)
  }

  /** `getFret`: the distance above the open note, or `NOFRET` below it or at `maxFret` and beyond. */
  function FretOf(s: GString, note: Pitch): (f: int)
    ensures f == NOFRET || (0 <= f < s.maxFret && note.Abs() == s.open.Abs() + f)
    ensures f == NOFRET <==> !(0 <= note.Abs() - s.open.Abs() < s.maxFret)
  {
    var compare := Compare(note, s.open);
    if compare < 0 then NOFRET
    else if compare >= s.maxFret then NOFRET
    else compare
  }

  /** `getNote`: the open note raised by `fret`; a fret below 0 or above `maxFret` throws. */
  function NoteAt(s: GString, fret: int): (r: Result<Pitch>)
    ensures r.Ok? <==> 0 <= fret <= s.maxFret
    ensures r.Ok? ==> r.value.Normalized() && r.value.Abs() == s.open.Abs() + fret
    ensures r.Err? ==> r.fault == IllegalArgument
  {
    if fret < 0 then Err(IllegalArgument)
    else if fret > s.maxFret then Err(IllegalArgument)
    else Ok(Plus(s.open, fret))
  }

  /** `getHighNote`: the open note raised by `maxFret`, one above the highest playable note. */
  function HighNote(s: GString): (p: Pitch)
    ensures p.Normalized() && p.Abs() == s.open.Abs() + s.maxFret
  {
    Plus(s.open, s.maxFret)
  }

  /** The fret of the note at a playable fret is that fret. */
  lemma FretOfNoteAt(s: GString, f: int)
    requires 0 <= f < s.maxFret
    ensures NoteAt(s, f).Ok? && FretOf(s, NoteAt(s, f).value) == f
  {
  }

  /** The note at the fret of a playable note is that note, normalized. */
  lemma NoteAtFretOf(s: GString, note: Pitch)
    requires FretOf(s, note) != NOFRET
    ensures NoteAt(s, FretOf(s, note)) == Ok(Normal(note))
  {
    NormalizedByAbs(NoteAt(s, FretOf(s, note)).value, Normal(note));
  }

  /** The high note is never playable. */
  lemma HighNoteUnplayable(s: GString)
    ensures FretOf(s, HighNote(s)) == NOFRET
  {
  }

  // ---------------------------------------------------------------- lists of notes and frets

  /** The frets of the playable notes, in note order. */
  function Frets(s: GString, notes: seq<Pitch>): (fs: seq<int>)
    ensures |fs| <= |notes|
    ensures forall k :: 0 <= k < |fs| ==> 0 <= fs[k] < s.maxFret
  {
    if notes == [] then []
    else
      var f := FretOf(s, notes[|notes| - 1]);
      Frets(s, notes[..|notes| - 1]) + (if f != NOFRET then [f] else [])
  }

  /** The frets of the playable notes that lie in [lowFret, highFret), in note order. */
  function FretsIn(s: GString, notes: seq<Pitch>, lowFret: int, highFret: int): (fs: seq<int>)
    ensures |fs| <= |notes|
    ensures forall k :: 0 <= k < |fs| ==> 0 <= fs[k] < s.maxFret && lowFret <= fs[k] < highFret
  {
    if notes == [] then []
    else
      var f := FretOf(s, notes[|notes| - 1]);
      FretsIn(s, notes[..|notes| - 1], lowFret, highFret)
        + (if f != NOFRET && lowFret <= f < highFret then [f] else [])
  }

  /** The members of `frets` in [lowFret, highFret), in order. */
  function InRange(frets: seq<int>, lowFret: int, highFret: int): (fs: seq<int>)
    ensures |fs| <= |frets|
    ensures forall k :: 0 <= k < |fs| ==> lowFret <= fs[k] < highFret
  {
    if frets == [] then []
    else
      var f := frets[|frets| - 1];
      InRange(frets[..|frets| - 1], lowFret, highFret) + (if lowFret <= f < highFret then [f] else [])
  }

  /** Every fret is one `getNote` accepts. */
  predicate OnString(s: GString, frets: seq<int>)
  {
    forall k :: 0 <= k < |frets| ==> 0 <= frets[k] <= s.maxFret
  }

  /** The notes at the given frets, every one of them in [0, maxFret]. */
  function NotesOf(s: GString, frets: seq<int>): (ns: seq<Pitch>)
    requires OnString(s, frets)
    ensures |ns| == |frets|
    ensures forall k :: 0 <= k < |ns| ==> ns[k].Normalized() && ns[k].Abs() == s.open.Abs() + frets[k]
  {
    if frets == [] then []
    else NotesOf(s, frets[..|frets| - 1]) + [NoteAt(s, frets[|frets| - 1]).value]
  }

  /** Frets restricted to a part of [0, maxFret] are all ones `getNote` accepts. */
  lemma InRangeOnString(s: GString, frets: seq<int>, lowFret: int, highFret: int)
    requires 0 <= lowFret && highFret <= s.maxFret + 1
    ensures OnString(s, InRange(frets, lowFret, highFret))
  {
  }

  /** Appending a fret appends its note. */
  lemma NotesOfSnoc(s: GString, frets: seq<int>, f: int)
    requires OnString(s, frets) && 0 <= f <= s.maxFret
    ensures OnString(s, frets + [f])
    ensures NotesOf(s, frets + [f]) == NotesOf(s, frets) + [NoteAt(s, f).value]
  {
    assert (frets + [f])[..|frets|] == frets;
  }

  /** Restricting the playable frets to a range is the same as reading only the notes in that range. */
  lemma {:induction false} FretsInIsInRange(s: GString, notes: seq<Pitch>, lowFret: int, highFret: int)
    ensures FretsIn(s, notes, lowFret, highFret) == InRange(Frets(s, notes), lowFret, highFret)
  {
    if notes != [] {
      var init := notes[..|notes| - 1];
      FretsInIsInRange(s, init, lowFret, highFret);
      var f := FretOf(s, notes[|notes| - 1]);
      var tail := if f != NOFRET then [f] else [];
      InRangeConcat(Frets(s, init), tail, lowFret, highFret);
    }
  }

  lemma {:induction false} InRangeConcat(a: seq<int>, b: seq<int>, lowFret: int, highFret: int)
    ensures InRange(a + b, lowFret, highFret) == InRange(a, lowFret, highFret) + InRange(b, lowFret, highFret)
    decreases |b|
  {
    if b == [] {
      assert a + b == a;
    } else {
      var b' := b[..|b| - 1];
      assert (a + b)[..|a + b| - 1] == a + b';
      assert (a + b)[|a + b| - 1] == b[|b| - 1];
      InRangeConcat(a, b', lowFret, highFret);
    }
  }

  /** Reading the frets of the notes at playable frets gives the frets back. */
  lemma {:induction false} FretsOfNotesOf(s: GString, frets: seq<int>)
    requires forall k :: 0 <= k < |frets| ==> 0 <= frets[k] < s.maxFret
    ensures Frets(s, NotesOf(s, frets)) == frets
  {
    if frets != [] {
      var init := frets[..|frets| - 1];
      var ns := NotesOf(s, frets);
      assert ns[..|ns| - 1] == NotesOf(s, init);
      FretOfNoteAt(s, frets[|frets| - 1]);
      FretsOfNotesOf(s, init);
    }
  }

  /** `getCountThisString`: how many of the notes the string can play. */
  method CountThisString(s: GString, notes: seq<Pitch>) returns (count: int)
    ensures count == |Frets(s, notes)|
  {
    count := 0;
    var i := 0;
    while i < |notes|
      invariant 0 <= i <= |notes|
      invariant count == |Frets(s, notes[..i])|
    {
      assert notes[..i + 1][..i] == notes[..i];
      if FretOf(s, notes[i]) != NOFRET {
        count := count + 1;
      }
      i := i + 1;
    }
    assert notes[..i] == notes;
  }

  /** `getCountThisRange(NoteList, low, high)`: how many of the notes the string plays in [low, high). */
  method CountThisRange(s: GString, notes: seq<Pitch>, lowFret: int, highFret: int) returns (count: int)
    ensures count == |FretsIn(s, notes, lowFret, highFret)|
  {
    count := 0;
    var i := 0;
    while i < |notes|
      invariant 0 <= i <= |notes|
      invariant count == |FretsIn(s, notes[..i], lowFret, highFret)|
    {
      assert notes[..i + 1][..i] == notes[..i];
      var freti := FretOf(s, notes[i]);
      if -1 != freti && freti >= lowFret && freti < highFret {
        count := count + 1;
      }
      i := i + 1;
    }
    assert notes[..i] == notes;
  }

  /** `getCountThisRange(List<Integer>, low, high)`: how many of the frets lie in [low, high). */
  method CountFretsInRange(frets: seq<int>, lowFret: int, highFret: int) returns (count: int)
    ensures count == |InRange(frets, lowFret, highFret)|
  {
    count := 0;
    var i := 0;
    while i < |frets|
      invariant 0 <= i <= |frets|
      invariant count == |InRange(frets[..i], lowFret, highFret)|
    {
      assert frets[..i + 1][..i] == frets[..i];
      if frets[i] >= lowFret && frets[i] < highFret {
        count := count + 1;
      }
      i := i + 1;
    }
    assert frets[..i] == frets;
  }

  /** `getLocations(NoteList)`: the frets of the playable notes. */
  method GetLocations(s: GString, notes: seq<Pitch>) returns (frets: seq<int>)
    ensures frets == Frets(s, notes)
  {
    frets := [];
    for i := 0 to |notes|
      invariant frets == Frets(s, notes[..i])
    {
      assert notes[..i + 1][..i] == notes[..i];
      var freti := FretOf(s, notes[i]);
      if NOFRET != freti {
        frets := frets + [freti];
      }
    }
    assert notes[..|notes|] == notes;
  }

  /** `getLocations(NoteList, low, high)`: the frets of the notes playable in [low, high). */
  method GetLocationsIn(s: GString, notes: seq<Pitch>, lowFret: int, highFret: int) returns (frets: seq<int>)
    ensures frets == FretsIn(s, notes, lowFret, highFret)
  {
    frets := [];
    for i := 0 to |notes|
      invariant frets == FretsIn(s, notes[..i], lowFret, highFret)
    {
      assert notes[..i + 1][..i] == notes[..i];
      var freti := FretOf(s, notes[i]);
      if NOFRET != freti && freti >= lowFret && freti < highFret {
        frets := frets + [freti];
      }
    }
    assert notes[..|notes|] == notes;
  }

  /** `getNoteList(List<Integer>)`: the notes at the frets in [0, maxFret); other frets are skipped. */
  method GetNoteList(s: GString, frets: seq<int>) returns (notes: seq<Pitch>)
    ensures notes == NotesOf(s, InRange(frets, 0, s.maxFret))
  {
    notes := [];
    InRangeOnString(s, frets, 0, s.maxFret);
    for i := 0 to |frets|
      invariant OnString(s, InRange(frets[..i], 0, s.maxFret))
      invariant notes == NotesOf(s, InRange(frets[..i], 0, s.maxFret))
    {
      NotesStep(s, frets, i, 0, s.maxFret);
      var freti := frets[i];
      if freti >= 0 && freti < s.maxFret {
        notes := notes + [NoteAt(s, freti).value];
      }
    }
    assert frets[..|frets|] == frets;
  }

  /**
   * `getNoteList(List<Integer>, low, high)`: the notes at the frets in [low, high);
   * one of those outside [0, maxFret] makes `getNote` throw.
   */
  method GetNoteListIn(s: GString, frets: seq<int>, lowFret: int, highFret: int) returns (r: Result<seq<Pitch>>)
    ensures OnString(s, InRange(frets, lowFret, highFret)) ==> r == Ok(NotesOf(s, InRange(frets, lowFret, highFret)))
    ensures !OnString(s, InRange(frets, lowFret, highFret)) ==> r == Err(IllegalArgument)
  {
    var notes := [];
    for i := 0 to |frets|
      invariant OnString(s, InRange(frets[..i], lowFret, highFret))
      invariant notes == NotesOf(s, InRange(frets[..i], lowFret, highFret))
    {
      var freti := frets[i];
      if freti >= lowFret && freti < highFret {
        var note := NoteAt(s, freti);
        if note.Err? {
          InRangeKeeps(s, frets, i, lowFret, highFret);
          return Err(IllegalArgument);
        }
        NotesStep(s, frets, i, lowFret, highFret);
        notes := notes + [note.value];
      } else {
        NotesStep(s, frets, i, lowFret, highFret);
      }
    }
    assert frets[..|frets|] == frets;
    return Ok(notes);
  }

  /** One more fret read: its note is appended when the fret lies in range. */
  lemma NotesStep(s: GString, frets: seq<int>, i: int, lowFret: int, highFret: int)
    requires 0 <= i < |frets| && OnString(s, InRange(frets[..i], lowFret, highFret))
    requires lowFret <= frets[i] < highFret ==> 0 <= frets[i] <= s.maxFret
    ensures OnString(s, InRange(frets[..i + 1], lowFret, highFret))
    ensures NotesOf(s, InRange(frets[..i + 1], lowFret, highFret))
      == NotesOf(s, InRange(frets[..i], lowFret, highFret))
         + (if lowFret <= frets[i] < highFret then [NoteAt(s, frets[i]).value] else [])
  {
    var pre, post := InRange(frets[..i], lowFret, highFret), InRange(frets[..i + 1], lowFret, highFret);
    InRangeStep(frets, i, lowFret, highFret);
    if lowFret <= frets[i] < highFret {
      assert post == pre + [frets[i]];
      NotesOfSnoc(s, pre, frets[i]);
    } else {
      assert post == pre;
    }
  }

  /** One more fret read: it is kept when it lies in range. */
  lemma InRangeStep(frets: seq<int>, i: int, lowFret: int, highFret: int)
    requires 0 <= i < |frets|
    ensures InRange(frets[..i + 1], lowFret, highFret)
      == InRange(frets[..i], lowFret, highFret) + (if lowFret <= frets[i] < highFret then [frets[i]] else [])
  {
    assert frets[..i + 1][..i] == frets[..i];
  }

  /** A fret in range that `getNote` refuses makes the whole list one it refuses. */
  lemma InRangeKeeps(s: GString, frets: seq<int>, i: int, lowFret: int, highFret: int)
    requires 0 <= i < |frets| && lowFret <= frets[i] < highFret
    requires !(0 <= frets[i] <= s.maxFret)
    ensures !OnString(s, InRange(frets, lowFret, highFret))
  {
    var a, b := frets[..i + 1], frets[i + 1..];
    assert frets == a + b;
    assert a[..|a| - 1] == frets[..i];
    InRangeConcat(a, b, lowFret, highFret);
    var pre := InRange(frets[..i], lowFret, highFret);
    assert InRange(frets, lowFret, highFret)[|pre|] == frets[i];
  }

  // ---------------------------------------------------------------- ordering

  /** `compareTo`: open notes weigh 1009, octave frets 101, frets 1. */
  function CompareStrings(a: GString, b: GString): int
  {
    1009 * Compare(a.open, b.open) + 101 * (a.octaveFret - b.octaveFret) + (a.maxFret - b.maxFret)
  }

  /** The weight `compareTo` subtracts: a string's place in the order. */
  function Weight(s: GString): int
  {
    1009 * s.open.Abs() + 101 * s.octaveFret + s.maxFret
  }

  /** `equals`: the same open note (octave and value), octave fret and frets. */
  predicate Same(a: GString, b: GString)
  {
    a.open == b.open && a.octaveFret == b.octaveFret && a.maxFret == b.maxFret
  }

  /** `compareTo` is the difference of weights, so it orders strings consistently. */
  lemma CompareByWeight(a: GString, b: GString)
    ensures CompareStrings(a, b) == Weight(a) - Weight(b)
    ensures CompareStrings(a, b) == -CompareStrings(b, a)
  {
  }

  /** Equal strings compare as 0, but `compareTo` can also be 0 for strings `equals` tells apart. */
  lemma CompareVersusSame(a: GString, b: GString)
    ensures Same(a, b) ==> CompareStrings(a, b) == 0
    ensures var x, y := GString(Pitch(2, 4), 12, 18), GString(Pitch(2, 4), 11, 119);
      CompareStrings(x, y) == 0 && !Same(x, y)
  {
  }
}
