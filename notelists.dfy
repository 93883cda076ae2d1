/**
 * Ordered lists of notes: built from a root and an interval formula, shifted in place,
 * compared element by element, printed and parsed.
 */
module NoteLists {
  import opened Outcomes
  import opened JavaText
  import opened Notes
  import Intervals

  // ---------------------------------------------------------------- building from a formula

  /** The notes `root + interval` for each interval, in order. */
  function OverRoot(root: Pitch, ivs: seq<Intervals.Interval>): (r: seq<Pitch>)
    ensures |r| == |ivs|
    ensures forall k :: 0 <= k < |r| ==> r[k].Normalized() && r[k].Abs() == root.Abs() + Intervals.Value(ivs[k])
  {
    if ivs == [] then [] else OverRoot(root, ivs[..|ivs| - 1]) + [Plus(root, Intervals.Value(ivs[|ivs| - 1]))]
  }

  /**
   * `setRelative(first, formula)`: the list is cleared, then holds `first` plus each interval
   * of the formula; an unknown token throws and leaves the list empty.
   */
  function Relative(first: Pitch, formula: string): Result<seq<Pitch>>
  {
    var ivs :- Intervals.Formula(formula, Intervals.DelimiterFor(formula));
    Ok(OverRoot(first, ivs))
  }

  // ---------------------------------------------------------------- shifting

  /** Every note moved by `k` semitones (`Note.plus` on each, which normalizes). */
  function Shifted(l: seq<Pitch>, k: int): (r: seq<Pitch>)
    ensures |r| == |l|
    ensures forall i :: 0 <= i < |l| ==> r[i].Normalized() && r[i].Abs() == l[i].Abs() + k
  {
    seq(|l|, i requires 0 <= i < |l| => Plus(l[i], k))
  }

  /** `updateRelative(k)`: a no-op for an empty list or `k == 0`, else every note moved by `k`. */
  function UpdatedRelative(l: seq<Pitch>, k: int): seq<Pitch>
  {
    if l == [] || k == 0 then l else Shifted(l, k)
  }

  /** `updateAbsolute(root)`: the whole list moved so that its first note lands on `root`. */
  function UpdatedAbsolute(l: seq<Pitch>, root: Pitch): seq<Pitch>
  {
    if l == [] then l else UpdatedRelative(l, root.Abs() - l[0].Abs())
  }

  /** The copy constructors' deep copy: `new Note(other)` of each note, which normalizes it. */
  function Copied(l: seq<Pitch>): (r: seq<Pitch>)
    ensures |r| == |l|
    ensures forall i :: 0 <= i < |l| ==> r[i].Normalized() && r[i].Abs() == l[i].Abs()
  {
    seq(|l|, i requires 0 <= i < |l| => Normal(l[i]))
  }

  /** `getAbsoluteIntervals`: a copy moved so that its first note is at absolute 0; `null` when empty. */
  function AbsoluteIntervals(l: seq<Pitch>): Option<seq<Pitch>>
  {
    if l == [] then None else Some(UpdatedRelative(Copied(l), -l[0].Abs()))
  }

  /** The distance between two notes, in semitones. */
  function Step(a: Pitch, b: Pitch): int
  {
    b.Abs() - a.Abs()
  }

  /** Shifting moves every note by `k` and keeps every distance between two notes. */
  lemma UpdatedRelativeMeaning(l: seq<Pitch>, k: int)
    ensures |UpdatedRelative(l, k)| == |l|
    ensures forall i :: 0 <= i < |l| ==> UpdatedRelative(l, k)[i].Abs() == l[i].Abs() + k
    ensures forall i, j :: 0 <= i < |l| && 0 <= j < |l| ==>
      Step(UpdatedRelative(l, k)[i], UpdatedRelative(l, k)[j]) == Step(l[i], l[j])
  {
  }

  /** After `updateAbsolute(root)` the first note sounds as `root`, and all distances are kept. */
  lemma UpdatedAbsoluteMeaning(l: seq<Pitch>, root: Pitch)
    ensures |UpdatedAbsolute(l, root)| == |l|
    ensures l != [] ==> UpdatedAbsolute(l, root)[0].Abs() == root.Abs()
    ensures forall i, j :: 0 <= i < |l| && 0 <= j < |l| ==>
      Step(UpdatedAbsolute(l, root)[i], UpdatedAbsolute(l, root)[j]) == Step(l[i], l[j])
  {
    if l != [] {
      UpdatedRelativeMeaning(l, root.Abs() - l[0].Abs());
    }
  }

  /** The absolute intervals start at 0 and keep the distances; there are none for an empty list. */
  lemma AbsoluteIntervalsMeaning(l: seq<Pitch>)
    ensures AbsoluteIntervals(l).None? <==> l == []
    ensures AbsoluteIntervals(l).Some? ==>
      var r := AbsoluteIntervals(l).value;
      && |r| == |l| && r[0].Abs() == 0
      && forall i :: 0 <= i < |l| ==> r[i].Normalized() && r[i].Abs() == Step(l[0], l[i])
  {
    if l != [] {
      var c := Copied(l);
      UpdatedRelativeMeaning(c, -l[0].Abs());
      if l[0].Abs() != 0 {
        assert UpdatedRelative(c, -l[0].Abs()) == Shifted(c, -l[0].Abs());
      }
    }
  }

  // ---------------------------------------------------------------- relative intervals

  /** `getRelativeIntervals`: each note's distance from the one before; the first is 0. */
  function RelativeSteps(l: seq<Pitch>): (r: seq<int>)
    requires l != []
    ensures |r| == |l| && r[0] == 0
    ensures forall i :: 1 <= i < |l| ==> r[i] == Step(l[i - 1], l[i])
  {
    seq(|l|, i requires 0 <= i < |l| => if i == 0 then 0 else Step(l[i - 1], l[i]))
  }

  function Sum(xs: seq<int>): int
  {
    if xs == [] then 0 else Sum(xs[..|xs| - 1]) + xs[|xs| - 1]
  }

  /** Adding up the relative intervals from the first note gives back every note's pitch. */
  lemma {:induction false} RelativeStepsSum(l: seq<Pitch>, i: nat)
    requires i < |l|
    ensures l[0].Abs() + Sum(RelativeSteps(l)[..i + 1]) == l[i].Abs()
  {
    var r := RelativeSteps(l);
    if i > 0 {
      RelativeStepsSum(l, i - 1);
      assert r[..i + 1][..i] == r[..i];
    } else {
      assert r[..1] == [0];
    }
  }

  // ---------------------------------------------------------------- ordering

  /**
   * `compareTo`: the note difference at the first position where the notes sound different;
   * otherwise the shorter list is smaller, by 2.
   */
  function CompareLists(a: seq<Pitch>, b: seq<Pitch>): int
  {
    if a == [] && b == [] then 0
    else if a == [] then -2
    else if b == [] then 2
    else if Compare(a[0], b[0]) != 0 then Compare(a[0], b[0])
    else CompareLists(a[1..], b[1..])
  }

  /** `equals`: `compareTo` is 0. */
  predicate Equal(a: seq<Pitch>, b: seq<Pitch>)
  {
    CompareLists(a, b) == 0
  }

  /** Lists are equal exactly when they have the same length and sound the same position by position. */
  lemma {:induction false} EqualMeaning(a: seq<Pitch>, b: seq<Pitch>)
    ensures Equal(a, b) <==> |a| == |b| && forall k :: 0 <= k < |a| ==> a[k].Abs() == b[k].Abs()
  {
    if a != [] && b != [] && Compare(a[0], b[0]) == 0 {
      EqualMeaning(a[1..], b[1..]);
      if |a| == |b| && forall k :: 0 <= k < |a[1..]| ==> a[1..][k].Abs() == b[1..][k].Abs() {
        forall k | 0 <= k < |a|
          ensures a[k].Abs() == b[k].Abs()
        {
          if k > 0 {
            assert a[k] == a[1..][k - 1] && b[k] == b[1..][k - 1];
          }
        }
      }
    }
  }

  /** A proper prefix is smaller by 2; the longer list is larger by 2. */
  lemma {:induction false} ComparePrefix(a: seq<Pitch>, b: seq<Pitch>)
    requires |a| < |b| && a == b[..|a|]
    ensures CompareLists(a, b) == -2 && CompareLists(b, a) == 2
  {
    if a != [] {
      assert b[1..][..|a| - 1] == a[1..];
      ComparePrefix(a[1..], b[1..]);
    }
  }

  /** The order is antisymmetric. */
  lemma {:induction false} CompareAntisymmetric(a: seq<Pitch>, b: seq<Pitch>)
    ensures CompareLists(a, b) == -CompareLists(b, a)
  {
    if a != [] && b != [] && Compare(a[0], b[0]) == 0 {
      CompareAntisymmetric(a[1..], b[1..]);
    }
  }

  // ---------------------------------------------------------------- text

  /** The printed notes, in order. */
  function Printed(l: seq<Pitch>): (ps: seq<string>)
    ensures |ps| == |l| && forall k :: 0 <= k < |l| ==> ps[k] == Notes.ToString(l[k])
  {
    if l == [] then []
    else
      var init := l[..|l| - 1];
      assert forall k :: 0 <= k < |init| ==> init[k] == l[k];
      Printed(init) + [Notes.ToString(l[|l| - 1])]
  }

  /** `toString`: the notes joined by `,`. */
  function ListToString(l: seq<Pitch>): string
  {
    Join(Printed(l), ',')
  }

  /** Each piece as a note; the first piece that is not one makes the whole parse throw. */
  function ParsePieces(pieces: seq<string>): Result<seq<Pitch>>
  {
    if pieces == [] then Ok([])
    else
      var init :- ParsePieces(pieces[..|pieces| - 1]);
      var last :- Notes.Parse(pieces[|pieces| - 1]);
      Ok(init + [last])
  }

  /**
   * The string constructor and `parse`: whitespace is removed, empty text throws, and the
   * rest is split on `,`, each piece read as a note (an empty piece throws too).
   */
  function ParseList(s: string): Result<seq<Pitch>>
  {
    var t := StripSpaces(s);
    if |t| < 1 then Err(IllegalArgument) else ParsePieces(Split(t, ","))
  }

  /** The constructor's loop over the pieces. */
  method ParseListString(s: string) returns (r: Result<seq<Pitch>>)
    ensures r == ParseList(s)
  {
    var t := StripSpaces(s);
    if |t| < 1 {
      return Err(IllegalArgument);
    }
    var pieces := Split(t, ",");
    var l: seq<Pitch> := [];
    for i := 0 to |pieces|
      invariant ParsePieces(pieces[..i]) == Ok(l)
    {
      var note := Notes.Parse(pieces[i]);
      if note.Err? {
        ParsePiecesFails(pieces, |pieces|, i);
        assert pieces[..|pieces|] == pieces;
        return Err(note.fault);
      }
      ParsePiecesStep(pieces, i, l);
      l := l + [note.value];
    }
    assert pieces[..|pieces|] == pieces;
    return Ok(l);
  }

  lemma ParsePiecesStep(pieces: seq<string>, i: nat, l: seq<Pitch>)
    requires i < |pieces| && ParsePieces(pieces[..i]) == Ok(l) && Notes.Parse(pieces[i]).Ok?
    ensures ParsePieces(pieces[..i + 1]) == Ok(l + [Notes.Parse(pieces[i]).value])
  {
    assert pieces[..i + 1][..i] == pieces[..i];
  }

  /** Once a piece fails, every longer prefix fails with that piece's fault. */
  lemma ParsePiecesFails(pieces: seq<string>, n: nat, i: nat)
    requires i < n <= |pieces|
    requires ParsePieces(pieces[..i]).Ok? && Notes.Parse(pieces[i]).Err?
    ensures ParsePieces(pieces[..n]) == Err(Notes.Parse(pieces[i]).fault)
  {
    assert pieces[..i + 1][..i] == pieces[..i] && pieces[..i + 1][i] == pieces[i];
    ParsePiecesErrKept(pieces, i + 1, n);
  }

  /** A failed prefix stays failed, with the same fault, however many pieces follow. */
  lemma {:induction false} ParsePiecesErrKept(pieces: seq<string>, m: nat, n: nat)
    requires m <= n <= |pieces| && ParsePieces(pieces[..m]).Err?
    ensures ParsePieces(pieces[..n]) == ParsePieces(pieces[..m])
    decreases n - m
  {
    if m < n {
      assert pieces[..m + 1][..m] == pieces[..m];
      ParsePiecesErrKept(pieces, m + 1, n);
    }
  }

  /** Notes `toString` prints as they are and `parse` reads back. */
  predicate Printable(l: seq<Pitch>)
  {
    forall k :: 0 <= k < |l| ==> l[k].Normalized() && INT_MIN <= l[k].octave <= INT_MAX
  }

  /** A printed note holds neither whitespace nor a comma. */
  lemma PrintedNoteFree(p: Pitch)
    requires p.Normalized()
    ensures Notes.ToString(p) != [] && Free(Notes.ToString(p), ",")
    ensures forall i :: 0 <= i < |Notes.ToString(p)| ==> !IsSpace(Notes.ToString(p)[i])
  {
    NameOfShape(p.value);
    ToStringHasNoSpaces(p);
    var name := NameOf(p.value);
    var suffix := if p.octave != 0 then IntToString(p.octave) else "";
    IntToStringFree(p.octave, ",");
    var t := name + suffix;
    forall i | 0 <= i < |t|
      ensures t[i] !in ","
    {
      if i >= |name| {
        assert t[i] == suffix[i - |name|];
      }
    }
  }

  lemma {:induction false} ParsePrinted(l: seq<Pitch>)
    requires Printable(l)
    ensures ParsePieces(Printed(l)) == Ok(l)
  {
    if l != [] {
      var n := |l| - 1;
      var init, last := l[..n], l[n];
      assert l == init + [last];
      assert Printable(init) by {
        forall k | 0 <= k < |init| ensures init[k].Normalized() && INT_MIN <= init[k].octave <= INT_MAX {
          assert init[k] == l[k];
        }
      }
      var ps := Printed(l);
      assert ps == Printed(init) + [Notes.ToString(last)];
      assert ps[..n] == Printed(init) && ps[n] == Notes.ToString(last);
      ParsePrinted(init);
      Notes.ParseToString(last);
    }
  }

  lemma PrintedFree(l: seq<Pitch>)
    requires Printable(l)
    ensures forall k :: 0 <= k < |l| ==> Printed(l)[k] != [] && Free(Printed(l)[k], ",")
    ensures forall k :: 0 <= k < |l| ==> forall i :: 0 <= i < |Printed(l)[k]| ==> !IsSpace(Printed(l)[k][i])
  {
    forall k | 0 <= k < |l|
      ensures Printed(l)[k] != [] && Free(Printed(l)[k], ",")
      ensures forall i :: 0 <= i < |Printed(l)[k]| ==> !IsSpace(Printed(l)[k][i])
    {
      PrintedNoteFree(l[k]);
    }
  }

  lemma JoinNonEmpty(parts: seq<string>)
    requires parts != [] && parts[0] != []
    ensures |Join(parts, ',')| >= 1
  {
  }

  lemma {:induction false} JoinHasNoSpaces(parts: seq<string>)
    requires forall k :: 0 <= k < |parts| ==> forall i :: 0 <= i < |parts[k]| ==> !IsSpace(parts[k][i])
    ensures forall i :: 0 <= i < |Join(parts, ',')| ==> !IsSpace(Join(parts, ',')[i])
  {
    if |parts| > 1 {
      JoinHasNoSpaces(parts[1..]);
      var rest := Join(parts[1..], ',');
      var j := parts[0] + [','] + rest;
      forall i | 0 <= i < |j|
        ensures !IsSpace(j[i])
      {
        if i > |parts[0]| {
          assert j[i] == rest[i - |parts[0]| - 1];
        }
      }
    }
  }

  /**
   * `parse` reads back what `toString` printed, for any non-empty list of normalized notes
   * (the empty list prints as empty text, which `parse` refuses).
   */
  lemma ParseToString(l: seq<Pitch>)
    requires Printable(l)
    ensures l != [] ==> ParseList(ListToString(l)) == Ok(l)
    ensures l == [] ==> ParseList(ListToString(l)) == Err(IllegalArgument)
  {
    var ps := Printed(l);
    PrintedFree(l);
    JoinHasNoSpaces(ps);
    var t := Join(ps, ',');
    StripClean(t);
    if l != [] {
      SplitJoin(ps, ',', ",");
      ParsePrinted(l);
      JoinNonEmpty(ps);
    }
  }

  /** Empty and whitespace-only text is refused. */
  lemma ParseBlankRefused(s: string)
    requires forall i :: 0 <= i < |s| ==> IsSpace(s[i])
    ensures ParseList(s) == Err(IllegalArgument)
  {
    StripBlank(s);
  }

  // ---------------------------------------------------------------- the list

  /** A `NoteList`: the list field, rewritten by `setRelative` and shifted in place by the updates. */
  class NoteList {
    var notes: seq<Pitch>

    /** `NoteList()`. */
    constructor ()
      ensures notes == []
    {
      notes := [];
    }

    /** The copy constructors: a deep copy of the notes, in order, each one normalized by `new Note`. */
    constructor Of(other: seq<Pitch>)
      ensures notes == Copied(other)
    {
      var copy := [];
      for i := 0 to |other|
        invariant copy == Copied(other[..i])
      {
        assert other[..i + 1][..i] == other[..i];
        copy := copy + [Normal(other[i])];
      }
      assert other[..|other|] == other;
      notes := copy;
    }

    /** `setRelative(first, formula)`: the notes of the formula over `first`; on an unknown token, empty. */
    method SetRelative(first: Pitch, formula: string) returns (st: Status)
      modifies this
      ensures Relative(first, formula).Ok? ==> st == Done && notes == Relative(first, formula).value
      ensures Relative(first, formula).Err? ==> st == Failed(Relative(first, formula).fault) && notes == []
    {
      notes := [];
      var intervals := Intervals.GetIntervalsOf(formula);
      if intervals.Err? {
        return Failed(intervals.fault);
      }
      var ivs := intervals.value;
      for i := 0 to |ivs|
        invariant notes == OverRoot(first, ivs[..i])
      {
        assert ivs[..i + 1][..i] == ivs[..i];
        notes := notes + [Plus(first, Intervals.Value(ivs[i]))];
      }
      assert ivs[..|ivs|] == ivs;
      return Done;
    }

    /** `updateRelative(int)`: every note moved by `interval`, in place. */
    method UpdateRelative(interval: int)
      modifies this
      ensures notes == UpdatedRelative(old(notes), interval)
    {
      if |notes| == 0 || interval == 0 {
        return;
      }
      ghost var start := notes;
      for i := 0 to |notes|
        invariant |notes| == |start|
        invariant forall k :: 0 <= k < |start| ==> notes[k] == if k < i then Plus(start[k], interval) else start[k]
      {
        notes := notes[i := Plus(notes[i], interval)];
      }
      assert notes == Shifted(start, interval);
    }

    /** `updateRelative(Note)`: every note moved by the absolute value of `interval`. */
    method UpdateRelativeNote(interval: Pitch)
      modifies this
      ensures notes == UpdatedRelative(old(notes), interval.Abs())
    {
      if |notes| == 0 {
        return;
      }
      UpdateRelative(interval.Abs());
    }

    /** `updateAbsolute(root)`: the list moved so that its first note lands on `root`. */
    method UpdateAbsolute(root: Pitch)
      modifies this
      ensures notes == UpdatedAbsolute(old(notes), root)
    {
      if |notes| == 0 {
        return;
      }
      var distance := Compare(root, notes[0]);
      UpdateRelative(distance);
    }

    /** `getAbsoluteIntervals`: a moved copy, leaving this list as it is. */
    method GetAbsoluteIntervals() returns (r: Option<seq<Pitch>>)
      ensures r == AbsoluteIntervals(notes)
    {
      if |notes| == 0 {
        return None;
      }
      var intervals := new NoteList.Of(notes);
      intervals.UpdateRelative(-notes[0].Abs());
      return Some(intervals.notes);
    }

    /** `getRelativeIntervals`: fills an array with each note's distance from the one before; an empty list throws. */
    method GetRelativeIntervals() returns (r: Result<array<int>>)
      ensures notes == [] ==> r == Err(IndexOutOfBounds)
      ensures notes != [] ==> r.Ok? && fresh(r.value) && r.value[..] == RelativeSteps(notes)
    {
      if |notes| == 0 {
        return Err(IndexOutOfBounds);
      }
      var intervals := new int[|notes|];
      var previous := notes[0].Abs();
      for i := 0 to |notes|
        invariant previous == notes[if i == 0 then 0 else i - 1].Abs()
        invariant forall k :: 0 <= k < i ==> intervals[k] == RelativeSteps(notes)[k]
      {
        intervals[i] := notes[i].Abs() - previous;
        previous := notes[i].Abs();
      }
      return Ok(intervals);
    }
  }

  // ---------------------------------------------------------------- an example

  lemma MajorTriadTokens()
    ensures Intervals.DelimiterFor("R-3-5") == "-"
    ensures Tokens("R-3-5", "-") == ["R", "3", "5"]
  {
    assert "R-3-5"[1] == '-';
    assert "R-3-5" == "R" + ['-'] + "3" + ['-'] + "5";
    TokensThree("R", '-', "3", '-', "5", "-");
  }

  lemma MajorTriadIntervals()
    ensures Intervals.Resolved(["R", "3", "5"]) == Ok([Intervals.root, Intervals.third, Intervals.fifth])
  {
    var ts := ["R", "3", "5"];
    Intervals.ResolvedMeaning(ts);
    assert Intervals.Resolve(ts[0]) == Ok(Intervals.root);
    assert Intervals.Resolve(ts[1]) == Ok(Intervals.third);
    assert Intervals.Resolve(ts[2]) == Ok(Intervals.fifth);
    var r := Intervals.Resolved(ts).value;
    assert r == [Intervals.root, Intervals.third, Intervals.fifth] by {
      assert |r| == 3 && r[0] == Intervals.root && r[1] == Intervals.third && r[2] == Intervals.fifth;
    }
  }

  /** A root with three intervals of 0, 4 and 7 semitones that stay inside its octave. */
  lemma TriadOver(root: Pitch, ivs: seq<Intervals.Interval>)
    requires root.Normalized() && root.value + 7 < 12
    requires |ivs| == 3 && Intervals.Value(ivs[0]) == 0 && Intervals.Value(ivs[1]) == 4 && Intervals.Value(ivs[2]) == 7
    ensures OverRoot(root, ivs) == [root, Pitch(root.octave, root.value + 4), Pitch(root.octave, root.value + 7)]
  {
    var r := OverRoot(root, ivs);
    NormalizedByAbs(r[0], root);
    NormalizedByAbs(r[1], Pitch(root.octave, root.value + 4));
    NormalizedByAbs(r[2], Pitch(root.octave, root.value + 7));
  }

  lemma MajorTriadNotes()
    ensures OverRoot(Pitch(0, 0), [Intervals.root, Intervals.third, Intervals.fifth]) == [Pitch(0, 0), Pitch(0, 4), Pitch(0, 7)]
  {
    var ivs := [Intervals.root, Intervals.third, Intervals.fifth];
    assert Intervals.Value(ivs[0]) == 0;
    assert Intervals.Value(ivs[1]) == 4;
    assert Intervals.Value(ivs[2]) == 7;
    TriadOver(Pitch(0, 0), ivs);
  }

  /** `new NoteList(C, "R-3-5")` holds C, E and G. */
  lemma MajorTriad()
    ensures Relative(Pitch(0, 0), "R-3-5") == Ok([Pitch(0, 0), Pitch(0, 4), Pitch(0, 7)])
  {
    MajorTriadTokens();
    MajorTriadIntervals();
    MajorTriadNotes();
  }
}
