/**
 * Notes: an octave and a pitch class (`value`, 0 = C .. 11 = B once normalized),
 * with absolute value `12 * octave + value` semitones above C0.
 */
module Notes {
  import opened Outcomes
  import opened JavaText

  /** The state of a `Note`, as a value. */
  datatype Pitch = Pitch(octave: int, value: int)
  {
    /** `getAbsoluteValue`. */
    function Abs(): int
    {
      12 * octave + value
    }

    /** The pitch class lies in [0, 12). */
    predicate Normalized()
    {
      0 <= value < 12
    }
  }

  /** What `normalize` makes of a pitch: the same absolute value, the pitch class moved into [0, 12). */
  function Normal(p: Pitch): (q: Pitch)
    ensures q.Normalized() && q.Abs() == p.Abs()
  {
    Pitch(p.octave + p.value / 12, p.value % 12)
  }

  /** A normalized pitch is determined by its absolute value. */
  lemma NormalizedByAbs(p: Pitch, q: Pitch)
    requires p.Normalized() && q.Normalized() && p.Abs() == q.Abs()
    ensures p == q
  {
    assert 12 * (p.octave - q.octave) == q.value - p.value;
  }

  /** `normalize` returns a normalized pitch unchanged. */
  lemma NormalOfNormalized(p: Pitch)
    requires p.Normalized()
    ensures Normal(p) == p
  {
    NormalizedByAbs(Normal(p), p);
  }

  /** Static `plus(one, interval)`: a normalized copy moved up by `k` semitones. */
  function Plus(p: Pitch, k: int): (q: Pitch)
    ensures q.Normalized() && q.Abs() == p.Abs() + k
  {
    Normal(Pitch(p.octave, p.value + k))
  }

  /** Static `minus(one, interval)`: a normalized copy moved down by `k` semitones. */
  function Minus(p: Pitch, k: int): (q: Pitch)
    ensures q.Normalized() && q.Abs() == p.Abs() - k
  {
    Normal(Pitch(p.octave, p.value - k))
  }

  /** Static `plus(one, other)`: octaves and values added, then normalized. */
  function PlusPitch(a: Pitch, b: Pitch): (q: Pitch)
    ensures q.Normalized() && q.Abs() == a.Abs() + b.Abs()
  {
    Normal(Pitch(a.octave + b.octave, a.value + b.value))
  }

  /** Static `minus(one, other)`: octaves and values subtracted, then normalized. */
  function MinusPitch(a: Pitch, b: Pitch): (q: Pitch)
    ensures q.Normalized() && q.Abs() == a.Abs() - b.Abs()
  {
    Normal(Pitch(a.octave - b.octave, a.value - b.value))
  }

  /** `compareTo`: the difference of the absolute values. */
  function Compare(a: Pitch, b: Pitch): int
  {
    a.Abs() - b.Abs()
  }

  /** Moving down undoes moving up. */
  lemma MinusUndoesPlus(p: Pitch, k: int)
    ensures Minus(Plus(p, k), k) == Normal(p)
  {
    NormalizedByAbs(Minus(Plus(p, k), k), Normal(p));
  }

  /** On normalized pitches `equals` (same octave and value) holds iff `compareTo` is 0, and the order is antisymmetric. */
  lemma CompareMeaning(a: Pitch, b: Pitch)
    requires a.Normalized() && b.Normalized()
    ensures a == b <==> Compare(a, b) == 0
    ensures Compare(a, b) == -Compare(b, a)
  {
    if Compare(a, b) == 0 {
      NormalizedByAbs(a, b);
    }
  }

  // ---------------------------------------------------------------- names

  /** `Name.getName(value).getName()`: the sharp name of Java's `value % 12`, C when that is negative. */
  function NameOf(value: int): string
  {
    match Rem(value, 12)
    case 0 => "C"
    case 1 => "C#"
    case 2 => "D"
    case 3 => "D#"
    case 4 => "E"
    case 5 => "F"
    case 6 => "F#"
    case 7 => "G"
    case 8 => "G#"
    case 9 => "A"
    case 10 => "A#"
    case 11 => "B"
    case _ => "C"
  }

  /** `toString`: the sharp name, then the octave when it is not 0. */
  function ToString(p: Pitch): string
  {
    NameOf(p.value) + (if p.octave != 0 then IntToString(p.octave) else "")
  }

  /**
   * `"cXdXefXgXaXb".indexOf(letter)` for a lower-cased letter: the pitch class of the
   * natural note, -1 for anything else (a lower-cased character is never `X`).
   */
  function LetterValue(c: char): int
  {
    if c == 'c' then 0 else if c == 'd' then 2 else if c == 'e' then 4 else if c == 'f' then 5
    else if c == 'g' then 7 else if c == 'a' then 9 else if c == 'b' then 11 else -1
  }

  const Flats: string := "b\U{266D}"
  const Sharps: string := "s#\U{266F}"
  const Naturals: string := "n\U{266E}"

  /** How far an accidental character (already lower-cased) moves the letter. */
  function Shift(accidental: char): int
  {
    if accidental in Flats then -1 else if accidental in Sharps then 1 else 0
  }

  /** Whether the character after the letter is an accidental, which the octave then follows. */
  predicate IsAccidental(accidental: char)
  {
    accidental in Flats || accidental in Sharps || accidental in Naturals
  }

  /** The string constructor and `parse`: letter, optional accidental, optional octave; whitespace is ignored. */
  function Parse(s: string): Result<Pitch>
  {
    ParseText(StripSpaces(s))
  }

  /** `Parse` once the whitespace is gone. */
  function ParseText(t: string): Result<Pitch>
  {
    if |t| < 1 then Err(IllegalArgument)
    else
      var letter := LetterValue(Lower(t[0]));
      if letter == -1 then Err(IllegalArgument)
      else if |t| == 1 then Ok(Normal(Pitch(0, letter)))
      else
        var accidental := Lower(t[1]);
        var value := letter + Shift(accidental);
        var octaveString := t[if IsAccidental(accidental) then 2 else 1..];
        if |octaveString| == 0 then Ok(Normal(Pitch(0, value)))
        else match ParseInt(octaveString)
          case None => Err(NumberFormat)
          case Some(octave) => Ok(Normal(Pitch(octave, value)))
  }

  /** The sharp names: a capital letter whose natural pitch class is the pitch class, then `#` for a sharp. */
  lemma NameOfShape(v: int)
    requires 0 <= v < 12
    ensures var name := NameOf(v);
      && 1 <= |name| <= 2
      && 'A' <= name[0] <= 'G'
      && (|name| == 2 ==> name[1] == '#')
      && LetterValue(Lower(name[0])) + |name| - 1 == v
  {
  }

  /** `toString` prints no whitespace. */
  lemma ToStringHasNoSpaces(p: Pitch)
    requires p.Normalized()
    ensures StripSpaces(ToString(p)) == ToString(p)
  {
    NameOfShape(p.value);
    var name := NameOf(p.value);
    var suffix := if p.octave != 0 then IntToString(p.octave) else "";
    var t := name + suffix;
    assert forall i :: 0 <= i < |t| ==> !IsSpace(t[i]) by {
      forall i | 0 <= i < |t|
        ensures !IsSpace(t[i])
      {
        if i >= |name| {
          assert t[i] == suffix[i - |name|];
        }
      }
    }
    StripClean(t);
  }

  /** Parsing what `toString` prints gives the note back. */
  lemma ParseToString(p: Pitch)
    requires p.Normalized() && INT_MIN <= p.octave <= INT_MAX
    ensures Parse(ToString(p)) == Ok(p)
  {
    NameOfShape(p.value);
    ToStringHasNoSpaces(p);
    ParseShaped(NameOf(p.value), p);
  }

  /** A letter, an optional `#`, then the octave unless it is 0, parse back as the note they spell. */
  lemma ParseShaped(name: string, p: Pitch)
    requires p.Normalized() && INT_MIN <= p.octave <= INT_MAX
    requires 1 <= |name| <= 2 && 'A' <= name[0] <= 'G' && (|name| == 2 ==> name[1] == '#')
    requires LetterValue(Lower(name[0])) + |name| - 1 == p.value
    ensures ParseText(name + (if p.octave != 0 then IntToString(p.octave) else "")) == Ok(p)
  {
    NormalOfNormalized(p);
    var letter := LetterValue(Lower(name[0]));
    SharpIsAccidental();
    if p.octave != 0 {
      var digits := IntToString(p.octave);
      ParseIntToString(p.octave);
      var t := name + digits;
      if |name| == 2 {
        assert t[0] == name[0] && t[1] == '#' && t[2..] == digits;
        assert ParseText(t) == Ok(Normal(Pitch(p.octave, letter + 1)));
      } else {
        assert t[0] == name[0] && t[1] == digits[0] && t[1..] == digits;
        SignNotAccidental(digits[0]);
        assert ParseText(t) == Ok(Normal(Pitch(p.octave, letter)));
      }
    } else {
      assert name + "" == name;
      if |name| == 2 {
        assert name[1] == '#' && name[2..] == [];
        assert ParseText(name) == Ok(Normal(Pitch(p.octave, letter + 1)));
      }
    }
  }

  lemma SharpIsAccidental()
    ensures Lower('#') == '#' && Shift('#') == 1 && IsAccidental('#')
  {
  }

  /** The first character of a printed number is no accidental. */
  lemma SignNotAccidental(c: char)
    requires IsDigit(c) || c == '-'
    ensures Lower(c) == c && Shift(c) == 0 && !IsAccidental(c)
  {
  }

  /** A flat spelled with an octave (the parser reads "Eb4" as D#4). */
  lemma ParseFlatExample()
    ensures Parse("Eb4") == Ok(Pitch(4, 3))
  {
    assert StripSpaces("Eb4") == "Eb4";
    assert ParseInt("4") == Some(4);
  }

  /** Whitespace anywhere is dropped and `s` spells a sharp. */
  lemma ParseSpacedExample()
    ensures Parse("   F s    ") == Ok(Pitch(0, 6))
  {
    StripSpacedExample();
    FSharpText();
  }

  lemma StripSpacedExample()
    ensures StripSpaces("   F s    ") == "Fs"
  {
  }

  lemma FSharpText()
    ensures ParseText("Fs") == Ok(Pitch(0, 6))
  {
    var t := "Fs";
    assert LetterValue(Lower(t[0])) + Shift(Lower(t[1])) == 6;
    assert IsAccidental(Lower(t[1]));
    LetterWithAccidental(t);
    NormalOfNormalized(Pitch(0, 6));
  }

  /** A letter and an accidental with nothing after them: the octave is 0. */
  lemma LetterWithAccidental(t: string)
    requires |t| == 2 && LetterValue(Lower(t[0])) != -1 && IsAccidental(Lower(t[1]))
    ensures ParseText(t) == Ok(Normal(Pitch(0, LetterValue(Lower(t[0])) + Shift(Lower(t[1])))))
  {
  }

  /** A flat below C carries into the octave below. */
  lemma ParseCarryExample()
    ensures Parse("Cb") == Ok(Pitch(-1, 11))
  {
    assert StripSpaces("Cb") == "Cb";
    CFlatText();
  }

  /** A letter flattened below C carries into the octave below. */
  lemma LetterBelowC(t: string)
    requires |t| == 2 && LetterValue(Lower(t[0])) != -1 && IsAccidental(Lower(t[1]))
    requires LetterValue(Lower(t[0])) + Shift(Lower(t[1])) < 0
    ensures ParseText(t) == Ok(Pitch(-1, LetterValue(Lower(t[0])) + Shift(Lower(t[1])) + 12))
  {
    var v := LetterValue(Lower(t[0])) + Shift(Lower(t[1]));
    LetterWithAccidental(t);
    NormalizedByAbs(Normal(Pitch(0, v)), Pitch(-1, v + 12));
  }

  /** A C with a flat sign reads as the B an octave below. */
  lemma FlatC(t: string)
    requires |t| == 2 && Lower(t[0]) == 'c' && Lower(t[1]) == 'b'
    ensures ParseText(t) == Ok(Pitch(-1, 11))
  {
    assert LetterValue(Lower(t[0])) + Shift(Lower(t[1])) == -1;
    LetterBelowC(t);
  }

  lemma CFlatText()
    ensures ParseText("Cb") == Ok(Pitch(-1, 11))
  {
    var t := "Cb";
    assert t[0] == 'C' && t[1] == 'b';
    assert Lower('C') == 'c' && Lower('b') == 'b';
    FlatC(t);
  }

  /** Empty, blank and non-note input is refused. */
  lemma ParseRefusals()
    ensures Parse("") == Err(IllegalArgument)
    ensures Parse(" ") == Err(IllegalArgument)
    ensures Parse(",") == Err(IllegalArgument)
  {
    assert StripSpaces(" ") == "";
    assert StripSpaces(",") == ",";
  }

  // ---------------------------------------------------------------- qualities

  /** The quality names `getQualityName` chooses, indexed by semitones above the root. */
  const QualityNames: seq<string> := ["R", "m2", "2", "b3", "3", "4", "b5", "5", "m6", "6", "b7", "7"]

  /** Static `getQualityName`: the name of the pitch-class distance from the root, octaves ignored. */
  method QualityName(current: Pitch, root: Pitch) returns (name: string)
    ensures name == QualityNames[(current.value - root.value) % 12]
  {
    var steps := current.value - root.value;
    ghost var turns := 0;
    while steps < 0
      invariant steps == current.value - root.value + 12 * turns
      decreases -steps
    {
      steps := steps + 12;
      turns := turns + 1;
    }
    while steps >= |QualityNames|
      invariant 0 <= steps && steps == current.value - root.value + 12 * turns
      decreases steps
    {
      steps := steps - 12;
      turns := turns - 1;
    }
    name := QualityNames[steps];
  }

  /** A mutable note: the instance `plus`/`minus` change it in place and re-normalize. */
  class Note {
    var octave: int
    var value: int

    function AsPitch(): Pitch
      reads this
    {
      Pitch(octave, value)
    }

    /** `Note()`: C0. */
    constructor ()
      ensures AsPitch() == Pitch(0, 0)
    {
      octave := 0;
      value := 0;
    }

    /** `Note(octave, value)`. */
    constructor Of(octave: int, value: int)
      ensures AsPitch() == Normal(Pitch(octave, value))
    {
      this.octave := octave;
      this.value := value;
      new;
      Normalize();
    }

    /** `Note(interval)`: octave 0 plus a number of semitones. */
    constructor Steps(interval: int)
      ensures AsPitch() == Normal(Pitch(0, interval))
    {
      octave := 0;
      value := interval;
      new;
      Normalize();
    }

    /** `Note(other)`: a normalized copy. */
    constructor Copy(other: Note)
      ensures AsPitch() == Normal(other.AsPitch())
    {
      octave := other.octave;
      value := other.value;
      new;
      Normalize();
    }

    /** `normalize`: steps the value into [0, 12), carrying into the octave. */
    method Normalize()
      modifies this
      ensures AsPitch() == Normal(old(AsPitch()))
    {
      while value >= 12
        invariant 12 * octave + value == old(AsPitch().Abs())
        decreases value
      {
        octave := octave + 1;
        value := value - 12;
      }
      while value < 0
        invariant value < 12 && 12 * octave + value == old(AsPitch().Abs())
        decreases -value
      {
        octave := octave - 1;
        value := value + 12;
      }
      NormalizedByAbs(AsPitch(), Normal(old(AsPitch())));
    }

    /** Instance `plus(int)`: 0 leaves the note as it is; otherwise add and normalize. */
    method PlusSteps(interval: int)
      modifies this
      ensures interval == 0 ==> AsPitch() == old(AsPitch())
      ensures interval != 0 ==> AsPitch() == Plus(old(AsPitch()), interval)
    {
      if interval == 0 {
        return;
      }
      value := value + interval;
      Normalize();
    }

    /** Instance `minus(int)`: 0 leaves the note as it is; otherwise subtract and normalize. */
    method MinusSteps(interval: int)
      modifies this
      ensures interval == 0 ==> AsPitch() == old(AsPitch())
      ensures interval != 0 ==> AsPitch() == Minus(old(AsPitch()), interval)
    {
      if interval == 0 {
        return;
      }
      value := value - interval;
      Normalize();
    }

    /** Instance `plus(Note)`: octaves and values added, then normalized. */
    method PlusNote(other: Note)
      modifies this
      ensures AsPitch() == PlusPitch(old(AsPitch()), old(other.AsPitch()))
    {
      ghost var a, b := AsPitch(), other.AsPitch();
      var otherOctave, otherValue := other.octave, other.value;
      octave := octave + otherOctave;
      value := value + otherValue;
      ghost var d := AsPitch();
      assert d == Pitch(a.octave + b.octave, a.value + b.value);
      Normalize();
      assert AsPitch() == Normal(d);
    }

    /** Instance `minus(Note)`: octaves and values subtracted, then normalized. */
    method MinusNote(other: Note)
      modifies this
      ensures AsPitch() == MinusPitch(old(AsPitch()), old(other.AsPitch()))
    {
      ghost var a, b := AsPitch(), other.AsPitch();
      var otherOctave, otherValue := other.octave, other.value;
      octave := octave - otherOctave;
      value := value - otherValue;
      ghost var d := AsPitch();
      assert d == Pitch(a.octave - b.octave, a.value - b.value);
      Normalize();
      assert AsPitch() == Normal(d);
    }

    /** Static `plus(one, interval)`: a fresh note; `one` is left alone. */
    static method PlusOf(one: Note, interval: int) returns (n: Note)
      ensures fresh(n) && n.AsPitch() == Plus(one.AsPitch(), interval)
    {
      ghost var p := one.AsPitch();
      n := new Note.Copy(one);
      n.PlusSteps(interval);
      if interval == 0 {
        assert n.AsPitch() == Normal(p);
        NormalizedByAbs(Normal(p), Plus(p, 0));
      }
    }

    /** Static `minus(one, interval)`: a fresh note; `one` is left alone. */
    static method MinusOf(one: Note, interval: int) returns (n: Note)
      ensures fresh(n) && n.AsPitch() == Minus(one.AsPitch(), interval)
    {
      ghost var p := one.AsPitch();
      n := new Note.Copy(one);
      n.MinusSteps(interval);
      if interval == 0 {
        assert n.AsPitch() == Normal(p);
        NormalizedByAbs(Normal(p), Minus(p, 0));
      }
    }

    /** `getQuality`: semitones from the root's pitch class up to this one, octaves ignored. */
    method Quality(root: Note) returns (q: int)
      ensures root.value > value ==> 0 <= q < 12 && q == (value - root.value) % 12
      ensures root.value <= value ==> q == value - root.value
      ensures AsPitch().Normalized() && root.AsPitch().Normalized() ==> 0 <= q < 12 && q == (value - root.value) % 12
    {
      var thisValue := value;
      var rootValue := root.value;
      ghost var turns := 0;
      while rootValue > thisValue
        invariant rootValue == root.value - 12 * turns && turns >= 0
        invariant turns > 0 ==> rootValue > thisValue - 12
        decreases rootValue - thisValue
      {
        rootValue := rootValue - 12;
        turns := turns + 1;
      }
      q := thisValue - rootValue;
    }
  }
}
