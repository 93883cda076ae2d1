/**
 * A place on the fretboard: a string (0 is the lowest) and a fret (0 is the nut),
 * ordered and hashed by the packed key `101 * string + fret`.
 */
module Locations {
  import opened Outcomes
  import opened JavaText
  import opened Notes
  import opened GuitarStrings

  /** The coordinates of a `Location`, as a value. */
  datatype Loc = Loc(str: int, fret: int)
  {
    /** `absoluteValue`: the packed key behind `hashCode`, `equals` and `compareTo`. */
    function Key(): int
    {
      101 * str + fret
    }
  }

  /** Two keys are equal exactly for equal coordinates while frets stay in [0, 100]. */
  lemma KeyInjective(a: Loc, b: Loc)
    requires 0 <= a.fret <= 100 && 0 <= b.fret <= 100
    ensures a.Key() == b.Key() <==> a == b
  {
    if a.Key() == b.Key() {
      assert 101 * (a.str - b.str) == b.fret - a.fret;
    }
  }

  /** Beyond fret 100 different locations share a key, so `equals` confuses them. */
  lemma KeyCollision()
    ensures Loc(0, 101).Key() == Loc(1, 0).Key()
  {
  }

  /** Orders locations by key: lower strings first, then lower frets. */
  lemma KeyOrder(a: Loc, b: Loc)
    requires 0 <= a.fret <= 100 && 0 <= b.fret <= 100
    ensures a.Key() < b.Key() <==> a.str < b.str || (a.str == b.str && a.fret < b.fret)
  {
    if a.str < b.str {
      assert 101 * (b.str - a.str) >= 101;
    } else if a.str > b.str {
      assert 101 * (a.str - b.str) >= 101;
    }
  }

  // ---------------------------------------------------------------- text

  /** The class `[\s\-"]` that `parseString` splits on. */
  const Delims: string := " \t\n\U{000B}\U{000C}\r-\""

  /** `toString`: `string-fret`. */
  function ToString(l: Loc): string
  {
    IntToString(l.str) + "-" + IntToString(l.fret)
  }

  /**
   * What the `parseString` loop makes of the non-empty pieces: the first two are the
   * string and the fret; a piece that is not a number throws as soon as it is read,
   * a third piece throws, and fewer than two throw at the end.
   */
  function ParseFields(t: seq<string>): Result<Loc>
  {
    if |t| == 0 then Err(IllegalArgument)
    else match ParseInt(t[0])
      case None => Err(NumberFormat)
      case Some(stringi) =>
        if |t| == 1 then Err(IllegalArgument)
        else match ParseInt(t[1])
          case None => Err(NumberFormat)
          case Some(freti) => if |t| > 2 then Err(IllegalArgument) else Ok(Loc(stringi, freti))
  }

  /** `parseString`: empty text, or fewer than two pieces after the split, throws before the loop. */
  function Parse(s: string): Result<Loc>
  {
    if |s| < 1 then Err(IllegalArgument)
    else
      var values := Split(s, Delims);
      if |values| < 2 then Err(IllegalArgument)
      else ParseFields(NonEmpty(values))
  }

  /** What reading the non-empty piece `values[i]` settles about the whole parse. */
  lemma ParseFieldsAt(values: seq<string>, i: int)
    requires 0 <= i < |values| && values[i] != []
    ensures var t := NonEmpty(values[..i]);
      && (|t| == 0 && ParseInt(values[i]).None? ==> ParseFields(NonEmpty(values)) == Err(NumberFormat))
      && (|t| == 1 && ParseInt(t[0]).Some? && ParseInt(values[i]).None? ==>
            ParseFields(NonEmpty(values)) == Err(NumberFormat))
      && (|t| == 2 && ParseInt(t[0]).Some? && ParseInt(t[1]).Some? ==>
            ParseFields(NonEmpty(values)) == Err(IllegalArgument))
  {
    var t := NonEmpty(values[..i]);
    var whole := t + [values[i]] + NonEmpty(values[i + 1..]);
    NonEmptySnoc(values, i);
    assert values == values[..i + 1] + values[i + 1..];
    NonEmptyConcat(values[..i + 1], values[i + 1..]);
    assert NonEmpty(values) == whole;
    if |t| == 0 {
      assert whole[0] == values[i];
    } else if |t| == 1 {
      assert whole[0] == t[0] && whole[1] == values[i];
    } else if |t| == 2 {
      assert whole[0] == t[0] && whole[1] == t[1] && |whole| > 2;
    }
  }

  /** The `parseString` loop, with its `params` counter. */
  method ParseString(s: string) returns (r: Result<Loc>)
    ensures r == Parse(s)
  {
    if |s| < 1 {
      return Err(IllegalArgument);
    }
    var values := Split(s, Delims);
    if |values| < 2 {
      return Err(IllegalArgument);
    }
    var params := 0;
    var stringi := 0;
    var freti := 0;
    for i := 0 to |values|
      invariant var t := NonEmpty(values[..i]);
        && params == |t| <= 2
        && (params >= 1 ==> ParseInt(t[0]) == Some(stringi))
        && (params == 2 ==> ParseInt(t[1]) == Some(freti))
    {
      NonEmptySnoc(values, i);
      if values[i] != [] {
        ParseFieldsAt(values, i);
        var parsed := ParseInt(values[i]);
        if params == 0 {
          if parsed.None? {
            return Err(NumberFormat);
          }
          stringi := parsed.value;
          params := params + 1;
        } else if params == 1 {
          if parsed.None? {
            return Err(NumberFormat);
          }
          freti := parsed.value;
          params := params + 1;
        } else {
          return Err(IllegalArgument);
        }
      }
    }
    assert values[..|values|] == values;
    ParseFieldsEnd(NonEmpty(values), stringi, freti);
    if params < 2 {
      return Err(IllegalArgument);
    }
    return Ok(Loc(stringi, freti));
  }

  /** What is left once every piece has been read: fewer than two throw, two are the location. */
  lemma ParseFieldsEnd(t: seq<string>, stringi: int, freti: int)
    requires |t| <= 2
    requires |t| >= 1 ==> ParseInt(t[0]) == Some(stringi)
    requires |t| == 2 ==> ParseInt(t[1]) == Some(freti)
    ensures |t| < 2 ==> ParseFields(t) == Err(IllegalArgument)
    ensures |t| == 2 ==> ParseFields(t) == Ok(Loc(stringi, freti))
  {
  }

  /** `parseString` reads back what `toString` printed, for coordinates that are not negative. */
  lemma ParseToString(l: Loc)
    requires 0 <= l.str <= INT_MAX && 0 <= l.fret <= INT_MAX
    ensures Parse(ToString(l)) == Ok(l)
  {
    var a, b := IntToString(l.str), IntToString(l.fret);
    NatToStringFree(l.str, Delims);
    NatToStringFree(l.fret, Delims);
    assert ToString(l) == Join([a, b], '-');
    SplitJoin([a, b], '-', Delims);
    assert NonEmpty([a, b]) == [a, b] by {
      assert [a, b][1..] == [b];
    }
    ParseIntToString(l.str);
    ParseIntToString(l.fret);
  }

  /** Empty and blank text are refused. */
  lemma ParseBlank()
    ensures Parse("") == Err(IllegalArgument)
    ensures Parse(" ") == Err(IllegalArgument)
  {
    assert " " == "" + [' '] + "";
    FieldsConcat("", ' ', "", Delims);
    FieldsOfFree("", Delims);
  }

  /** A single number after a blank is refused. */
  lemma ParseLeadingBlank()
    ensures Parse(" 1") == Err(IllegalArgument)
  {
    assert Split(" 1", Delims) == ["", "1"] by {
      assert " 1" == "" + [' '] + "1";
      SplitTwo("", ' ', "1", Delims);
    }
    assert NonEmpty(["", "1"]) == ["1"] by {
      assert ["", "1"][1..] == ["1"];
    }
    OneParses();
  }

  lemma OneParses()
    ensures ParseInt("1") == Some(1) && ParseInt("2") == Some(2)
  {
    assert IntToString(1) == "1" && IntToString(2) == "2";
    ParseIntToString(1);
    ParseIntToString(2);
  }

  /** A single number before a blank is refused: the trailing empty piece is dropped. */
  lemma ParseTrailingBlank()
    ensures Parse("1 ") == Err(IllegalArgument)
  {
    assert "1 " == "1" + [' '] + "";
    FieldsConcat("1", ' ', "", Delims);
    FieldsOfFree("1", Delims);
    FieldsOfFree("", Delims);
    var f: seq<string> := ["1", ""];
    assert Fields("1 ", Delims) == f;
    assert f[..1] == ["1"];
    assert DropTrailingEmpty(f) == ["1"];
  }

  /** `+` is no separator: `1+2+3` is one piece. */
  lemma ParseOtherSeparator()
    ensures Parse("1+2+3") == Err(IllegalArgument)
  {
    assert Free("1+2+3", Delims);
  }

  /** Three numbers are one too many. */
  lemma ParseThreePieces()
    ensures Parse("1-2-3") == Err(IllegalArgument)
  {
    var t := ["1", "2", "3"];
    assert Split("1-2-3", Delims) == t by {
      assert "1-2-3" == "1" + ['-'] + "2" + ['-'] + "3";
      SplitThree("1", '-', "2", '-', "3", Delims);
    }
    assert NonEmpty(t) == t by {
      assert t[1..] == ["2", "3"] && t[1..][1..] == ["3"] && t[1..][1..][1..] == [];
    }
    OneParses();
  }

  // ---------------------------------------------------------------- notes

  /**
   * `getNote(fretboard)`: the note at the location, or `null` (here `None`) for a
   * negative coordinate, a string the fretboard lacks, or a fret at or beyond its `maxFret`.
   */
  function NoteOf(l: Loc, strings: seq<GString>): (r: Option<Pitch>)
    ensures r.Some? <==> 0 <= l.str < |strings| && 0 <= l.fret < strings[l.str].maxFret
    ensures r.Some? ==> r.value.Normalized() && r.value.Abs() == strings[l.str].open.Abs() + l.fret
  {
    if 0 > l.str || 0 > l.fret then None
    else if l.str >= |strings| then None
    else if l.fret >= strings[l.str].maxFret then None
    else Some(NoteAt(strings[l.str], l.fret).value)
  }

  /** The note at a location sits on that location's string at that fret. */
  lemma NoteOfFret(l: Loc, strings: seq<GString>)
    requires NoteOf(l, strings).Some?
    ensures FretOf(strings[l.str], NoteOf(l, strings).value) == l.fret
  {
  }

  /** A mutable location whose key is cached in `hashi`. */
  class Location {
    var stringi: int
    var freti: int
    var hashi: int

    /** The cache holds the key of the coordinates. */
    predicate Valid()
      reads this
    {
      hashi == 101 * stringi + freti
    }

    function AsLoc(): Loc
      reads this
    {
      Loc(stringi, freti)
    }

    /** `Location()`: string 0, fret 0. */
    constructor ()
      ensures Valid() && AsLoc() == Loc(0, 0)
    {
      stringi, freti, hashi := 0, 0, 0;
    }

    /** `Location(string, fret)`. */
    constructor Of(stringi: int, freti: int)
      ensures Valid() && AsLoc() == Loc(stringi, freti)
    {
      this.stringi := stringi;
      this.freti := freti;
      this.hashi := 101 * stringi + freti;
    }

    /** `Location(other)`: a copy with its own cache. */
    constructor Copy(other: Location)
      ensures Valid() && AsLoc() == other.AsLoc()
    {
      stringi := other.stringi;
      freti := other.freti;
      hashi := 101 * other.stringi + other.freti;
    }

    /** `setString`: the cache is recomputed when the string changes. */
    method SetString(stringi: int)
      modifies this
      ensures AsLoc() == Loc(stringi, old(freti))
      ensures old(Valid()) ==> Valid()
      ensures stringi != old(this.stringi) ==> Valid()
    {
      if this.stringi != stringi {
        this.stringi := stringi;
        hashi := 101 * this.stringi + freti;
      }
    }

    /** `setFret`: the cache is recomputed when the fret changes. */
    method SetFret(freti: int)
      modifies this
      ensures AsLoc() == Loc(old(stringi), freti)
      ensures old(Valid()) ==> Valid()
      ensures freti != old(this.freti) ==> Valid()
    {
      if this.freti != freti {
        this.freti := freti;
        hashi := 101 * stringi + this.freti;
      }
    }

    /** `equals`: the cached keys agree. */
    function Equals(other: Location): (r: bool)
      reads this, other
      requires Valid() && other.Valid()
      ensures r <==> AsLoc().Key() == other.AsLoc().Key()
    {
      this == other || hashi == other.hashi
    }

    /** `compareTo`: the difference of the cached keys. */
    function CompareTo(other: Location): (r: int)
      reads this, other
      requires Valid() && other.Valid()
      ensures r == AsLoc().Key() - other.AsLoc().Key()
      ensures r == 0 <==> Equals(other)
    {
      hashi - other.hashi
    }
  }

  /** `Location(String)`: a location read by `parseString`, or what `parseString` throws. */
  method FromString(s: string) returns (r: Result<Location>)
    ensures r.Ok? <==> Parse(s).Ok?
    ensures r.Ok? ==> fresh(r.value) && r.value.Valid() && r.value.AsLoc() == Parse(s).value
    ensures r.Err? ==> r.fault == Parse(s).fault
  {
    var parsed := ParseString(s);
    if parsed.Err? {
      return Err(parsed.fault);
    }
    var l := new Location.Of(parsed.value.str, parsed.value.fret);
    r := Ok(l);
  }
}
