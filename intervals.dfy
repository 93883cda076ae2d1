/**
 * Musical intervals: the enum of named semitone distances, the lookups by name and
 * by value, and the interval formulas (such as "R-b3-5-b7") that build chords.
 */
module Intervals {
  import opened Outcomes
  import opened JavaText

  /** An enum constant, identified by its ordinal: its position in declaration order. */
  newtype Interval = k: int | 0 <= k < 59

  /** The number of constants. */
  const Count: int := 59

  /** The constant's name, which is also its `toString`. */
  function Name(iv: Interval): string
  {
    match iv
      case 0 => "r"
      case 1 => "root"
      case 2 => "unison"
      case 3 => "m2"
      case 4 => "b2"
      case 5 => "minorSecond"
      case 6 => "half"
      case 7 => "h"
      case 8 => "M2"
      case 9 => "second"
      case 10 => "majorSecond"
      case 11 => "whole"
      case 12 => "W"
      case 13 => "minorThird"
      case 14 => "m3"
      case 15 => "b3"
      case 16 => "wholehalf"
      case 17 => "Wh"
      case 18 => "skip"
      case 19 => "s"
      case 20 => "third"
      case 21 => "majorThird"
      case 22 => "M3"
      case 23 => "fourth"
      case 24 => "perfectFourth"
      case 25 => "p4"
      case 26 => "diminishedFifth"
      case 27 => "d5"
      case 28 => "b5"
      case 29 => "tritone"
      case 30 => "fifth"
      case 31 => "perfectFifth"
      case 32 => "p5"
      case 33 => "augmentedFifth"
      case 34 => "a5"
      case 35 => "minorSixth"
      case 36 => "m6"
      case 37 => "b6"
      case 38 => "sixth"
      case 39 => "majorSixth"
      case 40 => "M6"
      case 41 => "minorSeventh"
      case 42 => "m7"
      case 43 => "b7"
      case 44 => "seventh"
      case 45 => "majorSeventh"
      case 46 => "M7"
      case 47 => "eigth"
      case 48 => "octave"
      case 49 => "perfectOctave"
      case 50 => "o"
      case 51 => "ninth"
      case 52 => "augmentedNinth"
      case 53 => "tenth"
      case 54 => "eleventh"
      case 55 => "augmentedEleventh"
      case 56 => "twelfth"
      case 57 => "thirteenth"
      case _ => "doubleOctave"
  }

  /** The constant's semitone distance. */
  function Value(iv: Interval): (v: nat)
    ensures v <= 24
  {
    match iv
      case 0 => 0
      case 1 => 0
      case 2 => 0
      case 3 => 1
      case 4 => 1
      case 5 => 1
      case 6 => 1
      case 7 => 1
      case 8 => 2
      case 9 => 2
      case 10 => 2
      case 11 => 2
      case 12 => 2
      case 13 => 3
      case 14 => 3
      case 15 => 3
      case 16 => 3
      case 17 => 3
      case 18 => 3
      case 19 => 3
      case 20 => 4
      case 21 => 4
      case 22 => 4
      case 23 => 5
      case 24 => 5
      case 25 => 5
      case 26 => 6
      case 27 => 6
      case 28 => 6
      case 29 => 6
      case 30 => 7
      case 31 => 7
      case 32 => 7
      case 33 => 8
      case 34 => 8
      case 35 => 8
      case 36 => 8
      case 37 => 8
      case 38 => 9
      case 39 => 9
      case 40 => 9
      case 41 => 10
      case 42 => 10
      case 43 => 10
      case 44 => 11
      case 45 => 11
      case 46 => 11
      case 47 => 12
      case 48 => 12
      case 49 => 12
      case 50 => 12
      case 51 => 14
      case 52 => 15
      case 53 => 16
      case 54 => 17
      case 55 => 18
      case 56 => 19
      case 57 => 20
      case _ => 24
  }

  // The constants the rest of the model refers to by name.
  const unison: Interval := 2
  const root: Interval := 1
  const second: Interval := 9
  const minorThird: Interval := 13
  const b3: Interval := 15
  const third: Interval := 20
  const fourth: Interval := 23
  const fifth: Interval := 30
  const augmentedFifth: Interval := 33
  const sixth: Interval := 38
  const b7: Interval := 43
  const seventh: Interval := 44
  const octave: Interval := 48
  const ninth: Interval := 51
  const augmentedNinth: Interval := 52
  const tenth: Interval := 53
  const eleventh: Interval := 54
  const augmentedEleventh: Interval := 55
  const twelfth: Interval := 56
  const thirteenth: Interval := 57
  const doubleOctave: Interval := 58

  /** Short formula names tried before the enum names. */
  const CommonNames: map<string, Interval> := map[
    "R" := root, "1" := root, "2" := second, "3" := third, "4" := fourth,
    "5" := fifth, "#5" := augmentedFifth, "6" := sixth, "7" := seventh,
    "8" := octave, "9" := ninth, "#9" := augmentedNinth, "10" := tenth,
    "11" := eleventh, "#11" := augmentedEleventh, "12" := twelfth, "13" := thirteenth
  ]

  /** The first constant at or after ordinal `from` with the given name (the loop over `EnumSet.range`). */
  function FirstNamed(from: int, name: string): (res: Option<Interval>)
    requires 0 <= from <= Count
    ensures res.Some? ==> from <= res.value as int && Name(res.value) == name
    ensures res.Some? ==> forall j: Interval :: from <= j as int < res.value as int ==> Name(j) != name
    ensures res.None? ==> forall j: Interval :: from <= j as int ==> Name(j) != name
    decreases Count - from
  {
    if from == Count then None
    else if Name(from as Interval) == name then Some(from as Interval)
    else FirstNamed(from + 1, name)
  }

  /** The first constant at or after ordinal `from` with the given value. */
  function FirstValued(from: int, value: int): (res: Option<Interval>)
    requires 0 <= from <= Count
    ensures res.Some? ==> from <= res.value as int && Value(res.value) == value
    ensures res.Some? ==> forall j: Interval :: from <= j as int < res.value as int ==> Value(j) != value
    ensures res.None? ==> forall j: Interval :: from <= j as int ==> Value(j) != value
    decreases Count - from
  {
    if from == Count then None
    else if Value(from as Interval) == value then Some(from as Interval)
    else FirstValued(from + 1, value)
  }

  /** `getInterval(String)`: the constant with exactly this name; empty or unknown names throw. */
  function FromName(name: string): Result<Interval>
  {
    if |name| < 1 then Err(IllegalArgument)
    else match FirstNamed(0, name)
      case None => Err(IllegalArgument)
      case Some(iv) => Ok(iv)
  }

  /** `getInterval(int)`: the first declared constant with this value; outside [0, 24] or a gap throws. */
  function FromValue(value: int): Result<Interval>
  {
    if value < Value(unison) || value > Value(doubleOctave) then Err(IllegalArgument)
    else match FirstValued(0, value)
      case None => Err(IllegalArgument)
      case Some(iv) => Ok(iv)
  }

  /** One formula token: a common name first, then an enum name. */
  function Resolve(token: string): (res: Result<Interval>)
    ensures res.Err? ==> res.fault == IllegalArgument
  {
    if token in CommonNames then Ok(CommonNames[token]) else FromName(token)
  }

  /** The intervals of a token list; the first unknown token makes it fail. */
  function Resolved(tokens: seq<string>): Result<seq<Interval>>
  {
    if tokens == [] then Ok([])
    else
      var head :- Resolve(tokens[0]);
      var rest :- Resolved(tokens[1..]);
      Ok([head] + rest)
  }

  /** `getIntervals(formula, delimiter)`: tokenize and resolve. */
  function Formula(formula: string, delimiter: string): Result<seq<Interval>>
  {
    Resolved(Tokens(formula, delimiter))
  }

  /** The delimiter `getIntervals(formula)` picks: a dash if there is one, else a space. */
  function DelimiterFor(formula: string): (d: string)
    ensures d == "-" <==> '-' in formula
    ensures d != "-" ==> d == " "
  {
    if '-' in formula then "-" else " "
  }

  /** `getIntervals(formula, delimiter)`: the tokenizer loop appending each resolved token. */
  method GetIntervals(formula: string, delimiter: string) returns (res: Result<seq<Interval>>)
    ensures res == Formula(formula, delimiter)
  {
    var tokens := Tokens(formula, delimiter);
    ResolvedMeaning(tokens);
    var intervals: seq<Interval> := [];
    var k := 0;
    while k < |tokens|
      invariant 0 <= k <= |tokens| && |intervals| == k
      invariant forall j :: 0 <= j < k ==> Resolve(tokens[j]) == Ok(intervals[j])
    {
      var common := Resolve(tokens[k]);
      if common.Err? {
        assert Resolved(tokens) == Err(IllegalArgument);
        return Err(IllegalArgument);
      }
      ResolvedOneMore(tokens, k, intervals);
      intervals := intervals + [common.value];
      k := k + 1;
    }
    assert intervals == Resolved(tokens).value;
    res := Ok(intervals);
  }

  /** The loop's invariant after one more resolved token. */
  lemma ResolvedOneMore(tokens: seq<string>, k: int, intervals: seq<Interval>)
    requires 0 <= k < |tokens| && |intervals| == k && Resolve(tokens[k]).Ok?
    requires forall j :: 0 <= j < k ==> Resolve(tokens[j]) == Ok(intervals[j])
    ensures forall j :: 0 <= j < k + 1 ==> Resolve(tokens[j]) == Ok((intervals + [Resolve(tokens[k]).value])[j])
  {
  }

  /** `getIntervals(formula)`: picks the delimiter, then tokenizes and resolves. */
  method GetIntervalsOf(formula: string) returns (res: Result<seq<Interval>>)
    ensures res == Formula(formula, DelimiterFor(formula))
  {
    var delimiter := " ";
    if '-' in formula {
      delimiter := "-";
    }
    res := GetIntervals(formula, delimiter);
  }

  // ---------------------------------------------------------------- properties

  /** `getInterval(String)` finds exactly the constant with that name, and throws when none has it. */
  lemma FromNameMeaning(name: string)
    ensures FromName(name).Ok? <==> name != [] && exists iv: Interval :: Name(iv) == name
    ensures FromName(name).Ok? ==> Name(FromName(name).value) == name
  {
  }

  /** `getInterval(int)` fails exactly at the values no constant carries, and otherwise returns the first that does. */
  lemma FromValueMeaning(value: int)
    ensures FromValue(value).Ok? <==> exists iv: Interval :: Value(iv) == value
    ensures FromValue(value).Ok? ==> Value(FromValue(value).value) == value
    ensures FromValue(value).Ok? ==> forall j: Interval :: j < FromValue(value).value ==> Value(j) != value
  {
  }

  /** The examples of the lookup: 3 is `minorThird` (the first of six), 13 names no interval. */
  lemma FromValueExamples()
    ensures FromValue(3) == Ok(minorThird) && Name(minorThird) == "minorThird"
    ensures FromValue(13).Err? && FromValue(-1).Err? && FromValue(25).Err?
  {
    assert FirstValued(0, 3) == Some(13);
  }

  /** Names match exactly: `b3` is found, an empty name throws. */
  lemma FromNameExamples()
    ensures FromName("b3").Ok? && Name(FromName("b3").value) == "b3"
    ensures FromName("").Err?
  {
    assert Name(b3) == "b3";
    FromNameMeaning("b3");
  }

  /** A formula resolves iff each of its tokens does, and then one interval per token, in order. */
  lemma {:induction false} ResolvedMeaning(tokens: seq<string>)
    ensures Resolved(tokens).Ok? <==> forall k :: 0 <= k < |tokens| ==> Resolve(tokens[k]).Ok?
    ensures Resolved(tokens).Ok? ==>
      |Resolved(tokens).value| == |tokens| &&
      forall k :: 0 <= k < |tokens| ==> Resolved(tokens).value[k] == Resolve(tokens[k]).value
    ensures Resolved(tokens).Err? ==> Resolved(tokens).fault == IllegalArgument
  {
    if tokens != [] {
      var rest := tokens[1..];
      ResolvedMeaning(rest);
      assert forall k :: 1 <= k < |tokens| ==> tokens[k] == rest[k - 1];
      var h := Resolve(tokens[0]);
      if h.Err? {
        assert Resolved(tokens) == Err(h.fault);
      } else if Resolved(rest).Err? {
        assert Resolved(tokens) == Err(Resolved(rest).fault);
        var k :| 0 <= k < |rest| && Resolve(rest[k]).Err?;
        assert Resolve(tokens[k + 1]).Err?;
      } else {
        var v := [h.value] + Resolved(rest).value;
        assert Resolved(tokens) == Ok(v);
        assert forall k :: 1 <= k < |tokens| ==> v[k] == Resolved(rest).value[k - 1];
      }
    }
  }
}
