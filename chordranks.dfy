/**
 * Playability scores of a fingering: how far its frets stray outside a preferred
 * range, how wide it spans, how many strings it skips and how many notes share a
 * string. Lower is more playable; 0 satisfies every constraint.
 */
module ChordRanks {
  import opened Outcomes
  import opened JavaText
  import opened Sorting
  import opened Locations
  import opened LocationLists

  /** The weights a `ChordRank` carries, as a value. */
  datatype Weights = Weights(minFret: int, maxFret: int, skipStringPenalty: int, sameStringPenalty: int)

  /** The field initialisers: frets 0 to 18 are in bounds, each penalty counts once. */
  const Default: Weights := Weights(0, 18, 1, 1)

  // ---------------------------------------------------------------- components

  /** What one fret adds to `fretBoundsScore`: its distance below `minFret` plus its distance above `maxFret`. */
  function Distance(w: Weights, fret: int): (d: int)
    ensures d >= 0
    ensures d == 0 <==> w.minFret <= fret <= w.maxFret
  {
    (if fret < w.minFret then w.minFret - fret else 0) + (if fret > w.maxFret then fret - w.maxFret else 0)
  }

  /** `fretBoundsScore`: the distances summed over the list; 0 exactly when every fret is in bounds. */
  function FretBoundsScore(w: Weights, l: seq<Loc>): (score: int)
    ensures score >= 0
    ensures score == 0 <==> forall k :: 0 <= k < |l| ==> w.minFret <= l[k].fret <= w.maxFret
  {
    if l == [] then 0
    else
      var init := l[..|l| - 1];
      assert forall k :: 0 <= k < |init| ==> init[k] == l[k];
      FretBoundsScore(w, init) + Distance(w, l[|l| - 1].fret)
  }

  /** The tiers of `fretSpanScore`: spans below 6 count once, below 11 twice, wider ones four times. */
  function Tier(span: int): int
  {
    if span < 6 then span else if span < 11 then 2 * span else 4 * span
  }

  /** A tier never scores a span below the span itself. */
  lemma TierAtLeastSpan(span: int)
    requires span >= 0
    ensures Tier(span) >= span
  {
  }

  /** A wider span never scores less. */
  lemma TierMonotone(a: int, b: int)
    requires a <= b
    ensures Tier(a) <= Tier(b)
  {
  }

  /**
   * `fretSpanScore`: the tier of the list's fret span. It has no empty-list guard, so an
   * empty list scores the span its sentinels give, 1.
   */
  function FretSpanScore(l: seq<Loc>): (score: int)
    ensures score >= FretSpan(l)
    ensures l == [] ==> score == 1
  {
    Tier(FretSpan(l))
  }

  /** `skipStringScore`: skipped strings times the penalty, 0 for an empty list. */
  function SkipStringScore(w: Weights, l: seq<Loc>): int
  {
    if l == [] then 0 else SkippedStringCount(l) * w.skipStringPenalty
  }

  /** `sameStringScore`: notes beyond one per used string, times the penalty; 0 for an empty list. */
  function SameStringScore(w: Weights, l: seq<Loc>): int
  {
    if l == [] then 0 else (|l| - StringCount(l)) * w.sameStringPenalty
  }

  /** The skip score counts the strings missing between the lowest and highest used string. */
  lemma SkipStringScoreMeaning(w: Weights, l: seq<Loc>)
    ensures l != [] ==> SkipStringScore(w, l) == (MaxString(l) - MinString(l) + 1 - StringCount(l)) * w.skipStringPenalty
    ensures w.skipStringPenalty >= 0 ==> SkipStringScore(w, l) >= 0
  {
    SkippedStringCountMeaning(l);
    if l != [] {
      SortedSetMeaning(StringList(l));
      var ss := StringSet(l);
      if |ss| >= 1 {
        GapsTelescope(ss);
        forall i | 0 <= i < |ss| - 1
          ensures ss[i + 1] - ss[i] >= 1
        {
        }
        GapsNonNegative(ss);
      }
    }
  }

  /** The interior gaps of a strictly ascending list are never negative. */
  lemma {:induction false} GapsNonNegative(xs: seq<int>)
    requires forall i :: 0 <= i < |xs| - 1 ==> xs[i + 1] - xs[i] >= 1
    ensures Gaps(xs) >= 0
  {
    if |xs| > 1 {
      var init := xs[..|xs| - 1];
      assert forall i :: 0 <= i < |init| - 1 ==> init[i + 1] - init[i] >= 1 by {
        forall i | 0 <= i < |init| - 1
          ensures init[i + 1] - init[i] >= 1
        {
          assert init[i + 1] == xs[i + 1] && init[i] == xs[i];
        }
      }
      GapsNonNegative(init);
      assert xs[|xs| - 1] - xs[|xs| - 2] >= 1;
    }
  }

  /** Under a positive penalty the same-string score is 0 exactly when every note has a string of its own. */
  lemma SameStringScoreMeaning(w: Weights, l: seq<Loc>)
    ensures w.sameStringPenalty >= 0 ==> SameStringScore(w, l) >= 0
    ensures w.sameStringPenalty > 0 ==> (SameStringScore(w, l) == 0 <==> UniqueStrings(l))
  {
    UniqueStringsMeaning(l);
    DistinctCount(StringList(l));
    if l != [] && w.sameStringPenalty > 0 {
      var d := |l| - StringCount(l);
      assert d >= 0;
      if d > 0 {
        assert d * w.sameStringPenalty > 0;
      }
    }
  }

  // ---------------------------------------------------------------- totals

  /** `compositeScore`: the total first, then the four components in order. */
  function CompositeScore(w: Weights, l: seq<Loc>): (scores: seq<int>)
    ensures |scores| == 5
    ensures scores[1] >= 0 && scores[2] >= FretSpan(l)
  {
    var c1 := FretBoundsScore(w, l);
    var c2 := FretSpanScore(l);
    var c3 := SkipStringScore(w, l);
    var c4 := SameStringScore(w, l);
    [c1 + c2 + c3 + c4, c1, c2, c3, c4]
  }

  /** `getSum`, computed on its own. */
  function Sum(w: Weights, l: seq<Loc>): int
  {
    FretBoundsScore(w, l) + FretSpanScore(l) + SkipStringScore(w, l) + SameStringScore(w, l)
  }

  /** `getSum` is the composite's first element, and that element is the sum of the other four. */
  lemma SumIsComposite(w: Weights, l: seq<Loc>)
    ensures Sum(w, l) == CompositeScore(w, l)[0]
    ensures var s := CompositeScore(w, l); s[0] == s[1] + s[2] + s[3] + s[4]
  {
  }

  /** Under non-negative penalties the total is at least the fret span. */
  lemma SumAtLeastSpan(w: Weights, l: seq<Loc>)
    requires w.skipStringPenalty >= 0 && w.sameStringPenalty >= 0
    ensures Sum(w, l) >= FretSpan(l) >= 0
  {
    SkipStringScoreMeaning(w, l);
    SameStringScoreMeaning(w, l);
  }

  /** `compare`: the difference of the totals. */
  function Compare(w: Weights, a: seq<Loc>, b: seq<Loc>): int
  {
    Sum(w, a) - Sum(w, b)
  }

  /** The ranker as the comparator `Collections.sort` is given. */
  function Comparator(w: Weights): (seq<Loc>, seq<Loc>) -> int
  {
    (a: seq<Loc>, b: seq<Loc>) => Compare(w, a, b)
  }

  /** Comparing totals obeys the `Comparator` contract, so sorting by it is well defined. */
  lemma ComparatorLawful(w: Weights)
    ensures IsComparator(Comparator(w))
    ensures forall a, b :: Comparator(w)(a, b) == -Comparator(w)(b, a)
  {
  }

  // ---------------------------------------------------------------- text

  /** `name=value`. */
  function Pair(name: string, value: string): string
  {
    name + "=" + value
  }

  /** `, name=value`: one element after the first. */
  function Segment(name: string, value: string): (r: string)
    ensures |r| > 0 && r[0] == ','
  {
    "," + Pair(name, value)
  }

  /** `toString(int[])`: `Scores sum=S, fret bounds[min,max]=F, fret span=P, skip strings=K, same string=M`; fewer than five scores throw. */
  function ScoresToString(w: Weights, scores: seq<int>): (r: Result<string>)
    ensures r.Err? <==> |scores| < 5
    ensures r.Err? ==> r.fault == IndexOutOfBounds
  {
    if |scores| < 5 then Err(IndexOutOfBounds)
    else
      var sum := Pair("Scores sum", IntToString(scores[0]));
      var bounds := Segment(" fret bounds[" + IntToString(w.minFret) + "," + IntToString(w.maxFret) + "]", IntToString(scores[1]));
      var span := Segment(" fret span", IntToString(scores[2]));
      var skip := Segment(" skip strings", IntToString(scores[3]));
      var same := Segment(" same string", IntToString(scores[4]));
      Ok(sum + bounds + span + skip + same)
  }

  /** The delimiters of the tokenizer `toScores` runs. */
  const ScoreDelims: string := ",="

  /** The `k`th token read as an `int`: too few tokens throw `NoSuchElementException`, a non-number `NumberFormatException`. */
  function Field(t: seq<string>, k: nat): (r: Result<int>)
    ensures r.Ok? <==> k < |t| && ParseInt(t[k]).Some?
    ensures r.Ok? ==> r.value == ParseInt(t[k]).value
    ensures r.Err? && k >= |t| ==> r.fault == NoSuchElement
  {
    if k >= |t| then Err(NoSuchElement)
    else match ParseInt(t[k])
      case None => Err(NumberFormat)
      case Some(v) => Ok(v)
  }

  /**
   * `toScores`: empty text gives `[0]`; otherwise tokens 1, 4, 6, 8 and 10 are the five
   * scores, read in that order, and the tokens between them are skipped unread.
   */
  function ToScores(s: string): Result<seq<int>>
  {
    if |s| < 1 then Ok([0])
    else
      var t := Tokens(s, ScoreDelims);
      var sum :- Field(t, 1);
      var fret :- Field(t, 4);
      var span :- Field(t, 6);
      var skip :- Field(t, 8);
      var same :- Field(t, 10);
      Ok([sum, fret, span, skip, same])
  }

  /** `name=value` is the two tokens `name` and `value`. */
  lemma TokensPair(name: string, value: string)
    requires name != [] && Free(name, ScoreDelims) && value != [] && Free(value, ScoreDelims)
    ensures Tokens(Pair(name, value), ScoreDelims) == [name, value]
  {
    TokensConcat(name, '=', value, ScoreDelims);
    TokensOfFree(name, ScoreDelims);
    TokensOfFree(value, ScoreDelims);
  }

  /** `, name=value`: the leading comma yields no token of its own. */
  lemma TokensSegment(name: string, value: string)
    requires name != [] && Free(name, ScoreDelims) && value != [] && Free(value, ScoreDelims)
    ensures Tokens(Segment(name, value), ScoreDelims) == [name, value]
  {
    TokensPair(name, value);
    assert Segment(name, value) == [] + [','] + Pair(name, value);
    TokensConcat([], ',', Pair(name, value), ScoreDelims);
  }

  /** A printed integer is one token for the score tokenizer. */
  lemma IntPiece(i: int)
    ensures IntToString(i) != [] && Free(IntToString(i), ScoreDelims)
  {
    IntToStringFree(i, ScoreDelims);
  }

  /** The eleven tokens `toString` prints, scores at positions 1, 4, 6, 8 and 10. */
  function ScorePieces(w: Weights, scores: seq<int>): (ps: seq<string>)
    requires |scores| == 5
    ensures |ps| == 11
  {
    ["Scores sum", IntToString(scores[0]), " fret bounds[" + IntToString(w.minFret), IntToString(w.maxFret) + "]",
     IntToString(scores[1]), " fret span", IntToString(scores[2]), " skip strings", IntToString(scores[3]),
     " same string", IntToString(scores[4])]
  }

  /** The element names `toString` prints hold no delimiter of the tokenizer. */
  lemma NamesFree()
    ensures Free("Scores sum", ScoreDelims) && Free(" fret span", ScoreDelims)
    ensures Free(" skip strings", ScoreDelims) && Free(" same string", ScoreDelims)
  {
  }

  /** The tokenizer sees exactly the printed tokens. */
  lemma ScoresTokens(w: Weights, scores: seq<int>)
    requires |scores| == 5
    ensures ScoresToString(w, scores).Ok?
    ensures Tokens(ScoresToString(w, scores).value, ScoreDelims) == ScorePieces(w, scores)
  {
    IntPiece(scores[0]);
    IntPiece(scores[1]);
    IntPiece(scores[2]);
    IntPiece(scores[3]);
    IntPiece(scores[4]);
    IntPiece(w.minFret);
    IntPiece(w.maxFret);
    PiecesTokens(IntToString(scores[0]), IntToString(scores[1]), IntToString(scores[2]),
      IntToString(scores[3]), IntToString(scores[4]), IntToString(w.minFret), IntToString(w.maxFret));
  }

  /** The printed text, with any one-token values in place of the numbers, splits into the eleven pieces. */
  lemma PiecesTokens(s0: string, s1: string, s2: string, s3: string, s4: string, lo: string, hi: string)
    requires s0 != [] && Free(s0, ScoreDelims) && s1 != [] && Free(s1, ScoreDelims)
    requires s2 != [] && Free(s2, ScoreDelims) && s3 != [] && Free(s3, ScoreDelims)
    requires s4 != [] && Free(s4, ScoreDelims) && lo != [] && Free(lo, ScoreDelims) && hi != [] && Free(hi, ScoreDelims)
    ensures Tokens(Pair("Scores sum", s0) + Segment(" fret bounds[" + lo + "," + hi + "]", s1)
      + Segment(" fret span", s2) + Segment(" skip strings", s3) + Segment(" same string", s4), ScoreDelims)
      == ["Scores sum", s0, " fret bounds[" + lo, hi + "]", s1, " fret span", s2, " skip strings", s3, " same string", s4]
  {
    NamesFree();
    var sum := Pair("Scores sum", s0);
    var bounds := Segment(" fret bounds[" + lo + "," + hi + "]", s1);
    var span := Segment(" fret span", s2);
    var skip := Segment(" skip strings", s3);
    var same := Segment(" same string", s4);
    TokensPair("Scores sum", s0);
    BoundsTokens(lo, hi, s1);
    TokensSegment(" fret span", s2);
    TokensSegment(" skip strings", s3);
    TokensSegment(" same string", s4);
    TokensChain(sum, bounds, span, skip, same);
    var bl, bh := " fret bounds[" + lo, hi + "]";
    assert ["Scores sum", s0] + [bl, bh, s1] == ["Scores sum", s0, bl, bh, s1];
    assert ["Scores sum", s0, bl, bh, s1] + [" fret span", s2] == ["Scores sum", s0, bl, bh, s1, " fret span", s2];
    assert ["Scores sum", s0, bl, bh, s1, " fret span", s2] + [" skip strings", s3]
      == ["Scores sum", s0, bl, bh, s1, " fret span", s2, " skip strings", s3];
    assert ["Scores sum", s0, bl, bh, s1, " fret span", s2, " skip strings", s3] + [" same string", s4]
      == ["Scores sum", s0, bl, bh, s1, " fret span", s2, " skip strings", s3, " same string", s4];
  }

  /** The five printed elements, each after the first starting with a comma, tokenize one after the other. */
  lemma TokensChain(a: string, b: string, c: string, d: string, e: string)
    requires b != [] && b[0] == ',' && c != [] && c[0] == ',' && d != [] && d[0] == ',' && e != [] && e[0] == ','
    ensures Tokens(a + b + c + d + e, ScoreDelims)
      == Tokens(a, ScoreDelims) + Tokens(b, ScoreDelims) + Tokens(c, ScoreDelims) + Tokens(d, ScoreDelims) + Tokens(e, ScoreDelims)
  {
    TokensAppend(a, b, ScoreDelims);
    TokensAppend(a + b, c, ScoreDelims);
    TokensAppend(a + b + c, d, ScoreDelims);
    TokensAppend(a + b + c + d, e, ScoreDelims);
  }

  /** `, fret bounds[min,max]=value`: the comma inside the brackets splits the name. */
  lemma BoundsTokens(lo: string, hi: string, value: string)
    requires lo != [] && Free(lo, ScoreDelims) && hi != [] && Free(hi, ScoreDelims)
    requires value != [] && Free(value, ScoreDelims)
    ensures Tokens(Segment(" fret bounds[" + lo + "," + hi + "]", value), ScoreDelims) == [" fret bounds[" + lo, hi + "]", value]
  {
    var first := " fret bounds[" + lo;
    var second := hi + "]";
    assert Free(first, ScoreDelims);
    assert Free(second, ScoreDelims);
    TokensPair(second, value);
    TokensOfFree(first, ScoreDelims);
    var rest := Pair(second, value);
    assert Segment(" fret bounds[" + lo + "," + hi + "]", value) == [] + [','] + (first + [','] + rest);
    TokensConcat([], ',', first + [','] + rest, ScoreDelims);
    TokensConcat(first, ',', rest, ScoreDelims);
  }

  /** `toScores` reads back the five scores `toString` printed, whatever the weights. */
  lemma ToScoresToString(w: Weights, scores: seq<int>)
    requires |scores| == 5
    requires forall k :: 0 <= k < 5 ==> INT_MIN <= scores[k] <= INT_MAX
    ensures ScoresToString(w, scores).Ok?
    ensures ToScores(ScoresToString(w, scores).value) == Ok(scores)
  {
    ScoresTokens(w, scores);
    var text := ScoresToString(w, scores).value;
    assert |text| >= 1;
    ReadBack(text, w, scores);
  }

  /** Text that tokenizes as the printed pieces reads back as the scores. */
  lemma ReadBack(text: string, w: Weights, scores: seq<int>)
    requires |text| >= 1 && |scores| == 5 && Tokens(text, ScoreDelims) == ScorePieces(w, scores)
    requires forall k :: 0 <= k < 5 ==> INT_MIN <= scores[k] <= INT_MAX
    ensures ToScores(text) == Ok(scores)
  {
    var t := ScorePieces(w, scores);
    assert t[1] == IntToString(scores[0]) && t[4] == IntToString(scores[1]) && t[6] == IntToString(scores[2]);
    assert t[8] == IntToString(scores[3]) && t[10] == IntToString(scores[4]);
    ParseIntToString(scores[0]);
    ParseIntToString(scores[1]);
    ParseIntToString(scores[2]);
    ParseIntToString(scores[3]);
    ParseIntToString(scores[4]);
    ReadFields(text, t, scores);
  }

  /** Eleven tokens with the five scores at positions 1, 4, 6, 8 and 10 read back as those scores. */
  lemma ReadFields(text: string, t: seq<string>, scores: seq<int>)
    requires |text| >= 1 && Tokens(text, ScoreDelims) == t && |t| == 11 && |scores| == 5
    requires ParseInt(t[1]) == Some(scores[0]) && ParseInt(t[4]) == Some(scores[1])
    requires ParseInt(t[6]) == Some(scores[2]) && ParseInt(t[8]) == Some(scores[3])
    requires ParseInt(t[10]) == Some(scores[4])
    ensures ToScores(text) == Ok(scores)
  {
    assert [scores[0], scores[1], scores[2], scores[3], scores[4]] == scores;
  }

  /** Empty text reads as the single score 0, and text with too few tokens throws. */
  lemma ToScoresRefusals()
    ensures ToScores("") == Ok([0])
    ensures ToScores("Scores sum") == Err(NoSuchElement)
  {
    TokensOfFree("Scores sum", ScoreDelims);
  }

  // ---------------------------------------------------------------- the ranker

  /** `equals`: the four weight differences summed are 0. */
  predicate EqualWeights(a: Weights, b: Weights)
  {
    (a.minFret - b.minFret) + (a.maxFret - b.maxFret)
      + (a.sameStringPenalty - b.sameStringPenalty) + (a.skipStringPenalty - b.skipStringPenalty) == 0
  }

  /** Equal weights are `equals`, but differences that cancel are too: rankers that score differently compare equal. */
  lemma EqualWeightsCoarse()
    ensures forall a: Weights :: EqualWeights(a, a)
    ensures var a, b := Weights(0, 18, 1, 1), Weights(1, 17, 1, 1);
      EqualWeights(a, b) && a != b
      && FretBoundsScore(a, [Loc(0, 0)]) == 0 && FretBoundsScore(b, [Loc(0, 0)]) == 1
  {
    var b := Weights(1, 17, 1, 1);
    assert [Loc(0, 0)][..0] == [];
    assert FretBoundsScore(b, [Loc(0, 0)]) == FretBoundsScore(b, []) + Distance(b, 0);
  }

  /** A ranker: the four weights, changed by its setters. */
  class ChordRank {
    var minFret: int
    var maxFret: int
    var skipStringPenalty: int
    var sameStringPenalty: int

    function AsWeights(): Weights
      reads this
    {
      Weights(minFret, maxFret, skipStringPenalty, sameStringPenalty)
    }

    /** `ChordRank()`: the default weights. */
    constructor ()
      ensures AsWeights() == Default
    {
      minFret, maxFret, skipStringPenalty, sameStringPenalty := 0, 18, 1, 1;
    }

    /** `ChordRank(minFret, maxFret)`: default penalties. */
    constructor Frets(minFret: int, maxFret: int)
      ensures AsWeights() == Weights(minFret, maxFret, 1, 1)
    {
      this.minFret, this.maxFret := minFret, maxFret;
      skipStringPenalty, sameStringPenalty := 1, 1;
    }

    /** `ChordRank(minFret, maxFret, skipStringPenalty, sameStringPenalty)`. */
    constructor Of(minFret: int, maxFret: int, skipStringPenalty: int, sameStringPenalty: int)
      ensures AsWeights() == Weights(minFret, maxFret, skipStringPenalty, sameStringPenalty)
    {
      this.minFret, this.maxFret := minFret, maxFret;
      this.skipStringPenalty, this.sameStringPenalty := skipStringPenalty, sameStringPenalty;
    }

    method SetMinFret(minFret: int)
      modifies this
      ensures AsWeights() == old(AsWeights()).(minFret := minFret)
    {
      this.minFret := minFret;
    }

    method SetMaxFret(maxFret: int)
      modifies this
      ensures AsWeights() == old(AsWeights()).(maxFret := maxFret)
    {
      this.maxFret := maxFret;
    }

    method SetSkipStringPenalty(skipStringPenalty: int)
      modifies this
      ensures AsWeights() == old(AsWeights()).(skipStringPenalty := skipStringPenalty)
    {
      this.skipStringPenalty := skipStringPenalty;
    }

    method SetSameStringPenalty(sameStringPenalty: int)
      modifies this
      ensures AsWeights() == old(AsWeights()).(sameStringPenalty := sameStringPenalty)
    {
      this.sameStringPenalty := sameStringPenalty;
    }

    /** `fretBoundsScore`: the bounds distance summed by a loop over the list. */
    method GetFretBoundsScore(l: seq<Loc>) returns (score: int)
      ensures score == FretBoundsScore(AsWeights(), l)
    {
      score := 0;
      if |l| == 0 {
        return;
      }
      var w := AsWeights();
      for i := 0 to |l|
        invariant score == FretBoundsScore(w, l[..i])
      {
        var fret := l[i].fret;
        assert l[..i + 1][..i] == l[..i];
        if fret < minFret {
          score := score + (minFret - fret);
        }
        if fret > maxFret {
          score := score + (fret - maxFret);
        }
      }
      assert l[..|l|] == l;
    }
  }
}
