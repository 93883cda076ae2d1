/**
 * The static helpers of `Fretboard` that number the fingerings of a chord's variations.
 * A variation list holds one "digit" per note: the list of locations that can play it.
 * A fingering takes one location from every non-empty digit, so the fingerings are
 * counted, decoded and encoded like numbers in a mixed radix whose first digit is the
 * least significant.
 */
module Permutations {
  import opened Outcomes
  import opened JavaText
  import opened Sorting
  import opened Locations
  import ChordRanks

  type Digits = seq<seq<Loc>>

  // ---------------------------------------------------------------- counting

  /** A digit's radix: its size, with an empty digit counting as 1 (it is skipped). */
  function Radix(d: seq<Loc>): (r: nat)
    ensures r >= 1
  {
    if d == [] then 1 else |d|
  }

  /** How many digits are not empty. */
  function Live(D: Digits): (n: nat)
    ensures n <= |D|
  {
    if D == [] then 0 else (if D[0] == [] then 0 else 1) + Live(D[1..])
  }

  /** The product of the radices. */
  function Prod(D: Digits): (p: nat)
    ensures p >= 1
  {
    if D == [] then 1
    else
      var q := Prod(D[1..]);
      MulAtLeast(q, Radix(D[0]));
      Radix(D[0]) * q
  }

  /** `getPermutationCount`: the product of the sizes of the non-empty digits, 0 when there are none. */
  function Count(D: Digits): nat
  {
    if Live(D) == 0 then 0 else Prod(D)
  }

  lemma MulAtLeast(s: int, d: int)
    requires s >= 0 && d >= 1
    ensures s * d >= s
  {
    assert s * d == s * (d - 1) + s;
  }

  lemma {:induction false} LiveSnoc(D: Digits, d: seq<Loc>)
    ensures Live(D + [d]) == Live(D) + (if d == [] then 0 else 1)
  {
    if D != [] {
      assert (D + [d])[1..] == D[1..] + [d];
      LiveSnoc(D[1..], d);
    }
  }

  lemma {:induction false} ProdSnoc(D: Digits, d: seq<Loc>)
    ensures Prod(D + [d]) == Prod(D) * Radix(d)
  {
    if D != [] {
      assert (D + [d])[1..] == D[1..] + [d];
      ProdSnoc(D[1..], d);
      assert Radix(D[0]) * (Prod(D[1..]) * Radix(d)) == (Radix(D[0]) * Prod(D[1..])) * Radix(d);
    }
  }

  lemma {:induction false} EmptyProd(D: Digits)
    requires Live(D) == 0
    ensures Prod(D) == 1
  {
    if D != [] {
      EmptyProd(D[1..]);
    }
  }

  /** When every digit is non-empty, all of them are live, and the count is the product of the sizes. */
  lemma {:induction false} LiveAll(D: Digits)
    requires forall k :: 0 <= k < |D| ==> D[k] != []
    ensures Live(D) == |D|
    ensures |D| >= 1 ==> Count(D) == Prod(D)
  {
    if D != [] {
      assert forall k :: 0 <= k < |D| - 1 ==> D[1..][k] == D[k + 1];
      LiveAll(D[1..]);
    }
  }

  /** The count is 0 exactly when every digit is empty, and otherwise the product of the non-empty sizes. */
  lemma CountMeaning(D: Digits)
    ensures Count(D) == 0 <==> forall k :: 0 <= k < |D| ==> D[k] == []
  {
    if Live(D) != 0 {
      LiveWitness(D);
    } else {
      LiveNone(D);
    }
  }

  lemma {:induction false} LiveWitness(D: Digits)
    requires Live(D) != 0
    ensures exists k :: 0 <= k < |D| && D[k] != []
  {
    if D[0] == [] {
      LiveWitness(D[1..]);
      var k :| 0 <= k < |D[1..]| && D[1..][k] != [];
      assert D[k + 1] != [];
    }
  }

  lemma {:induction false} LiveNone(D: Digits)
    requires Live(D) == 0
    ensures forall k :: 0 <= k < |D| ==> D[k] == []
  {
    if D != [] {
      LiveNone(D[1..]);
      assert forall k :: 1 <= k < |D| ==> D[k] == D[1..][k - 1];
    }
  }

  /** `getPermutationCount`: the running product, started at the first non-empty digit. */
  method GetPermutationCount(D: Digits) returns (count: int)
    ensures count == Count(D)
  {
    if |D| == 0 {
      return 0;
    }
    count := 0;
    for variationi := 0 to |D|
      invariant count == Count(D[..variationi])
    {
      var enharmonics := D[variationi];
      assert D[..variationi + 1] == D[..variationi] + [enharmonics];
      LiveSnoc(D[..variationi], enharmonics);
      ProdSnoc(D[..variationi], enharmonics);
      if count == 0 {
        if 0 < |enharmonics| {
          EmptyProd(D[..variationi]);
          count := |enharmonics|;
        }
      } else {
        if 0 < |enharmonics| {
          count := count * |enharmonics|;
        }
      }
    }
    assert D[..|D|] == D;
  }

  // ---------------------------------------------------------------- decoding

  /**
   * The fingering number `i` names: each non-empty digit, first to last, contributes its
   * location `i mod size` and divides `i` by its size; each contribution goes in front.
   */
  function Pick(D: Digits, i: nat): (r: seq<Loc>)
    ensures |r| == Live(D)
  {
    if D == [] then []
    else if D[0] == [] then Pick(D[1..], i)
    else Pick(D[1..], i / |D[0]|) + [D[0][i % |D[0]|]]
  }

  /** `getPermutation(variations, i)`: `null` (here `None`) for no digits or `i` outside [0, count). */
  function PermutationOf(D: Digits, i: int): Option<seq<Loc>>
  {
    if |D| == 0 || i < 0 || i >= Count(D) then None else Some(Pick(D, i))
  }

  lemma PickStep(D: Digits, k: int, v: nat)
    requires 0 <= k < |D|
    ensures Pick(D[k..], v) == if D[k] == [] then Pick(D[k + 1..], v)
      else Pick(D[k + 1..], v / |D[k]|) + [D[k][v % |D[k]|]]
  {
    assert D[k..][0] == D[k] && D[k..][1..] == D[k + 1..];
  }

  /** `getPermutation`: the checks on the digits and the number, then the decoding pass. */
  method GetPermutation(D: Digits, i: int) returns (r: Option<seq<Loc>>)
    ensures r == PermutationOf(D, i)
  {
    if |D| == 0 {
      return None;
    }
    if 0 > i {
      return None;
    }
    var numVariations := GetPermutationCount(D);
    if i >= numVariations {
      return None;
    }
    var locations := PickLocations(D, i);
    return Some(locations);
  }

  /** The loop of `getPermutation`: one pass over the digits, dividing down the number. */
  method PickLocations(D: Digits, i: nat) returns (locations: seq<Loc>)
    ensures locations == Pick(D, i)
  {
    locations := [];
    var variationi: nat := i;
    for listi := 0 to |D|
      invariant Pick(D[listi..], variationi) + locations == Pick(D, i)
    {
      var enharmonics := D[listi];
      PickStep(D, listi, variationi);
      if 0 < |enharmonics| {
        DivNat(variationi, |enharmonics|);
        var x := enharmonics[variationi % |enharmonics|];
        ghost var rest := Pick(D[listi + 1..], variationi / |enharmonics|);
        assert (rest + [x]) + locations == rest + ([x] + locations);
        locations := [x] + locations;
        variationi := variationi / |enharmonics|;
      }
    }
    assert Pick(D[|D|..], variationi) == [];
    assert [] + locations == locations;
  }

  // ---------------------------------------------------------------- encoding

  /** `LocationList.indexOf`: the first location with the same key (`equals`), or -1. */
  function IndexOfKey(d: seq<Loc>, x: Loc): (r: int)
    ensures -1 <= r < |d|
    ensures r >= 0 ==> d[r].Key() == x.Key() && forall j :: 0 <= j < r ==> d[j].Key() != x.Key()
    ensures r == -1 <==> forall j :: 0 <= j < |d| ==> d[j].Key() != x.Key()
  {
    if d == [] then -1
    else if d[0].Key() == x.Key() then 0
    else
      var j := IndexOfKey(d[1..], x);
      assert forall k :: 1 <= k < |d| ==> d[k] == d[1..][k - 1];
      if j < 0 then -1 else j + 1
  }

  /**
   * The number whose digits are the positions of the locations of `L`, the last location
   * in the first digit: `None` when some location is not in its digit.
   */
  function Value(D: Digits, L: seq<Loc>): Option<nat>
    requires |L| == |D|
  {
    if D == [] then Some(0)
    else
      var idx := IndexOfKey(D[0], L[|L| - 1]);
      if idx < 0 then None
      else match Value(D[1..], L[..|L| - 1])
        case None => None
        case Some(v) => Some(idx + |D[0]| * v)
  }

  /** `getPermutationNumber(variations, locations)`: -1 for no digits, a length mismatch, or a location not found. */
  function NumberOf(D: Digits, L: seq<Loc>): int
  {
    if |D| < 1 then -1
    else if |L| < 1 || |L| != |D| then -1
    else match Value(D, L)
      case None => -1
      case Some(v) => v
  }

  /** One location missing from its digit makes the whole number -1. */
  lemma {:induction false} ValueMissing(D: Digits, L: seq<Loc>, j: int)
    requires |L| == |D| && 0 <= j < |D| && IndexOfKey(D[j], L[|L| - 1 - j]) < 0
    ensures Value(D, L) == None
  {
    if j > 0 {
      assert D[1..][j - 1] == D[j];
      assert L[..|L| - 1][|L| - 1 - 1 - (j - 1)] == L[|L| - 1 - j];
      ValueMissing(D[1..], L[..|L| - 1], j - 1);
    }
  }

  lemma ValueStep(D: Digits, L: seq<Loc>, i: int)
    requires |L| == |D| && 0 <= i < |L|
    ensures Value(D[|L| - 1 - i..], L[..i + 1]) ==
      var idx := IndexOfKey(D[|L| - 1 - i], L[i]);
      if idx < 0 then None
      else match Value(D[|L| - i..], L[..i])
        case None => None
        case Some(v) => Some(idx + |D[|L| - 1 - i]| * v)
  {
    ghost var tail := D[|L| - 1 - i..];
    assert tail[0] == D[|L| - 1 - i] && tail[1..] == D[|L| - i..];
    assert L[..i + 1][i] == L[i] && L[..i + 1][..i] == L[..i];
  }

  lemma ValueHorner(D: Digits, L: seq<Loc>, i: int, p: nat)
    requires |L| == |D| && 0 <= i < |L|
    requires Value(D[|L| - i..], L[..i]) == Some(p) && IndexOfKey(D[|L| - 1 - i], L[i]) >= 0
    ensures Value(D[|L| - 1 - i..], L[..i + 1]) == Some(p * |D[|L| - 1 - i]| + IndexOfKey(D[|L| - 1 - i], L[i]))
  {
    ValueStep(D, L, i);
    var s := |D[|L| - 1 - i]|;
    assert p * s == s * p;
  }

  /** `getPermutationNumber`: Horner's rule from the last digit back to the first. */
  method GetPermutationNumber(D: Digits, L: seq<Loc>) returns (n: int)
    ensures n == NumberOf(D, L)
  {
    if |D| < 1 {
      return -1;
    }
    if |L| < 1 || |L| != |D| {
      return -1;
    }
    var permutation: nat := 0;
    for i := 0 to |L|
      invariant Value(D[|L| - i..], L[..i]) == Some(permutation)
    {
      var location := L[i];
      var enharmonics := D[|L| - 1 - i];
      var indexOf := IndexOfKey(enharmonics, location);
      ValueStep(D, L, i);
      if -1 != indexOf {
        ValueHorner(D, L, i, permutation);
        permutation := permutation * |enharmonics| + indexOf;
      } else {
        ValueMissing(D, L, |L| - 1 - i);
        return -1;
      }
    }
    assert D[0..] == D && L[..|L|] == L;
    return permutation;
  }

  // ---------------------------------------------------------------- decoding and encoding agree

  /** No two locations of a digit are `equals`. */
  predicate KeysDistinct(d: seq<Loc>)
  {
    forall a, b :: 0 <= a < b < |d| ==> d[a].Key() != d[b].Key()
  }

  /** Every digit is non-empty and its locations are told apart by `indexOf`. */
  predicate Distinguishable(D: Digits)
  {
    forall k :: 0 <= k < |D| ==> D[k] != [] && KeysDistinct(D[k])
  }

  /** Two location lists agree position by position under `equals`. */
  predicate SameKeys(a: seq<Loc>, b: seq<Loc>)
  {
    |a| == |b| && forall k :: 0 <= k < |a| ==> a[k].Key() == b[k].Key()
  }

  lemma DivModUnique(x: int, s: int, q: int, r: int)
    requires s > 0 && 0 <= r < s && x == s * q + r
    ensures x / s == q && x % s == r
  {
    var q0, r0 := x / s, x % s;
    assert s * (q0 - q) == r - r0;
    if q0 > q {
      MulAtLeast(s, q0 - q);
    } else if q0 < q {
      MulAtLeast(s, q - q0);
    }
  }

  /** Dividing a natural number by a positive size: the quotient is natural and the remainder a digit. */
  lemma DivNat(v: nat, s: int)
    requires s > 0
    ensures 0 <= v / s <= v && 0 <= v % s < s
  {
    if v / s > v {
      MulAtLeast(v / s, s);
    }
  }

  lemma DivMod(i: int, s: int)
    requires s > 0
    ensures i == s * (i / s) + i % s
  {
  }

  lemma QuotientBound(i: nat, s: int, p: int)
    requires s > 0 && i < s * p
    ensures i / s < p
  {
  }

  lemma MixedBound(idx: int, s: int, v: int, p: int)
    requires 0 <= idx < s && 0 <= v < p
    ensures idx + s * v < s * p
  {
    MulAtLeast(s, p - v);
    assert s * p - s * v == s * (p - v);
  }

  lemma IndexOfDistinct(d: seq<Loc>, j: int)
    requires KeysDistinct(d) && 0 <= j < |d|
    ensures IndexOfKey(d, d[j]) == j
  {
  }

  /** Encoding the fingering that a number decodes to gives the number back. */
  lemma {:induction false} ValueOfPick(D: Digits, i: nat)
    requires Distinguishable(D) && i < Prod(D)
    ensures |Pick(D, i)| == |D| && Value(D, Pick(D, i)) == Some(i)
  {
    if D != [] {
      var q := i / |D[0]|;
      assert Distinguishable(D[1..]) by {
        assert forall k :: 0 <= k < |D| - 1 ==> D[1..][k] == D[k + 1];
      }
      assert q < Prod(D[1..]) by {
        assert Prod(D) == |D[0]| * Prod(D[1..]);
        QuotientBound(i, |D[0]|, Prod(D[1..]));
      }
      ValueOfPick(D[1..], q);
      ValueOfPickCons(D, i);
    }
  }

  /** The step of `ValueOfPick`: the first digit's position goes in front of the rest's number. */
  lemma ValueOfPickCons(D: Digits, i: nat)
    requires D != [] && D[0] != [] && KeysDistinct(D[0])
    requires |Pick(D[1..], i / |D[0]|)| == |D| - 1
    requires Value(D[1..], Pick(D[1..], i / |D[0]|)) == Some(i / |D[0]|)
    ensures |Pick(D, i)| == |D| && Value(D, Pick(D, i)) == Some(i)
  {
    var s := |D[0]|;
    var q, r := i / s, i % s;
    var P := Pick(D, i);
    assert P == Pick(D[1..], q) + [D[0][r]];
    assert P[|P| - 1] == D[0][r] && P[..|P| - 1] == Pick(D[1..], q);
    IndexOfDistinct(D[0], r);
    ValueCons(D, P, r, q);
    DivMod(i, s);
  }

  lemma ValueCons(D: Digits, P: seq<Loc>, idx: int, v: nat)
    requires D != [] && |P| == |D| && 0 <= idx
    requires IndexOfKey(D[0], P[|P| - 1]) == idx && Value(D[1..], P[..|P| - 1]) == Some(v)
    ensures Value(D, P) == Some(idx + |D[0]| * v)
  {
  }

  /** A number that encodes a fingering is below the product, and decodes to a fingering `equals` to it. */
  lemma {:induction false} PickOfValue(D: Digits, L: seq<Loc>, v: nat)
    requires |L| == |D| && Value(D, L) == Some(v)
    ensures v < Prod(D)
    ensures forall k :: 0 <= k < |D| ==> D[k] != []
    ensures SameKeys(Pick(D, v), L)
  {
    if D != [] {
      var s := |D[0]|;
      var idx := IndexOfKey(D[0], L[|L| - 1]);
      var init := L[..|L| - 1];
      var w := Value(D[1..], init).value;
      PickOfValue(D[1..], init, w);
      DivModUnique(v, s, w, idx);
      MixedBound(idx, s, w, Prod(D[1..]));
      var P := Pick(D, v);
      assert P == Pick(D[1..], w) + [D[0][idx]];
      forall k | 0 <= k < |L|
        ensures P[k].Key() == L[k].Key()
      {
        if k < |L| - 1 {
          assert init[k] == L[k];
        }
      }
      forall k | 0 <= k < |D|
        ensures D[k] != []
      {
        if k > 0 {
          assert D[1..][k - 1] == D[k];
        }
      }
    }
  }

  /** `getPermutationNumber` inverts `getPermutation` on every valid number, when digits tell their locations apart. */
  lemma NumberOfPermutation(D: Digits, i: int)
    requires |D| >= 1 && Distinguishable(D) && 0 <= i < Count(D)
    ensures PermutationOf(D, i).Some? && NumberOf(D, PermutationOf(D, i).value) == i
  {
    LiveAll(D);
    ValueOfPick(D, i);
  }

  /**
   * Whatever `getPermutationNumber` finds is a valid number, and `getPermutation` of it
   * gives the fingering back up to `equals`.
   */
  lemma PermutationOfNumber(D: Digits, L: seq<Loc>)
    requires NumberOf(D, L) >= 0
    ensures NumberOf(D, L) < Count(D)
    ensures PermutationOf(D, NumberOf(D, L)).Some? && SameKeys(PermutationOf(D, NumberOf(D, L)).value, L)
  {
    PickOfValue(D, L, NumberOf(D, L));
    LiveAll(D);
  }

  // ---------------------------------------------------------------- the permutation string

  /** The `INVALID` mark, the letter ø. */
  const Invalid: string := "\U{00F8}"

  function Slash(x: string): string
  {
    "/" + x
  }

  function Opening(x: string): string
  {
    " (" + x
  }

  /** `number/count (digits/bases)`. */
  function Rendered(i: int, count: int, digits: string, bases: string): string
  {
    IntToString(i) + Slash(IntToString(count)) + Opening(digits) + Slash(bases) + ")"
  }

  /**
   * The digits of `i` as corrected: each non-empty digit's value and each empty digit's
   * `?` go in front, so the text lines up with the bases.
   */
  function DigitsText(D: Digits, rem: nat, acc: string): string
  {
    if D == [] then acc
    else if D[0] == [] then DigitsText(D[1..], rem, "?" + acc)
    else DigitsText(D[1..], rem / |D[0]|, IntToString(rem % |D[0]|) + acc)
  }

  /** The digits of `i` as the source builds them: an empty digit's `?` is appended at the back. */
  function DigitsTextAsWritten(D: Digits, rem: nat, acc: string): string
  {
    if D == [] then acc
    else if D[0] == [] then DigitsTextAsWritten(D[1..], rem, acc + "?")
    else DigitsTextAsWritten(D[1..], rem / |D[0]|, IntToString(rem % |D[0]|) + acc)
  }

  /** The bases: every digit's size, each in front of the earlier ones. */
  function BasesText(D: Digits, acc: string): string
  {
    if D == [] then acc else BasesText(D[1..], IntToString(|D[0]|) + acc)
  }

  /** `getPermutationString`, with the empty-digit mark corrected. */
  function PermutationString(D: Digits, i: int): string
  {
    if |D| == 0 then Invalid
    else if i < 0 then Invalid + "(" + IntToString(i) + ")"
    else if i >= Count(D) then Invalid + "(" + IntToString(i) + "/" + IntToString(Count(D)) + ")"
    else Rendered(i, Count(D), DigitsText(D, i, ""), BasesText(D, ""))
  }

  /** `getPermutationString` as written. */
  function PermutationStringAsWritten(D: Digits, i: int): string
  {
    if |D| == 0 then Invalid
    else if i < 0 then Invalid + "(" + IntToString(i) + ")"
    else if i >= Count(D) then Invalid + "(" + IntToString(i) + "/" + IntToString(Count(D)) + ")"
    else Rendered(i, Count(D), DigitsTextAsWritten(D, i, ""), BasesText(D, ""))
  }

  lemma TextStep(D: Digits, k: int, rem: nat, digits: string, bases: string)
    requires 0 <= k < |D|
    ensures DigitsText(D[k..], rem, digits) == if D[k] == [] then DigitsText(D[k + 1..], rem, "?" + digits)
      else DigitsText(D[k + 1..], rem / |D[k]|, IntToString(rem % |D[k]|) + digits)
    ensures BasesText(D[k..], bases) == BasesText(D[k + 1..], IntToString(|D[k]|) + bases)
  {
    assert D[k..][0] == D[k] && D[k..][1..] == D[k + 1..];
  }

  /** `getPermutationString`: one pass building the two digit strings front to back. */
  method GetPermutationString(D: Digits, i: int) returns (s: string)
    ensures s == PermutationString(D, i)
  {
    if |D| == 0 {
      return Invalid;
    }
    if 0 > i {
      return Invalid + "(" + IntToString(i) + ")";
    }
    var numVariations := GetPermutationCount(D);
    if i >= numVariations {
      return Invalid + "(" + IntToString(i) + "/" + IntToString(numVariations) + ")";
    }
    var binaryVar, binaryTot := DigitStrings(D, i);
    return Rendered(i, numVariations, binaryVar, binaryTot);
  }

  /** The loop of `getPermutationString`: the digit and base strings, built front to back. */
  method DigitStrings(D: Digits, i: nat) returns (binaryVar: string, binaryTot: string)
    ensures binaryVar == DigitsText(D, i, "") && binaryTot == BasesText(D, "")
  {
    binaryVar, binaryTot := "", "";
    var remainder: nat := i;
    for listi := 0 to |D|
      invariant DigitsText(D[listi..], remainder, binaryVar) == DigitsText(D, i, "")
      invariant BasesText(D[listi..], binaryTot) == BasesText(D, "")
    {
      var enharmonics := D[listi];
      TextStep(D, listi, remainder, binaryVar, binaryTot);
      var digitSize := |enharmonics|;
      if 0 < digitSize {
        DivNat(remainder, digitSize);
        binaryVar := IntToString(remainder % digitSize) + binaryVar;
        remainder := remainder / digitSize;
      } else {
        binaryVar := "?" + binaryVar;
      }
      binaryTot := IntToString(digitSize) + binaryTot;
    }
    assert D[|D|..] == [];
  }

  /** The digit text, closed form: later digits first, an empty digit shown as `?`. */
  function DigitsShown(D: Digits, rem: nat): string
  {
    if D == [] then []
    else if D[0] == [] then DigitsShown(D[1..], rem) + "?"
    else DigitsShown(D[1..], rem / |D[0]|) + IntToString(rem % |D[0]|)
  }

  /** The base text, closed form. */
  function BasesShown(D: Digits): string
  {
    if D == [] then [] else BasesShown(D[1..]) + IntToString(|D[0]|)
  }

  lemma {:induction false} DigitsTextShown(D: Digits, rem: nat, acc: string)
    ensures DigitsText(D, rem, acc) == DigitsShown(D, rem) + acc
  {
    if D != [] {
      if D[0] == [] {
        DigitsTextShown(D[1..], rem, "?" + acc);
      } else {
        DigitsTextShown(D[1..], rem / |D[0]|, IntToString(rem % |D[0]|) + acc);
      }
    }
  }

  lemma {:induction false} BasesTextShown(D: Digits, acc: string)
    ensures BasesText(D, acc) == BasesShown(D) + acc
  {
    if D != [] {
      BasesTextShown(D[1..], IntToString(|D[0]|) + acc);
    }
  }

  /** Every digit has at most nine locations, so each size prints as one character. */
  predicate SmallDigits(D: Digits)
  {
    forall k :: 0 <= k < |D| ==> |D[k]| <= 9
  }

  /** The digit and base texts line up: a `?` stands exactly above a base 0. */
  predicate Aligned(digits: string, bases: string)
  {
    |digits| == |bases| && forall k :: 0 <= k < |digits| ==> (digits[k] == '?' <==> bases[k] == '0')
  }

  lemma OneDigit(x: int)
    requires 0 <= x <= 9
    ensures IntToString(x) == [DigitChar(x)]
    ensures ParseLong(IntToString(x)) == Some(x)
  {
    ParseLongToString(x);
  }

  lemma {:induction false} ShownAligned(D: Digits, rem: nat)
    requires SmallDigits(D)
    ensures |BasesShown(D)| == |D|
    ensures Aligned(DigitsShown(D, rem), BasesShown(D))
  {
    if D != [] {
      assert SmallDigits(D[1..]) by {
        assert forall k :: 0 <= k < |D| - 1 ==> D[1..][k] == D[k + 1];
      }
      var s := |D[0]|;
      OneDigit(s);
      if s == 0 {
        ShownAligned(D[1..], rem);
      } else {
        ShownAligned(D[1..], rem / s);
        OneDigit(rem % s);
      }
    }
  }

  /** With at most nine locations per digit, the corrected digit text lines up with the bases. */
  lemma DigitsAligned(D: Digits, rem: nat)
    requires SmallDigits(D)
    ensures Aligned(DigitsText(D, rem, ""), BasesText(D, ""))
  {
    DigitsTextShown(D, rem, "");
    BasesTextShown(D, "");
    ShownAligned(D, rem);
  }

  /** Two notes, the second without a location. */
  const TwoAndNone: Digits := [[Loc(0, 0), Loc(0, 1)], []]

  /**
   * As written, the `?` of the empty second digit lands behind the first digit's value while
   * its base 0 lands in front: the digit text no longer lines up with the bases.
   */
  lemma AsWrittenMisaligned()
    ensures Count(TwoAndNone) == 2
    ensures DigitsTextAsWritten(TwoAndNone, 1, "") == "1?"
    ensures BasesText(TwoAndNone, "") == "02"
    ensures !Aligned(DigitsTextAsWritten(TwoAndNone, 1, ""), BasesText(TwoAndNone, ""))
    ensures DigitsText(TwoAndNone, 1, "") == "?1"
  {
    OneDigit(0);
    OneDigit(1);
    OneDigit(2);
    assert TwoAndNone[1..] == [[]];
    assert TwoAndNone[1..][1..] == [];
    assert DigitsTextAsWritten(TwoAndNone, 1, "") == DigitsTextAsWritten([[]], 0, "1");
    assert DigitsTextAsWritten([[]], 0, "1") == "1?";
    assert DigitsText(TwoAndNone, 1, "") == DigitsText([[]], 0, "1");
    assert DigitsText([[]], 0, "1") == "?1";
    assert BasesText(TwoAndNone, "") == BasesText([[]], "2");
    assert BasesText([[]], "2") == "02";
    assert "1?"[0] != '?' && "02"[0] == '0';
  }

  // ---------------------------------------------------------------- reading a permutation string back

  /** The class `[() /]` that `getPermutationValues` splits on. */
  const PermDelims: string := "() /"

  /** `Long.parseLong`, failing with `NumberFormatException`. */
  function LongOf(s: string): (r: Result<int>)
    ensures r.Ok? <==> ParseLong(s).Some?
    ensures r.Ok? ==> r.value == ParseLong(s).value
    ensures r.Err? ==> r.fault == NumberFormat
  {
    match ParseLong(s)
    case None => Err(NumberFormat)
    case Some(v) => Ok(v)
  }

  /**
   * The `getPermutationValues` loop: for each character of `a`, the number it is, then the
   * number the character at the same place in `b` is; a `b` too short throws
   * `StringIndexOutOfBoundsException`.
   */
  function Pairs(a: string, b: string): (r: Result<seq<int>>)
    ensures r.Ok? ==> |r.value| == 2 * |a|
  {
    if a == [] then Ok([])
    else
      var x :- LongOf(a[..1]);
      if b == [] then Err(IndexOutOfBounds)
      else
        var y :- LongOf(b[..1]);
        var rest :- Pairs(a[1..], b[1..]);
        Ok([x, y] + rest)
  }

  /**
   * `getPermutationValues(text)`: no value (here `Ok(None)`) for fewer than two pieces or a
   * count other than 2 and 4; two pieces give `[number, count, 0]`; four give `[number,
   * count, notes]` followed by a value and a base per note.
   */
  function PermutationValues(s: string): Result<Option<seq<int>>>
  {
    var t := SplitRuns(s, PermDelims);
    if |t| < 2 then Ok(None)
    else if |t| == 2 then
      var a :- LongOf(t[0]);
      var b :- LongOf(t[1]);
      Ok(Some([a, b, 0]))
    else if |t| == 4 then FourValues(t)
    else Ok(None)
  }

  /** Four pieces: the number, the count, the note count, then a value and a base per note. */
  function FourValues(t: seq<string>): Result<Option<seq<int>>>
    requires |t| == 4
  {
    var a :- LongOf(t[0]);
    var b :- LongOf(t[1]);
    var p :- Pairs(t[2], t[3]);
    Ok(Some([a, b, |t[2]|] + p))
  }

  /** What the rest of the loop makes of `r`, after the values already stored in `done`. */
  function After(done: seq<int>, r: Result<seq<int>>): Result<seq<int>>
  {
    match r
    case Ok(v) => Ok(done + v)
    case Err(f) => Err(f)
  }

  /** `getPermutationValues`: the values filled into an array, two per note. */
  method GetPermutationValues(s: string) returns (r: Result<Option<seq<int>>>)
    ensures r == PermutationValues(s)
  {
    var tokens := SplitRuns(s, PermDelims);
    if |tokens| < 2 {
      return Ok(None);
    }
    if |tokens| == 2 {
      var a := LongOf(tokens[0]);
      if a.Err? {
        return Err(a.fault);
      }
      var b := LongOf(tokens[1]);
      if b.Err? {
        return Err(b.fault);
      }
      return Ok(Some([a.value, b.value, 0]));
    }
    if |tokens| == 4 {
      r := GetFourValues(tokens);
      return;
    }
    return Ok(None);
  }

  /** Before the loop nothing is stored; after it nothing is left to read. */
  lemma PairsStart(a: string, b: string)
    ensures After([], Pairs(a[0..], b[0..])) == Pairs(a, b)
  {
    assert a[0..] == a && b[0..] == b;
    match Pairs(a, b) {
      case Ok(v) => assert [] + v == v;
      case Err(_) =>
    }
  }

  lemma PairsEnd(a: string, b: string, done: seq<int>)
    requires |a| <= |b|
    ensures After(done, Pairs(a[|a|..], b[|a|..])) == Ok(done)
  {
    assert a[|a|..] == [];
    assert done + [] == done;
  }

  /** One turn of the `getPermutationValues` loop, on what is left of the two texts. */
  lemma PairsStep(a: string, b: string, i: int, done: seq<int>)
    requires 0 <= i < |a| && i <= |b|
    ensures LongOf(a[i..i + 1]).Err? ==> After(done, Pairs(a[i..], b[i..])) == Err(NumberFormat)
    ensures LongOf(a[i..i + 1]).Ok? && i == |b| ==> After(done, Pairs(a[i..], b[i..])) == Err(IndexOutOfBounds)
    ensures LongOf(a[i..i + 1]).Ok? && i < |b| && LongOf(b[i..i + 1]).Err? ==> After(done, Pairs(a[i..], b[i..])) == Err(NumberFormat)
    ensures LongOf(a[i..i + 1]).Ok? && i < |b| && LongOf(b[i..i + 1]).Ok? ==>
      After(done, Pairs(a[i..], b[i..]))
        == After(done + [LongOf(a[i..i + 1]).value, LongOf(b[i..i + 1]).value], Pairs(a[i + 1..], b[i + 1..]))
  {
    assert a[i..][..1] == a[i..i + 1] && a[i..][1..] == a[i + 1..];
    if i < |b| {
      assert b[i..][..1] == b[i..i + 1] && b[i..][1..] == b[i + 1..];
      if LongOf(a[i..i + 1]).Ok? && LongOf(b[i..i + 1]).Ok? {
        var xy := [LongOf(a[i..i + 1]).value, LongOf(b[i..i + 1]).value];
        match Pairs(a[i + 1..], b[i + 1..]) {
          case Ok(v) => assert (done + xy) + v == done + (xy + v);
          case Err(_) =>
        }
      }
    }
  }

  /** The `getPermutationValues` loop: two values per note stored from position 3 of `vals` on. */
  method FillPairs(vals: array<int>, a: string, b: string) returns (r: Result<seq<int>>)
    requires vals.Length == 3 + 2 * |a|
    modifies vals
    ensures vals[..3] == old(vals[..3])
    ensures r == Pairs(a, b)
    ensures r.Ok? ==> vals[3..] == r.value
  {
    ghost var head, done: seq<int> := vals[..3], [];
    PairsStart(a, b);
    for i := 0 to |a|
      invariant i <= |b| && |done| == 2 * i
      invariant forall k :: 0 <= k < 3 ==> vals[k] == head[k]
      invariant forall k :: 0 <= k < |done| ==> vals[3 + k] == done[k]
      invariant Pairs(a, b) == After(done, Pairs(a[i..], b[i..]))
    {
      var vali := 3 + i * 2;
      PairsStep(a, b, i, done);
      var x := LongOf(a[i..i + 1]);
      if x.Err? {
        assert vals[..3] == head;
        return Err(x.fault);
      }
      vals[vali] := x.value;
      if i + 1 > |b| {
        assert vals[..3] == head;
        return Err(IndexOutOfBounds);
      }
      var y := LongOf(b[i..i + 1]);
      if y.Err? {
        assert vals[..3] == head;
        return Err(y.fault);
      }
      vals[vali + 1] := y.value;
      done := done + [x.value, y.value];
    }
    PairsEnd(a, b, done);
    assert vals[..3] == head;
    assert vals[3..] == done;
    r := Ok(vals[3..]);
  }

  /** The four-piece branch of `getPermutationValues`: the array filled two values per note. */
  method GetFourValues(tokens: seq<string>) returns (r: Result<Option<seq<int>>>)
    requires |tokens| == 4
    ensures r == FourValues(tokens)
  {
    var noteCount := |tokens[2]|;
    var vals := new int[3 + 2 * noteCount];
    var a := LongOf(tokens[0]);
    if a.Err? {
      return Err(a.fault);
    }
    vals[0] := a.value;
    var b := LongOf(tokens[1]);
    if b.Err? {
      return Err(b.fault);
    }
    vals[1] := b.value;
    vals[2] := noteCount;
    assert vals[..3] == [a.value, b.value, noteCount];
    var p := FillPairs(vals, tokens[2], tokens[3]);
    if p.Err? {
      return Err(p.fault);
    }
    assert vals[..] == vals[..3] + vals[3..];
    return Ok(Some(vals[..]));
  }

  /** The position each location of the decoded fingering takes in its digit, in fingering order. */
  function DigitValues(D: Digits, rem: nat): (r: seq<int>)
    ensures |r| == |D|
  {
    if D == [] then [] else DigitValues(D[1..], rem / Radix(D[0])) + [rem % Radix(D[0])]
  }

  /** The sizes of the digits, in fingering order. */
  function Radices(D: Digits): (r: seq<int>)
    ensures |r| == |D|
  {
    if D == [] then [] else Radices(D[1..]) + [|D[0]|]
  }

  /** Value and base of each note side by side. */
  function Interleave(a: seq<int>, b: seq<int>): (r: seq<int>)
    requires |a| == |b|
    ensures |r| == 2 * |a|
  {
    if a == [] then [] else [a[0], b[0]] + Interleave(a[1..], b[1..])
  }

  /** The text of single digits. */
  function Chars(xs: seq<int>): (s: string)
    requires forall k :: 0 <= k < |xs| ==> 0 <= xs[k] < 10
    ensures |s| == |xs|
  {
    seq(|xs|, k requires 0 <= k < |xs| => DigitChar(xs[k]))
  }

  /**
   * The location at place `k` of the decoded fingering is the one at place `DigitValues[k]`
   * of digit `|D| - 1 - k`, whose size is `Radices[k]`.
   */
  lemma {:induction false} PickDigits(D: Digits, i: nat)
    requires forall k :: 0 <= k < |D| ==> D[k] != []
    ensures |Pick(D, i)| == |D|
    ensures forall k :: 0 <= k < |D| ==> Radices(D)[k] == |D[|D| - 1 - k]|
    ensures forall k :: 0 <= k < |D| ==> 0 <= DigitValues(D, i)[k] < Radices(D)[k]
    ensures forall k :: 0 <= k < |D| ==> Pick(D, i)[k] == D[|D| - 1 - k][DigitValues(D, i)[k]]
  {
    LiveAll(D);
    if D != [] {
      var s := |D[0]|;
      DivNat(i, s);
      assert forall k :: 0 <= k < |D| - 1 ==> D[1..][k] == D[k + 1];
      PickDigits(D[1..], i / s);
      assert Pick(D, i) == Pick(D[1..], i / s) + [D[0][i % s]];
      assert DigitValues(D, i) == DigitValues(D[1..], i / s) + [i % s];
      assert Radices(D) == Radices(D[1..]) + [s];
      PlacesSnoc(D, Pick(D[1..], i / s), DigitValues(D[1..], i / s), Radices(D[1..]), i % s);
    }
  }

  /** Placing the first digit's location and position last keeps every place's digit and size. */
  lemma PlacesSnoc(D: Digits, P: seq<Loc>, V: seq<int>, R: seq<int>, r: int)
    requires D != [] && |P| == |V| == |R| == |D| - 1 && 0 <= r < |D[0]|
    requires forall k :: 0 <= k < |R| ==> R[k] == |D[1..][|R| - 1 - k]|
    requires forall k :: 0 <= k < |R| ==> 0 <= V[k] < R[k]
    requires forall k :: 0 <= k < |R| ==> P[k] == D[1..][|R| - 1 - k][V[k]]
    ensures forall k :: 0 <= k < |D| ==> (R + [|D[0]|])[k] == |D[|D| - 1 - k]|
    ensures forall k :: 0 <= k < |D| ==> 0 <= (V + [r])[k] < (R + [|D[0]|])[k]
    ensures forall k :: 0 <= k < |D| ==> (P + [D[0][r]])[k] == D[|D| - 1 - k][(V + [r])[k]]
  {
    assert forall j :: 0 <= j < |R| ==> D[1..][j] == D[j + 1];
  }

  lemma {:induction false} ShownChars(D: Digits, rem: nat)
    requires forall k :: 0 <= k < |D| ==> 0 < |D[k]| <= 9
    ensures forall k :: 0 <= k < |D| ==> 0 <= DigitValues(D, rem)[k] < 10 && 0 <= Radices(D)[k] < 10
    ensures DigitsShown(D, rem) == Chars(DigitValues(D, rem))
    ensures BasesShown(D) == Chars(Radices(D))
  {
    if D != [] {
      var s := |D[0]|;
      assert forall k :: 0 <= k < |D| - 1 ==> D[1..][k] == D[k + 1];
      ShownChars(D[1..], rem / s);
      OneDigit(s);
      OneDigit(rem % s);
      var V, R := DigitValues(D, rem), Radices(D);
      assert V == DigitValues(D[1..], rem / s) + [rem % s];
      assert R == Radices(D[1..]) + [s];
      assert Chars(V) == Chars(DigitValues(D[1..], rem / s)) + [DigitChar(rem % s)];
      assert Chars(R) == Chars(Radices(D[1..])) + [DigitChar(s)];
    }
  }

  lemma {:induction false} PairsOfChars(a: seq<int>, b: seq<int>)
    requires |a| == |b|
    requires forall k :: 0 <= k < |a| ==> 0 <= a[k] < 10 && 0 <= b[k] < 10
    ensures Pairs(Chars(a), Chars(b)) == Ok(Interleave(a, b))
  {
    if a != [] {
      var ca, cb := Chars(a), Chars(b);
      assert ca[..1] == [DigitChar(a[0])] && cb[..1] == [DigitChar(b[0])];
      assert ca[1..] == Chars(a[1..]) && cb[1..] == Chars(b[1..]);
      OneDigit(a[0]);
      OneDigit(b[0]);
      PairsOfChars(a[1..], b[1..]);
    }
  }

  lemma SlashTokens(x: string)
    requires x != [] && Free(x, PermDelims)
    ensures Tokens(Slash(x), PermDelims) == [x]
  {
    assert Slash(x) == [] + ['/'] + x;
    TokensConcat([], '/', x, PermDelims);
    TokensOfFree(x, PermDelims);
    assert Tokens([], PermDelims) == [];
  }

  lemma OpeningTokens(x: string)
    requires x != [] && Free(x, PermDelims)
    ensures Tokens(Opening(x), PermDelims) == [x]
  {
    assert Opening(x) == [] + [' '] + ("(" + x);
    assert "(" + x == [] + ['('] + x;
    TokensConcat([], ' ', "(" + x, PermDelims);
    TokensConcat([], '(', x, PermDelims);
    TokensOfFree(x, PermDelims);
    assert Tokens([], PermDelims) == [];
  }

  /** The four pieces of a rendered permutation string come back out of the split. */
  lemma RenderedSplit(i: nat, count: nat, digits: string, bases: string)
    requires digits != [] && Free(digits, PermDelims) && bases != [] && Free(bases, PermDelims)
    ensures SplitRuns(Rendered(i, count, digits, bases), PermDelims) == [IntToString(i), IntToString(count), digits, bases]
  {
    var I, C := IntToString(i), IntToString(count);
    NatToStringFree(i, PermDelims);
    NatToStringFree(count, PermDelims);
    var s := Rendered(i, count, digits, bases);
    TokensAppend(I, Slash(C), PermDelims);
    TokensAppend(I + Slash(C), Opening(digits), PermDelims);
    TokensAppend(I + Slash(C) + Opening(digits), Slash(bases), PermDelims);
    TokensAppend(I + Slash(C) + Opening(digits) + Slash(bases), ")", PermDelims);
    TokensOfFree(I, PermDelims);
    SlashTokens(C);
    OpeningTokens(digits);
    SlashTokens(bases);
    assert ")" == [] + [')'] + [];
    TokensConcat([], ')', [], PermDelims);
    assert Tokens([], PermDelims) == [];
    assert s[|I|] == '/';
    assert s[0] == I[0];
  }

  /**
   * `getPermutationValues` reads back what `getPermutationString` printed, when every note
   * has between one and nine locations: the number, the count, the note count, then the
   * value and the base of each note in fingering order.
   */
  lemma ValuesOfString(D: Digits, i: int)
    requires forall k :: 0 <= k < |D| ==> 0 < |D[k]| <= 9
    requires |D| >= 1 && 0 <= i < Count(D) && Count(D) <= LONG_MAX
    ensures PermutationValues(PermutationString(D, i)) == Ok(Some([i, Count(D), |D|] + Interleave(DigitValues(D, i), Radices(D))))
  {
    var digits, bases := DigitsText(D, i, ""), BasesText(D, "");
    TextChars(D, i);
    assert PermutationString(D, i) == Rendered(i, Count(D), digits, bases);
    RenderedSplit(i, Count(D), digits, bases);
    FourOfChars(IntToString(i), IntToString(Count(D)), i, Count(D), DigitValues(D, i), Radices(D));
  }

  /** The two digit texts of a fingering whose digits have one to nine locations. */
  lemma TextChars(D: Digits, i: nat)
    requires forall k :: 0 <= k < |D| ==> 0 < |D[k]| <= 9
    ensures forall k :: 0 <= k < |D| ==> 0 <= DigitValues(D, i)[k] < 10 && 0 <= Radices(D)[k] < 10
    ensures DigitsText(D, i, "") == Chars(DigitValues(D, i)) && BasesText(D, "") == Chars(Radices(D))
  {
    DigitsTextShown(D, i, "");
    BasesTextShown(D, "");
    ShownChars(D, i);
  }

  lemma FourOfChars(I: string, C: string, i: int, count: int, a: seq<int>, b: seq<int>)
    requires LONG_MIN <= i <= LONG_MAX && LONG_MIN <= count <= LONG_MAX
    requires I == IntToString(i) && C == IntToString(count)
    requires |a| == |b| && forall k :: 0 <= k < |a| ==> 0 <= a[k] < 10 && 0 <= b[k] < 10
    ensures FourValues([I, C, Chars(a), Chars(b)]) == Ok(Some([i, count, |a|] + Interleave(a, b)))
  {
    ParseLongToString(i);
    ParseLongToString(count);
    PairsOfChars(a, b);
  }

  // ---------------------------------------------------------------- examples

  /** Four locations on one string: a note with four places to be played. */
  function Quad(str: int): seq<Loc>
  {
    [Loc(str, 0), Loc(str, 1), Loc(str, 2), Loc(str, 3)]
  }

  /** Three notes with four locations each: 64 fingerings, number 15 has digits 3, 3 and 0. */
  lemma FifteenOfSixtyFour()
    ensures Count([Quad(0), Quad(1), Quad(2)]) == 64
    ensures PermutationString([Quad(0), Quad(1), Quad(2)], 15) == "15/64 (033/444)"
  {
    var D := [Quad(0), Quad(1), Quad(2)];
    assert D[1..] == [Quad(1), Quad(2)] && D[1..][1..] == [Quad(2)] && D[1..][1..][1..] == [];
    assert IntToString(3) == "3" && IntToString(0) == "0" && IntToString(4) == "4";
    assert D[0] != [] && |D[0]| == 4 && 15 / 4 == 3 && 15 % 4 == 3;
    assert "3" + "" == "3" && "4" + "" == "4";
    calc {
      DigitsText(D, 15, "");
      DigitsText([Quad(1), Quad(2)], 3, "3");
      DigitsText([Quad(2)], 0, "33");
      DigitsText([], 0, "033");
    }
    calc {
      BasesText(D, "");
      BasesText([Quad(1), Quad(2)], "4");
      BasesText([Quad(2)], "44");
      BasesText([], "444");
    }
    assert IntToString(15) == "15" && IntToString(64) == "64";
  }

  /** Any text rendered from single-digit values and bases reads back as those values. */
  lemma ValuesOfRendered(i: nat, count: nat, a: seq<int>, b: seq<int>)
    requires i <= LONG_MAX && count <= LONG_MAX
    requires |a| == |b| && a != [] && forall k :: 0 <= k < |a| ==> 0 <= a[k] < 10 && 0 <= b[k] < 10
    ensures PermutationValues(Rendered(i, count, Chars(a), Chars(b))) == Ok(Some([i, count, |a|] + Interleave(a, b)))
  {
    CharsFree(a);
    CharsFree(b);
    RenderedSplit(i, count, Chars(a), Chars(b));
    FourOfChars(IntToString(i), IntToString(count), i, count, a, b);
  }

  lemma CharsFree(a: seq<int>)
    requires forall k :: 0 <= k < |a| ==> 0 <= a[k] < 10
    ensures Free(Chars(a), PermDelims)
  {
    forall k | 0 <= k < |a|
      ensures IsDigit(Chars(a)[k])
    {
    }
  }

  /** Number 15 of 64 over three notes with values 1, 2, 3 and bases 4, 5, 6. */
  lemma RenderedFifteen()
    ensures Rendered(15, 64, "123", "456") == "15/64 (123/456)"
  {
    var I, C := IntToString(15), IntToString(64);
    assert I == "15" && C == "64";
    var head := I + Slash(C);
    assert head == "15/64";
    assert Rendered(15, 64, "123", "456") == head + " (123/456)";
  }

  lemma CharsOfExample()
    ensures Chars([1, 2, 3]) == "123" && Chars([4, 5, 6]) == "456"
  {
  }

  lemma InterleaveThree(a0: int, a1: int, a2: int, b0: int, b1: int, b2: int)
    ensures Interleave([a0, a1, a2], [b0, b1, b2]) == [a0, b0, a1, b1, a2, b2]
  {
    var a, b := [a0, a1, a2], [b0, b1, b2];
    var a', b' := [a1, a2], [b1, b2];
    var a'', b'' := [a2], [b2];
    assert a''[1..] == [] && b''[1..] == [];
    assert Interleave(a'', b'') == [a2, b2];
    assert a'[1..] == a'' && b'[1..] == b'';
    assert Interleave(a', b') == [a1, b1] + [a2, b2];
    assert a[1..] == a' && b[1..] == b';
  }

  /** Reading a four-piece text: number 15 of 64, three notes, value and base side by side. */
  lemma ValuesOfFourPieces()
    ensures PermutationValues(Rendered(15, 64, "123", "456")) == Ok(Some([15, 64, 3, 1, 4, 2, 5, 3, 6]))
  {
    var a, b := [1, 2, 3], [4, 5, 6];
    CharsOfExample();
    ValuesOfRendered(15, 64, a, b);
    InterleaveThree(1, 2, 3, 4, 5, 6);
    assert [15, 64, |a|] + [1, 4, 2, 5, 3, 6] == [15, 64, 3, 1, 4, 2, 5, 3, 6];
  }

  /** Reading a two-piece text gives the number, the count and no notes. */
  lemma ValuesOfTwoPieces()
    ensures PermutationValues("8/100") == Ok(Some([8, 100, 0]))
  {
    assert IntToString(100) == "100" && IntToString(8) == "8";
    assert SplitRuns("8/100", PermDelims) == ["8", "100"] by {
      assert "8/100" == "8" + Slash("100");
      NatToStringFree(100, PermDelims);
      TokensAppend("8", Slash("100"), PermDelims);
      TokensOfFree("8", PermDelims);
      SlashTokens("100");
    }
    ParseLongToString(8);
    ParseLongToString(100);
  }

  // ---------------------------------------------------------------- exploding

  /** Every fingering of the variations, by number. */
  function Explode(D: Digits): (r: seq<seq<Loc>>)
    ensures |r| == Count(D)
  {
    seq(Count(D), i requires 0 <= i < Count(D) => Pick(D, i))
  }

  /** `explodeAndSort(variations, ranker)`: every fingering, then a stable sort by the ranker's totals. */
  method ExplodeAndSort(D: Digits, ranker: ChordRanks.ChordRank) returns (sorted: seq<seq<Loc>>)
    ensures sorted == SortBy(Explode(D), ChordRanks.Comparator(ranker.AsWeights()))
  {
    var varCount := GetPermutationCount(D);
    var sortedVars: seq<seq<Loc>> := [];
    for i := 0 to varCount
      invariant sortedVars == Explode(D)[..i]
    {
      var p := GetPermutation(D, i);
      sortedVars := sortedVars + [p.value];
    }
    assert sortedVars == Explode(D);
    sorted := SortBy(sortedVars, ChordRanks.Comparator(ranker.AsWeights()));
  }

  /**
   * The exploded fingerings are all the numbered ones, sorted by total, and the sort keeps
   * the numbering order among fingerings with equal totals.
   */
  lemma ExplodeAndSortMeaning(D: Digits, w: ChordRanks.Weights, e: seq<Loc>)
    ensures |SortBy(Explode(D), ChordRanks.Comparator(w))| == Count(D)
    ensures multiset(SortBy(Explode(D), ChordRanks.Comparator(w))) == multiset(Explode(D))
    ensures Sorted(SortBy(Explode(D), ChordRanks.Comparator(w)), ChordRanks.Comparator(w))
    ensures Ties(SortBy(Explode(D), ChordRanks.Comparator(w)), e, ChordRanks.Comparator(w))
      == Ties(Explode(D), e, ChordRanks.Comparator(w))
    ensures forall i :: 0 <= i < Count(D) ==> Pick(D, i) in SortBy(Explode(D), ChordRanks.Comparator(w))
  {
    var cmp := ChordRanks.Comparator(w);
    ChordRanks.ComparatorLawful(w);
    SortPermutes(Explode(D), cmp);
    SortSorted(Explode(D), cmp);
    SortStable(Explode(D), e, cmp);
    forall i | 0 <= i < Count(D)
      ensures Pick(D, i) in SortBy(Explode(D), cmp)
    {
      assert Explode(D)[i] == Pick(D, i);
      assert Pick(D, i) in multiset(Explode(D));
    }
  }
}
