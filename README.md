# Frets fingering engine, modelled in Dafny

Frets finds and ranks ways to finger notes on a fretted, stringed instrument. This project models its engine in Dafny 4.11 and proves properties of the model.

- **Pitches.** A note is an octave plus a pitch class in `[0, 12)`. Its absolute value is `12 * octave + value`. Notes are shifted by semitones, compared, printed ("C#3") and parsed back.
- **Intervals.** An interval is a named step of 0 to 24 semitones, such as `minorThird` or `"b3"` (59 constants in all). A formula such as `"R-3-5"` is read into a list of intervals. A root plus a formula builds a note list.
- **Strings and fretboards.** A guitar string maps a note to a fret, or to `NOFRET` (-1) when it cannot play it. It maps a fret back to a note. A fretboard is a list of strings that caches its lowest and highest string. It finds every location of a note, at most one per string. It collects, for each note of a chord, the locations that could play it; these lists are the *variations*.
- **Locations.** A location is a (string, fret) pair with the key `101 * string + fret`. A location list answers span, skipped-string, bounds and filter queries. It is transposed and filtered in place, compared, printed and parsed.
- **The fingering codec.** The variations form a mixed-radix number: each note's location list is one digit, and its size is that digit's radix. A fingering number decodes to one fingering (`getPermutation`), and a fingering encodes back to its number (`getPermutationNumber`). The number and its digits are also printed as text ("15/64 (033/444)") and read back (`getPermutationValues`).
- **Scoring.** A `ChordRank` scores a fingering by four components:
  - the distance of its frets outside a preferred range;
  - a tiered fret-span score;
  - the number of skipped strings, times a penalty;
  - the number of notes sharing a string, times a penalty.
  The total orders fingerings when they are sorted (`explodeAndSort`).
- **Fingers.** The five fingers of the fretting hand, with their English and Latin names and the values 0 to 4.

## Layout

- **Value types.** Notes, locations and strings are also modelled as `datatype` values: `Pitch`, `Loc` and `GString`. These values are what the lists hold.
- **Classes.** The Java classes whose fields change in place are `class`es with `modifies` clauses: `Note`, `Location`, `LocationList`, `NoteList`, `Fretboard` and `ChordRank`.
- **Loops.** The loops that build a list, parse text or change state are `method`s, each proved equal to a specification function. The read-only accumulation loops are modelled as pure functions only, with no method: `LocationList`'s `minFret`/`maxFret`, `fretSpan`/`stringSpan`, `getStringCount`/`uniqueStrings`, `getBoundedCount`/`getBounded`, `getSkippedStringCount` and `toString`, and the search loops of `Interval.getInterval`. The properties are proved about the specification functions.
- **Objects passed as arguments.** Several Java operations take a `Fretboard` or a `ChordRank` object; the model passes that object's contents as plain values. `Location.getNote(fretboard)` and `LocationList.transposeFrets/transposeStrings(fretboard, …)` take the fretboard's strings as a `seq<GString>`. The `ChordRank` scores take its four weights as a `Weights` value.
- **Java library behaviour** is modelled explicitly in `JavaText`:
  - `String.split`, which drops trailing empty pieces;
  - `StringTokenizer`, which drops all empty pieces;
  - `Integer.parseInt` and `Long.parseLong`, with their ranges, reading ASCII digits only (see Left out);
  - `Integer.toString`;
  - `replaceAll("\\s", "")`;
  - `%` truncating toward zero;
  - 32-bit wrap-around, where the source relies on it.
- **Exceptions.** A Java exception is an `Err` of `Outcomes.Result`, carrying one of the faults `IllegalArgument`, `NumberFormat`, `IndexOutOfBounds` or `NoSuchElement`. A method that changes state and may throw returns `Outcomes.Status`. A `null` result is `None` of `Outcomes.Option`.
- **`Collections.sort`** is modelled by `Sorting.SortBy`, a stable insertion sort. It is proved to permute its input, to order it under a lawful comparator, and to keep tied elements in order.

Files:
- `outcomes.dfy`;
- `javatext.dfy`;
- `notes.dfy`;
- `intervals.dfy`;
- `locations.dfy`;
- `guitarstrings.dfy`;
- `locationlists.dfy`;
- `fretboards.dfy`;
- `permutations.dfy`;
- `chordranks.dfy`;
- `notelists.dfy`;
- `fingers.dfy`;
- `sorting.dfy`.

## Model

| member | source | states |
|---|---|---|
| Notes.Normal | src/main/java/frets/main/Note.java:416-426 | `normalize` leaves the pitch class in [0, 12) and keeps the absolute value `12*octave + value` |
| Notes.NormalizedByAbs | src/main/java/frets/main/Note.java:412-426 | two normalized notes with the same absolute value are the same note |
| Notes.NormalOfNormalized | src/main/java/frets/main/Note.java:416-426 | `normalize` changes nothing on a normalized note |
| Notes.Plus | src/main/java/frets/main/Note.java:224-228 | static `plus(one, k)` is normalized and its absolute value is that of `one` plus `k` |
| Notes.Minus | src/main/java/frets/main/Note.java:264-268 | static `minus(one, k)` is normalized and its absolute value is that of `one` minus `k` |
| Notes.PlusPitch | src/main/java/frets/main/Note.java:203-209 | static `plus(one, other)` is normalized and its absolute value is the sum of both |
| Notes.MinusPitch | src/main/java/frets/main/Note.java:243-249 | static `minus(one, other)` is normalized and its absolute value is the difference |
| Notes.MinusUndoesPlus | src/main/java/frets/main/Note.java:212-268 | moving a note up by `k` and back down by `k` gives the normalized note back |
| Notes.CompareMeaning | src/main/java/frets/main/Note.java:333-348 | on normalized notes `equals` (same octave and value) holds iff `compareTo` is 0; `compareTo` is antisymmetric |
| Notes.NameOfShape | src/main/java/frets/main/Note.java:22-83 | every pitch class has a sharp name: a capital letter A-G, a `#` only as second character, and letter plus sharp spell that class |
| Notes.ToStringHasNoSpaces | src/main/java/frets/main/Note.java:353-368 | `toString` prints no whitespace, so stripping it changes nothing |
| Notes.ParseToString | src/main/java/frets/main/Note.java:130-162 | parsing what `toString` prints gives back the same note (for octaves that fit a Java `int`) |
| Notes.ParseShaped | src/main/java/frets/main/Note.java:130-158 | a letter, an optional `#` and the octave printed only when nonzero parse as the note they spell |
| Notes.ParseFlatExample | src/main/java/frets/main/Note.java:130-158 | `"Eb4"` parses as octave 4, pitch class 3 |
| Notes.ParseSpacedExample | src/main/java/frets/main/Note.java:130-158 | whitespace anywhere is dropped and `s` is a sharp: `"   F s    "` parses as F#0 |
| Notes.LetterWithAccidental | src/main/java/frets/main/Note.java:136-158 | a letter followed only by an accidental gives octave 0 and the letter's class moved by the accidental, normalized |
| Notes.ParseCarryExample | src/main/java/frets/main/Note.java:130-158 | `"Cb"` carries into the octave below: B of octave -1 |
| Notes.LetterBelowC | src/main/java/frets/main/Note.java:142-158 | a letter flattened below C becomes pitch class +12 in octave -1 |
| Notes.FlatC | src/main/java/frets/main/Note.java:136-158 | C followed by a flat sign, in either case, parses as B of octave -1 |
| Notes.ParseRefusals | src/main/java/frets/main/Note.java:130-139 | empty input, whitespace only and a non-letter such as `","` each throw `IllegalArgumentException` |
| Notes.QualityName | src/main/java/frets/main/Note.java:310-326 | `getQualityName` returns the name at index `(current - root) mod 12` of the pitch classes, octaves ignored |
| Notes.Note.constructor | src/main/java/frets/main/Note.java:89-92 | `Note()` is C0 |
| Notes.Note.Of | src/main/java/frets/main/Note.java:95-99 | `Note(octave, value)` holds the normalized pair |
| Notes.Note.Steps | src/main/java/frets/main/Note.java:102-106 | `Note(interval)` is octave 0 plus `interval` semitones, normalized |
| Notes.Note.Copy | src/main/java/frets/main/Note.java:116-121 | the copy constructor gives a normalized copy of `other` |
| Notes.Note.Normalize | src/main/java/frets/main/Note.java:416-426 | the two while loops leave the note equal to `Normal` of its old value |
| Notes.Note.PlusSteps | src/main/java/frets/main/Note.java:212-217 | instance `plus(k)`: 0 changes nothing, otherwise the note becomes `Plus(old, k)` |
| Notes.Note.MinusSteps | src/main/java/frets/main/Note.java:252-257 | instance `minus(k)`: 0 changes nothing, otherwise the note becomes `Minus(old, k)` |
| Notes.Note.PlusNote | src/main/java/frets/main/Note.java:194-201 | instance `plus(other)` adds octaves and values, then normalizes |
| Notes.Note.MinusNote | src/main/java/frets/main/Note.java:234-241 | instance `minus(other)` subtracts octaves and values, then normalizes |
| Notes.Note.PlusOf | src/main/java/frets/main/Note.java:224-228 | static `plus(one, k)` returns a fresh note equal to `Plus(one, k)` and does not change `one` |
| Notes.Note.MinusOf | src/main/java/frets/main/Note.java:264-268 | static `minus(one, k)` returns a fresh note equal to `Minus(one, k)` and does not change `one` |
| Notes.Note.Quality | src/main/java/frets/main/Note.java:287-297 | `getQuality` counts semitones from the root's class up to this one; on normalized notes it lies in [0, 12) |
| Intervals.Value | src/main/java/frets/main/Interval.java:16-74 | every constant's semitone distance lies in [0, 24] |
| Intervals.FirstNamed | src/main/java/frets/main/Interval.java:105-108 | the search over the constants in declaration order finds the first one with the name, or reports that none has it |
| Intervals.FirstValued | src/main/java/frets/main/Interval.java:114-117 | the search finds the first declared constant with the value, or reports that none has it |
| Intervals.Resolve | src/main/java/frets/main/Interval.java:142-149 | a token that does not resolve fails with an illegal-argument error |
| Intervals.DelimiterFor | src/main/java/frets/main/Interval.java:124-129 | the one-argument form uses `"-"` iff the formula contains a dash, and a space otherwise |
| Intervals.GetIntervals | src/main/java/frets/main/Interval.java:134-153 | the tokenizer loop returns exactly the resolved formula: the first unresolved token fails, otherwise one interval per token |
| Intervals.GetIntervalsOf | src/main/java/frets/main/Interval.java:124-129 | the one-argument form is the two-argument form with the chosen delimiter |
| Intervals.FromNameMeaning | src/main/java/frets/main/Interval.java:101-110 | `getInterval(String)` succeeds iff the name is non-empty and some constant has it, and then returns a constant with that name |
| Intervals.FromValueMeaning | src/main/java/frets/main/Interval.java:111-119 | `getInterval(int)` succeeds iff some constant has the value, and returns the first declared one |
| Intervals.FromValueExamples | src/main/java/frets/main/Interval.java:111-119 | 3 gives `minorThird`; 13, -1 and 25 throw |
| Intervals.FromNameExamples | src/main/java/frets/main/Interval.java:101-110 | `"b3"` is found by its exact name; the empty name throws |
| Intervals.ResolvedMeaning | src/main/java/frets/main/Interval.java:139-152 | a token list resolves iff every token does, and then gives one interval per token, in token order; a failure is an illegal-argument error |
| Locations.KeyInjective | src/main/java/frets/main/Location.java:236-239 | while frets stay in [0, 100], two locations have the same key iff they are the same location |
| Locations.KeyCollision | src/main/java/frets/main/Location.java:236-239 | beyond fret 100 the key is no longer injective: (0, 101) and (1, 0) share key 101, so `equals` confuses them |
| Locations.KeyOrder | src/main/java/frets/main/Location.java:232-239 | while frets stay in [0, 100], key order is string first, then fret |
| Locations.ParseFieldsAt | src/main/java/frets/main/Location.java:124-135 | what reading one non-empty piece settles: a bad first or second number throws a number-format error, a third piece throws an illegal-argument error |
| Locations.ParseString | src/main/java/frets/main/Location.java:114-142 | the `parseString` loop with its `params` counter computes exactly `Parse`: the split, the empty-piece skip and every throw |
| Locations.ParseFieldsEnd | src/main/java/frets/main/Location.java:138-141 | after the loop, fewer than two pieces throw and two pieces are the location |
| Locations.ParseToString | src/main/java/frets/main/Location.java:102-142 | `parseString(toString(l)) == l` for coordinates in [0, `Integer.MAX_VALUE`] |
| Locations.ParseBlank | src/main/java/frets/main/Location.java:115-120 | empty text and a lone blank throw |
| Locations.ParseLeadingBlank | src/main/java/frets/main/Location.java:117-139 | `" 1"` splits into an empty piece and one number, and throws |
| Locations.ParseTrailingBlank | src/main/java/frets/main/Location.java:117-120 | `"1 "` splits into one piece (Java drops the trailing empty one), and throws |
| Locations.ParseOtherSeparator | src/main/java/frets/main/Location.java:117-120 | `+` is not a separator: `"1+2+3"` is one piece and throws |
| Locations.ParseThreePieces | src/main/java/frets/main/Location.java:132-134 | `"1-2-3"` has a third piece and throws |
| Locations.NoteOf | src/main/java/frets/main/Location.java:66-80 | `getNote` is absent exactly for a negative coordinate, a string the fretboard lacks, or a fret at or beyond that string's `maxFret`; otherwise it is the open note plus the fret, normalized |
| Locations.NoteOfFret | src/main/java/frets/main/Location.java:66-80 | the note `getNote` returns is at that location's fret on that string (`getFret` inverts it) |
| Locations.Location.constructor | src/main/java/frets/main/Location.java:13-17 | `Location()` is (0, 0) with a consistent cache |
| Locations.Location.Of | src/main/java/frets/main/Location.java:19-23 | `Location(string, fret)` holds the pair and caches its key |
| Locations.Location.Copy | src/main/java/frets/main/Location.java:26-30 | the copy has the same coordinates and its own consistent cache |
| Locations.FromString | src/main/java/frets/main/Location.java:33-38 | `Location(String)` succeeds iff `parseString` does, and is then a fresh location with those coordinates and a consistent cache; otherwise it throws what `parseString` throws |
| Locations.Location.SetString | src/main/java/frets/main/Location.java:44-49 | `setString` sets the string, keeps the fret, and leaves the cached key consistent |
| Locations.Location.SetFret | src/main/java/frets/main/Location.java:55-60 | `setFret` sets the fret, keeps the string, and leaves the cached key consistent |
| Locations.Location.Equals | src/main/java/frets/main/Location.java:88-96 | `equals` holds iff the packed keys are equal |
| Locations.Location.CompareTo | src/main/java/frets/main/Location.java:232-234 | `compareTo` is the difference of the keys, and 0 iff `equals` |
| GuitarStrings.Standard | src/main/java/frets/main/GuitarString.java:22-24 | the one-argument constructor gives octave fret 12 and max fret 18 |
| GuitarStrings.FretOf | src/main/java/frets/main/GuitarString.java:20-83 | `getFret` is `NOFRET` (-1) exactly when the note is below the open note or `maxFret` or more above it; otherwise it is the distance above the open note |
| GuitarStrings.NoteAt | src/main/java/frets/main/GuitarString.java:85-92 | `getNote` throws exactly for a fret below 0 or above `maxFret`, and otherwise returns the open note raised by the fret, normalized |
| GuitarStrings.HighNote | src/main/java/frets/main/GuitarString.java:42-44 | `getHighNote` is the open note raised by `maxFret` |
| GuitarStrings.FretOfNoteAt | src/main/java/frets/main/GuitarString.java:75-92 | for a fret in [0, `maxFret`), `getFret(getNote(f)) == f` |
| GuitarStrings.NoteAtFretOf | src/main/java/frets/main/GuitarString.java:75-92 | for a playable note, `getNote(getFret(n))` is `n`, normalized |
| GuitarStrings.HighNoteUnplayable | src/main/java/frets/main/GuitarString.java:42-83 | `getFret(getHighNote())` is `NOFRET` |
| GuitarStrings.Frets | src/main/java/frets/main/GuitarString.java:153-162 | the frets of the playable notes, at most one per note, each in [0, `maxFret`) |
| GuitarStrings.FretsIn | src/main/java/frets/main/GuitarString.java:164-173 | the frets of the playable notes that lie in [low, high), at most one per note |
| GuitarStrings.InRange | src/main/java/frets/main/GuitarString.java:120-151 | the frets of a list that lie in [low, high), in order |
| GuitarStrings.NotesOf | src/main/java/frets/main/GuitarString.java:85-92 | one normalized note per fret, each the open note raised by its fret |
| GuitarStrings.FretsInIsInRange | src/main/java/frets/main/GuitarString.java:153-173 | `getLocations(notes, low, high)` is `getLocations(notes)` restricted to [low, high) |
| GuitarStrings.FretsOfNotesOf | src/main/java/frets/main/GuitarString.java:133-162 | `getLocations(getNoteList(frets))` gives back frets that were all in [0, `maxFret`) |
| GuitarStrings.CountThisString | src/main/java/frets/main/GuitarString.java:94-105 | `getCountThisString` is the length of `getLocations(notes)` |
| GuitarStrings.CountThisRange | src/main/java/frets/main/GuitarString.java:107-118 | `getCountThisRange(notes, low, high)` is the length of `getLocations(notes, low, high)` |
| GuitarStrings.CountFretsInRange | src/main/java/frets/main/GuitarString.java:120-131 | `getCountThisRange(frets, low, high)` counts exactly the frets in [low, high) |
| GuitarStrings.GetLocations | src/main/java/frets/main/GuitarString.java:153-162 | the loop returns `Frets`: the reachable frets in note order |
| GuitarStrings.GetLocationsIn | src/main/java/frets/main/GuitarString.java:164-173 | the loop returns `FretsIn`: the reachable frets in [low, high), in note order |
| GuitarStrings.GetNoteList | src/main/java/frets/main/GuitarString.java:133-141 | the loop returns the notes at the frets in [0, `maxFret`), skipping the others |
| GuitarStrings.GetNoteListIn | src/main/java/frets/main/GuitarString.java:143-151 | the loop returns the notes at the frets in [low, high), and throws when one of those is a fret `getNote` refuses |
| GuitarStrings.InRangeKeeps | src/main/java/frets/main/GuitarString.java:143-151 | one in-range fret outside [0, `maxFret`] is enough to make the ranged `getNoteList` throw |
| GuitarStrings.CompareByWeight | src/main/java/frets/main/GuitarString.java:400-406 | `compareTo` is `1009*Δopen + 101*ΔoctaveFret + ΔmaxFret`, a difference of weights, hence antisymmetric |
| GuitarStrings.CompareVersusSame | src/main/java/frets/main/GuitarString.java:374-406 | `equals` strings compare as 0, but E2/12/18 and E2/11/119 compare as 0 while `equals` tells them apart |
| LocationLists.Min | src/main/java/frets/main/LocationList.java:363-369 | `minFret`/`minString`: the smallest member, attained in the list; `Integer.MAX_VALUE` for an empty list |
| LocationLists.Max | src/main/java/frets/main/LocationList.java:372-378 | `maxFret`/`maxString`: the largest member, attained in the list; `Integer.MIN_VALUE` for an empty list |
| LocationLists.FretSpan | src/main/java/frets/main/LocationList.java:338-349 | `fretSpan` is `maxFret - minFret >= 0` on a non-empty list; on an empty one the sentinels wrap to 1 |
| LocationLists.StringSpan | src/main/java/frets/main/LocationList.java:352-360 | `stringSpan` is `maxString - minString` on a non-empty list; 1 on an empty one |
| LocationLists.DistinctCount | src/main/java/frets/main/LocationList.java:318-335 | a set built from a list has at most its length, and exactly its length iff no value repeats |
| LocationLists.UniqueStringsMeaning | src/main/java/frets/main/LocationList.java:318-335 | `getStringCount` is at most `size()`, and `uniqueStrings()` holds iff it equals `size()` |
| LocationLists.FirstOccurrences | src/main/java/frets/main/LocationList.java:443-462 | the collection loop of `getStringSet`/`getFretSet` keeps each value once and loses none |
| LocationLists.SortedSetMeaning | src/main/java/frets/main/LocationList.java:442-462 | `getStringSet`/`getFretSet` are strictly ascending and hold exactly the list's values |
| LocationLists.GapsTelescope | src/main/java/frets/main/LocationList.java:528-535 | the gap loop over an ascending list adds up to last minus first minus the number of steps |
| LocationLists.SkippedStringCountMeaning | src/main/java/frets/main/LocationList.java:516-537 | `getSkippedStringCount` is `(maxString - minString + 1) - getStringCount` on a non-empty list and 0 on an empty one |
| LocationLists.Bounded | src/main/java/frets/main/LocationList.java:500-514 | `getBounded` keeps only list members that are inside (or outside) the inclusive fret bounds |
| LocationLists.BoundsPartition | src/main/java/frets/main/LocationList.java:464-488 | `getInBoundsCount + getOutBoundsCount == size()` |
| LocationLists.BoundedMembers | src/main/java/frets/main/LocationList.java:500-514 | a location is in `getInBounds` iff it is in the list and `minFret <= fret <= maxFret` |
| LocationLists.EqualMeaning | src/main/java/frets/main/LocationList.java:98-111 | `equals` (`compareTo` is 0) holds iff the lists have the same length and the same keys position by position |
| LocationLists.ComparePrefix | src/main/java/frets/main/LocationList.java:214-217 | a proper prefix compares as -2 and the longer list as +2 |
| LocationLists.CompareAntisymmetric | src/main/java/frets/main/LocationList.java:195-219 | `compareTo` is antisymmetric, even though it subtracts in reversed order at the first difference |
| LocationLists.CompareTransitive | src/main/java/frets/main/LocationList.java:195-219 | `compareTo` is transitive |
| LocationLists.CompareListsLawful | src/main/java/frets/main/LocationList.java:195-219 | `compareTo` is a lawful comparator, so sorting by it is well defined |
| LocationLists.CompareLocationsLawful | src/main/java/frets/main/Location.java:232-234 | `Location.compareTo` is a lawful comparator |
| LocationLists.SortMeaning | src/main/java/frets/main/LocationList.java:607-614 | `sort` gives ascending key order, is a permutation, and keeps equal keys in their original order (the stable `Arrays.sort`) |
| LocationLists.ShiftFretsMeaning | src/main/java/frets/main/LocationList.java:381-400 | moving every fret by `offset` moves `minFret` by `offset`, keeps `fretSpan` and leaves the strings alone |
| LocationLists.ShiftStringsMeaning | src/main/java/frets/main/LocationList.java:403-422 | moving every string by `offset` moves `minString` by `offset` and leaves the frets alone |
| LocationLists.FirstFretFault | src/main/java/frets/main/LocationList.java:390-399 | the first location whose moved fret is below 0, on a missing string or above its `maxFret`, or the length when there is none |
| LocationLists.StringMoveAsWrittenOffBoard | src/main/java/frets/main/LocationList.java:410-422 | as written, `> getStringCount()` lets (0, 3) on six strings move to string 6, where the fretboard has no string |
| LocationLists.StringMoveFaultMeaning | src/main/java/frets/main/LocationList.java:413-419 | with the corrected check a moved string is accepted iff it is a string of the fretboard |
| LocationLists.FirstStringFault | src/main/java/frets/main/LocationList.java:412-421 | the first location whose moved string leaves the fretboard, or the length when there is none |
| LocationLists.TransposeFretsComplete | src/main/java/frets/main/LocationList.java:388-400 | after a complete `transposeFrets(fretboard, f)` every moved fret is in [0, `maxFret`] of its string |
| LocationLists.Boxed | src/main/java/frets/main/LocationList.java:593-599 | the locations inside (or outside) the string/fret box, drawn from the list |
| LocationLists.FilterKeepsBox | src/main/java/frets/main/LocationList.java:588-605 | while keys identify locations (frets up to 100), removing the out-of-box ones by `equals` leaves exactly the in-box ones, in order |
| LocationLists.BoxPartition | src/main/java/frets/main/LocationList.java:588-605 | the kept and the removed locations add up to the list's size |
| LocationLists.FilterKeyCollision | src/main/java/frets/main/LocationList.java:600-602 | past fret 100 `list.remove` by key deletes (1, 0), which is inside the box, and keeps (0, 101), which is outside |
| LocationLists.Printed | src/main/java/frets/main/LocationList.java:119-129 | `toString` prints one `string-fret` piece per location, in order |
| LocationLists.ParseListString | src/main/java/frets/main/LocationList.java:132-154 | the `parseString` loop returns exactly `ParseList`: empty for empty text, and the parse of each non-empty piece `Location.parseString` accepts, in order |
| LocationLists.ParsePrinted | src/main/java/frets/main/LocationList.java:119-154 | parsing the printed pieces gives the locations back |
| LocationLists.ParseToString | src/main/java/frets/main/LocationList.java:115-154 | `parseString(toString(l)) == l` for coordinates in [0, `Integer.MAX_VALUE`] |
| LocationLists.ParseDropsGarbage | src/main/java/frets/main/LocationList.java:142-151 | a piece `Location.parseString` refuses is silently dropped: `"x,0-1"` reads as the one location (0, 1) |
| LocationLists.MoveFrets | src/main/java/frets/main/LocationList.java:390-399 | the loop moves location after location and stops with the first fault; the locations before it stay moved (`FretsOutcome`) |
| LocationLists.MoveStrings | src/main/java/frets/main/LocationList.java:412-421 | the same for strings, with the corrected upper check (`StringsOutcome`) |
| LocationLists.LocationList.constructor | src/main/java/frets/main/LocationList.java:24-25 | the list starts empty |
| LocationLists.LocationList.Of | src/main/java/frets/main/LocationList.java:28-53 | the copy constructors hold the other list's locations, in order |
| LocationLists.LocationList.FromString | src/main/java/frets/main/LocationList.java:56-59 | `LocationList(String)` holds the parsed text |
| LocationLists.LocationList.Set | src/main/java/frets/main/LocationList.java:62-88 | `set` replaces the contents with the other list's locations |
| LocationLists.LocationList.TransposeFrets | src/main/java/frets/main/LocationList.java:381-385 | `transposeFrets(offset)` moves every fret by `offset` |
| LocationLists.LocationList.TransposeStrings | src/main/java/frets/main/LocationList.java:403-407 | `transposeStrings(offset)` moves every string by `offset` |
| LocationLists.LocationList.TransposeFretsTo | src/main/java/frets/main/LocationList.java:388-400 | `transposeFrets(fretboard, f)` moves by `f - minFret()` and ends as `FretsOutcome`: everything moved, or the throw of the first bad location with the earlier ones moved |
| LocationLists.LocationList.TransposeStringsTo | src/main/java/frets/main/LocationList.java:410-422 | `transposeStrings(fretboard, s)` with the corrected check ends as `StringsOutcome` |
| LocationLists.LocationList.Filter | src/main/java/frets/main/LocationList.java:588-605 | `filter` returns how many locations lie outside the box and removes each of them by key |
| LocationLists.LocationList.Sort | src/main/java/frets/main/LocationList.java:607-614 | `sort` leaves the locations stably sorted by key |
| Fretboards.LowIndex | src/main/java/frets/main/Fretboard.java:105-117 | the scan's low string compares at or below every string, and every string before it compares strictly higher (the first of the lowest wins) |
| Fretboards.HighIndex | src/main/java/frets/main/Fretboard.java:105-117 | the scan's high string compares at or above every string, and every string before it compares strictly lower |
| Fretboards.LowHighStep | src/main/java/frets/main/Fretboard.java:109-115 | one more string: it replaces the low (high) one exactly when there is none yet or it compares strictly below (above) it |
| Fretboards.LowHighMeaning | src/main/java/frets/main/Fretboard.java:105-117 | the cached strings exist iff there are strings, are members of the list, and bound every string's weight from below and above |
| Fretboards.Highest | src/main/java/frets/main/Fretboard.java:128-139 | the largest `maxFret` of a non-empty string list is attained and bounds all of them |
| Fretboards.Hits | src/main/java/frets/main/Fretboard.java:254-265 | at most one location per string |
| Fretboards.HitsMeaning | src/main/java/frets/main/Fretboard.java:252-265 | `getLocations(note, min, max)`: each location is on a string of the fretboard, at the fret that string gives the note, inside [min, max); strings strictly ascend; and every string with such a fret is there |
| Fretboards.HitsPlayNote | src/main/java/frets/main/Fretboard.java:254-265 | for `minFret >= 0`, `getNote` of each location found for a note gives back that note, normalized |
| Fretboards.StandardGFrets | src/main/java/frets/main/GuitarString.java:74-83 | on standard tuning G3 is at frets 15, 10, 5 and 0 of the four lowest strings and not on the other two |
| Fretboards.StandardG | src/main/java/frets/main/Fretboard.java:246-265 | `getLocations(G3)` on standard tuning is (0,15), (1,10), (2,5), (3,0) |
| Fretboards.StandardGLow | src/main/java/frets/main/Fretboard.java:252-265 | below fret 6 only (2,5) and (3,0) remain |
| Fretboards.Singletons | src/main/java/frets/main/Fretboard.java:345-349 | each fixed location becomes a list of its own, in order |
| Fretboards.NoteDigits | src/main/java/frets/main/Fretboard.java:350-379 | one candidate list per variable note, in note order |
| Fretboards.Unsorted | src/main/java/frets/main/Fretboard.java:344-379 | before sorting: the fixed singletons first, then one list per note |
| Fretboards.SortKeeps | src/main/java/frets/main/Fretboard.java:380 | `Collections.sort` keeps every list |
| Fretboards.VariationsMeaning | src/main/java/frets/main/Fretboard.java:340-382 | `getVariations` is null iff there are no notes or no strings; otherwise it has `|fixed| + |notes|` lists: a permutation of the singletons and the note lists, sorted by `LocationList.compareTo` |
| Fretboards.EnharmonicDigit | src/main/java/frets/main/Fretboard.java:350-378 | without octaves a note's list is exactly `getLocations(note, min, max)` |
| Fretboards.HitsByAbs | src/main/java/frets/main/Fretboard.java:254-265 | the locations of a note depend only on its absolute value |
| Fretboards.LowerOctavesCollect | src/main/java/frets/main/Fretboard.java:356-365 | with octaves, the locations of the note `k` octaves down are collected while that note is not negative and not below the low open string |
| Fretboards.NotPlayed | src/main/java/frets/main/Fretboard.java:587-597 | `getNotPlayedSet` holds exactly the string numbers below the count that the played set lacks (all of them without a list), ascending |
| Fretboards.NotPlayedMeaning | src/main/java/frets/main/Fretboard.java:587-597 | a string is reported unplayed iff it exists and no location is on it |
| Fretboards.Fretboard.constructor | src/main/java/frets/main/Fretboard.java:68-74 | the constructors hold the strings, with the low/high cache valid |
| Fretboards.Fretboard.ValidateLowHigh | src/main/java/frets/main/Fretboard.java:105-117 | the scan leaves the strings alone and sets `lowString`/`highString` to the first lowest and first highest by `compareTo` |
| Fretboards.Fretboard.SetStrings | src/main/java/frets/main/Fretboard.java:80-91 | `setStrings` replaces the strings and revalidates the cache |
| Fretboards.Fretboard.Add | src/main/java/frets/main/Fretboard.java:142-146 | `add` appends, revalidates the cache and returns true |
| Fretboards.Fretboard.AddAll | src/main/java/frets/main/Fretboard.java:148-152 | `addAll` appends in order, revalidates, and returns whether anything was added |
| Fretboards.Fretboard.Clear | src/main/java/frets/main/Fretboard.java:154-158 | `clear` empties the strings and the cache |
| Fretboards.Fretboard.Remove | src/main/java/frets/main/Fretboard.java:176-180 | `remove(o)` returns whether `o` was there, removes its first occurrence only, and revalidates the cache |
| Fretboards.Fretboard.RemoveAll | src/main/java/frets/main/Fretboard.java:182-186 | `removeAll` removes every string equal to one of `c` and empties the cache without a new scan, so the cache is stale whenever strings are left |
| Fretboards.Fretboard.GetString | src/main/java/frets/main/Fretboard.java:93-95 | `getString(i)` is the i-th string, and throws `IndexOutOfBoundsException` outside the list |
| Fretboards.Fretboard.GetMaxFret | src/main/java/frets/main/Fretboard.java:128-139 | `getMaxFret` is 0 without strings, and otherwise the largest `maxFret` of any string |
| Fretboards.Fretboard.GetLocations | src/main/java/frets/main/Fretboard.java:252-265 | the loop returns null (`None`) without strings, and otherwise `Hits` |
| Fretboards.Fretboard.GetAllLocations | src/main/java/frets/main/Fretboard.java:246-250 | `getLocations(note)` is the ranged form over [0, `Integer.MAX_VALUE`) |
| Fretboards.Fretboard.GetVariations | src/main/java/frets/main/Fretboard.java:340-382 | the method returns exactly `Variations` of its strings and cached low/high strings |
| Fretboards.Fretboard.GetNoteLocations | src/main/java/frets/main/Fretboard.java:351-378 | one note's list: its locations, then with octaves those of the lower and the higher octaves |
| Fretboards.Fretboard.GetLowerOctaves | src/main/java/frets/main/Fretboard.java:356-365 | the lower-octave loop collects the locations of each octave down while it is not negative and not below the low open string |
| Fretboards.Fretboard.GetHigherOctaves | src/main/java/frets/main/Fretboard.java:367-376 | the higher-octave loop collects the locations of each octave up to the high string's high note |
| Fretboards.Fretboard.GetNotPlayedSet | src/main/java/frets/main/Fretboard.java:587-597 | the loop returns `NotPlayed` of the string count and the played string set |
| Fretboards.IndexOf | src/main/java/frets/main/Fretboard.java:176-180 | the first position of an equal string, or -1 iff there is none |
| Fretboards.Without | src/main/java/frets/main/Fretboard.java:182-186 | `List.removeAll` keeps exactly the strings not in `c`, and changes the size iff one of them was there |
| Permutations.Radix | src/main/java/frets/main/Fretboard.java:418-422 | an empty location list contributes a factor of 1: only non-empty lists multiply the count |
| Permutations.Live | src/main/java/frets/main/Fretboard.java:452-455 | the number of non-empty location lists never exceeds the number of notes |
| Permutations.Prod | src/main/java/frets/main/Fretboard.java:413-425 | the product of the non-empty list sizes is at least 1 |
| Permutations.LiveAll | src/main/java/frets/main/Fretboard.java:410-426 | when no note's list is empty, every note is live and the count is the product of all sizes |
| Permutations.CountMeaning | src/main/java/frets/main/Fretboard.java:410-426 | the count is 0 exactly when every note's location list is empty (or there are none) |
| Permutations.GetPermutationCount | src/main/java/frets/main/Fretboard.java:410-426 | the loop's running product, started at the first non-empty list, equals the count of all fingerings |
| Permutations.Pick | src/main/java/frets/main/Fretboard.java:449-456 | decoding a number yields one location per non-empty list |
| Permutations.GetPermutation | src/main/java/frets/main/Fretboard.java:440-458 | no result for no notes, a negative number or a number at or above the count; otherwise the mixed-radix decoding of the number |
| Permutations.PickLocations | src/main/java/frets/main/Fretboard.java:446-457 | the decoding loop, prepending `enharmonics[i mod size]` and dividing `i` by the size, computes the decoded fingering |
| Permutations.IndexOfKey | src/main/java/frets/main/Fretboard.java:484 | `indexOf` is the first position of an equal location, and -1 exactly when no location in the list is equal |
| Permutations.ValueMissing | src/main/java/frets/main/Fretboard.java:484-492 | a single location not found in its list makes the whole encoding fail |
| Permutations.GetPermutationNumber | src/main/java/frets/main/Fretboard.java:474-495 | -1 for no notes or a length mismatch; otherwise Horner's rule over the positions, last list first, or -1 for a missing location |
| Permutations.ValueOfPick | src/main/java/frets/main/Fretboard.java:440-495 | with distinct locations per list, encoding the fingering that a number below the product decodes to gives the number back |
| Permutations.PickOfValue | src/main/java/frets/main/Fretboard.java:440-495 | a number that encodes a fingering is below the product, no list is empty, and it decodes to a fingering equal location by location |
| Permutations.NumberOfPermutation | src/main/java/frets/main/Fretboard.java:438 | `getPermutationNumber` inverts `getPermutation` on every number below the count, when every list has distinct locations |
| Permutations.PermutationOfNumber | src/main/java/frets/main/Fretboard.java:472 | every non-negative result of `getPermutationNumber` is below the count and `getPermutation` of it is equal to the given fingering |
| Permutations.GetPermutationString | src/main/java/frets/main/Fretboard.java:515-545 | "ø" with no notes, "ø(i)" for a negative number, "ø(i/count)" past the count; otherwise "i/count (digits/bases)" with the corrected digit text |
| Permutations.DigitStrings | src/main/java/frets/main/Fretboard.java:525-541 | the loop computes the digit text (digit or "?" prepended per list) and the base text (size prepended per list) |
| Permutations.DigitsAligned | src/main/java/frets/main/Fretboard.java:506-513 | with at most nine locations per list, each digit character sits at the same place as its base character |
| Permutations.AsWrittenMisaligned | src/main/java/frets/main/Fretboard.java:537-539 | as written, the "?" of an empty second list is appended: number 1 of [[a,b],[]] shows "1?" against bases "02", misaligned; the corrected text is "?1" |
| Permutations.LongOf | src/main/java/frets/main/Fretboard.java:569-579 | `Long.parseLong` succeeds exactly on well-formed long text, with its value, and otherwise throws `NumberFormatException` |
| Permutations.Pairs | src/main/java/frets/main/Fretboard.java:576-580 | a successful pass stores two values per character of the digit text |
| Permutations.GetPermutationValues | src/main/java/frets/main/Fretboard.java:562-584 | the method fills the array as the specification function reads the split pieces: no array when the split gives neither 2 nor 4 pieces; three values for 2 pieces; number, count, note count and two values per note for 4; a parse failure throws |
| Permutations.FillPairs | src/main/java/frets/main/Fretboard.java:576-580 | the array loop leaves the first three slots alone and fills slots 3 onward with the value pairs, or fails as the pair reading does |
| Permutations.GetFourValues | src/main/java/frets/main/Fretboard.java:570-582 | the four-piece branch allocates `3 + 2n` slots and fills them as the specification function says |
| Permutations.DigitValues | src/main/java/frets/main/Fretboard.java:549-559 | one digit value per note |
| Permutations.Radices | src/main/java/frets/main/Fretboard.java:549-559 | one base per note |
| Permutations.PickDigits | src/main/java/frets/main/Fretboard.java:449-456 | the location at place k of a decoded fingering is the one at digit value k of list `n-1-k`, which is below that list's size |
| Permutations.ValuesOfString | src/main/java/frets/main/Fretboard.java:547-561 | `getPermutationValues` inverts `getPermutationString` on every valid number when each list has one to nine locations: number, count, note count, then each note's value and base |
| Permutations.FifteenOfSixtyFour | src/main/java/frets/main/Fretboard.java:506-545 | three notes of four locations each give 64 fingerings, and number 15 prints "15/64 (033/444)" |
| Permutations.ValuesOfRendered | src/main/java/frets/main/Fretboard.java:562-584 | any text of the form "i/count (digits/bases)" with single-digit values reads back as those values |
| Permutations.RenderedFifteen | src/main/java/frets/main/Fretboard.java:542-543 | the rendering layout: number, slash, count, space, parenthesised digit and base texts |
| Permutations.ValuesOfFourPieces | src/main/java/frets/main/Fretboard.java:547-561 | "15/64 (123/456)" reads as 15, 64, 3 notes and the pairs (1,4), (2,5), (3,6) |
| Permutations.ValuesOfTwoPieces | src/main/java/frets/main/Fretboard.java:568-569 | a two-piece text "8/100" reads as 8, 100 and note count 0 |
| Permutations.Explode | src/main/java/frets/main/Fretboard.java:393-401 | exploding lists exactly as many fingerings as the count |
| Permutations.ExplodeAndSort | src/main/java/frets/main/Fretboard.java:393-401 | the method builds every fingering by number and stable-sorts them with the ranker's comparator |
| Permutations.ExplodeAndSortMeaning | src/main/java/frets/main/Fretboard.java:393-401 | the result has the count's length, is a permutation of the numbered fingerings, is ordered by total score, keeps numbering order among equal totals, and contains every numbered fingering |
| ChordRanks.Distance | src/main/java/frets/main/ChordRank.java:116-120 | a fret adds nothing exactly when it lies within `[minFret, maxFret]`, and never a negative amount |
| ChordRanks.FretBoundsScore | src/main/java/frets/main/ChordRank.java:111-123 | the bounds score is never negative and is 0 exactly when every fret of the list is in bounds |
| ChordRanks.TierAtLeastSpan | src/main/java/frets/main/ChordRank.java:125-136 | the tiered span score is never below the span itself |
| ChordRanks.TierMonotone | src/main/java/frets/main/ChordRank.java:125-136 | a wider span never scores less |
| ChordRanks.FretSpanScore | src/main/java/frets/main/ChordRank.java:131-136 | the span score is at least the fret span; with no guard for an empty list, the empty list scores 1 |
| ChordRanks.SkipStringScoreMeaning | src/main/java/frets/main/ChordRank.java:138-145 | for a non-empty list the skip score is the number of unused strings between the lowest and highest used string, times the penalty; non-negative under a non-negative penalty |
| ChordRanks.SameStringScoreMeaning | src/main/java/frets/main/ChordRank.java:147-153 | under a positive penalty the same-string score is 0 exactly when no two notes share a string; non-negative under a non-negative penalty |
| ChordRanks.CompositeScore | src/main/java/frets/main/ChordRank.java:171-190 | five scores, the bounds score non-negative and the span score at least the span |
| ChordRanks.SumIsComposite | src/main/java/frets/main/ChordRank.java:155-190 | `getSum` equals the composite's first element, which is the sum of the four components |
| ChordRanks.SumAtLeastSpan | src/main/java/frets/main/ChordRank.java:155-169 | under non-negative penalties the total is at least the fret span |
| ChordRanks.ComparatorLawful | src/main/java/frets/main/ChordRank.java:60-65 | comparing totals is antisymmetric and transitive, as `Comparator` requires of `Collections.sort` |
| ChordRanks.Segment | src/main/java/frets/main/ChordRank.java:212-215 | every element after the first starts with the element delimiter |
| ChordRanks.ScoresToString | src/main/java/frets/main/ChordRank.java:207-217 | `toString` throws an index exception exactly when fewer than five scores are given; otherwise it renders all five |
| ChordRanks.Field | src/main/java/frets/main/ChordRank.java:223-235 | a token read succeeds exactly when it exists and is an `int`; a missing token throws `NoSuchElementException` |
| ChordRanks.ScoresTokens | src/main/java/frets/main/ChordRank.java:207-235 | the tokenizer on `,=` sees exactly the eleven printed pieces, the scores at positions 1, 4, 6, 8 and 10 |
| ChordRanks.ToScoresToString | src/main/java/frets/main/ChordRank.java:219-238 | `toScores` reads back the five `int` scores that `toString` printed, whatever the ranker's weights |
| ChordRanks.ReadBack | src/main/java/frets/main/ChordRank.java:219-238 | any text tokenizing as the printed pieces reads back as the scores |
| ChordRanks.ReadFields | src/main/java/frets/main/ChordRank.java:223-237 | eleven tokens whose positions 1, 4, 6, 8 and 10 are the scores read as those scores, the others skipped |
| ChordRanks.ToScoresRefusals | src/main/java/frets/main/ChordRank.java:222-225 | empty text reads as the single score 0; text with too few tokens throws `NoSuchElementException` |
| ChordRanks.EqualWeightsCoarse | src/main/java/frets/main/ChordRank.java:66-77 | `equals` holds of equal weights, but also of weights (0,18,1,1) and (1,17,1,1) that score `[(0,0)]` differently |
| ChordRanks.ChordRank.constructor | src/main/java/frets/main/ChordRank.java:45-46 | the default ranker has frets 0 to 18 in bounds and both penalties 1 |
| ChordRanks.ChordRank.Frets | src/main/java/frets/main/ChordRank.java:48-51 | the given fret bounds, default penalties |
| ChordRanks.ChordRank.Of | src/main/java/frets/main/ChordRank.java:53-58 | the four given weights |
| ChordRanks.ChordRank.SetMinFret | src/main/java/frets/main/ChordRank.java:83-85 | only `minFret` changes |
| ChordRanks.ChordRank.SetMaxFret | src/main/java/frets/main/ChordRank.java:91-93 | only `maxFret` changes |
| ChordRanks.ChordRank.SetSkipStringPenalty | src/main/java/frets/main/ChordRank.java:99-101 | only the skip penalty changes |
| ChordRanks.ChordRank.SetSameStringPenalty | src/main/java/frets/main/ChordRank.java:107-109 | only the same-string penalty changes |
| ChordRanks.ChordRank.GetFretBoundsScore | src/main/java/frets/main/ChordRank.java:112-123 | the loop over the list computes the bounds score of the ranker's weights |
| NoteLists.OverRoot | src/main/java/frets/main/NoteList.java:79-85 | one note per interval, in order, each normalized and sounding the root's absolute value plus the interval |
| NoteLists.Shifted | src/main/java/frets/main/NoteList.java:372-381 | every note normalized and moved by exactly `k` semitones |
| NoteLists.UpdatedRelativeMeaning | src/main/java/frets/main/NoteList.java:372-381 | after `updateRelative(k)` every note sounds `k` higher and every distance between two notes is kept |
| NoteLists.UpdatedAbsoluteMeaning | src/main/java/frets/main/NoteList.java:352-363 | after `updateAbsolute(root)` the first note sounds as `root` and every distance between two notes is kept |
| NoteLists.Copied | src/main/java/frets/main/NoteList.java:23-28 | the deep copy keeps the length and each note's absolute value, and every copied note is normalized |
| NoteLists.AbsoluteIntervalsMeaning | src/main/java/frets/main/NoteList.java:388-396 | null exactly for an empty list; otherwise every note is normalized, the first is at 0 and each is at its distance from the first |
| NoteLists.RelativeSteps | src/main/java/frets/main/NoteList.java:411-421 | one value per note: 0 first, then each note's distance from the one before |
| NoteLists.RelativeStepsSum | src/main/java/frets/main/NoteList.java:411-421 | the first note plus the relative intervals up to place i gives back note i |
| NoteLists.EqualMeaning | src/main/java/frets/main/NoteList.java:165-178 | `equals` holds exactly of lists of equal length that sound the same note by note |
| NoteLists.ComparePrefix | src/main/java/frets/main/NoteList.java:222-256 | a proper prefix compares -2 against the longer list, and the longer list 2 against it |
| NoteLists.CompareAntisymmetric | src/main/java/frets/main/NoteList.java:232-256 | swapping the lists negates `compareTo` |
| NoteLists.Printed | src/main/java/frets/main/NoteList.java:185-194 | each note printed by its own `toString`, in order |
| NoteLists.ParseListString | src/main/java/frets/main/NoteList.java:93-106 | the constructor's loop builds exactly what the string constructor's specification function reads, failing at the first bad piece |
| NoteLists.ParsePiecesFails | src/main/java/frets/main/NoteList.java:103-105 | the first piece that is not a note makes the whole parse throw its exception |
| NoteLists.ParsePiecesErrKept | src/main/java/frets/main/NoteList.java:103-105 | a failure is never undone by later pieces |
| NoteLists.PrintedNoteFree | src/main/java/frets/main/NoteList.java:185-194 | a printed normalized note is non-empty and holds neither whitespace nor a comma |
| NoteLists.ParsePrinted | src/main/java/frets/main/NoteList.java:103-105 | reading each printed note back gives the notes |
| NoteLists.ParseToString | src/main/java/frets/main/NoteList.java:93-106 | the string constructor reads back what `toString` printed for every non-empty list of normalized notes; the empty list prints as text the constructor refuses |
| NoteLists.ParseBlankRefused | src/main/java/frets/main/NoteList.java:96-100 | empty and whitespace-only text throws `IllegalArgumentException` |
| NoteLists.NoteList.constructor | src/main/java/frets/main/NoteList.java:42-45 | an empty list |
| NoteLists.NoteList.Of | src/main/java/frets/main/NoteList.java:23-59 | the copy constructors hold `new Note` of each of the other list's notes, in order, so each is normalized with its absolute value kept |
| NoteLists.NoteList.SetRelative | src/main/java/frets/main/NoteList.java:142-155 | the list becomes the formula's notes over `first`; an unknown interval token throws and leaves the list empty |
| NoteLists.NoteList.UpdateRelative | src/main/java/frets/main/NoteList.java:372-381 | the notes become the shifted list, in place |
| NoteLists.NoteList.UpdateRelativeNote | src/main/java/frets/main/NoteList.java:365-370 | the notes are shifted by the absolute value of the given note |
| NoteLists.NoteList.UpdateAbsolute | src/main/java/frets/main/NoteList.java:352-363 | the notes are moved so that the first lands on `root` |
| NoteLists.NoteList.GetAbsoluteIntervals | src/main/java/frets/main/NoteList.java:388-396 | a normalized copy of the notes moved so the first is at 0, or null for an empty list |
| NoteLists.NoteList.GetRelativeIntervals | src/main/java/frets/main/NoteList.java:411-421 | an empty list throws on `get(0)`; otherwise a fresh array holding the relative intervals |
| NoteLists.MajorTriadTokens | src/main/java/frets/main/NoteList.java:142-155 | the formula "R-3-5" is split on "-" into "R", "3" and "5" |
| NoteLists.MajorTriadIntervals | src/main/java/frets/main/NoteList.java:142-155 | "R", "3" and "5" resolve to the root, the third and the fifth |
| NoteLists.TriadOver | src/main/java/frets/main/NoteList.java:79-85 | intervals of 0, 4 and 7 over a root whose octave holds them give the root and the notes 4 and 7 semitones up |
| NoteLists.MajorTriad | src/main/java/frets/main/NoteList.java:87-91 | `new NoteList(C, "R-3-5")` holds C, E and G |
| Fingers.Finger.Value | src/main/java/frets/main/Finger.java:9-13 | each finger's value lies in 0 to 4 |
| Fingers.GetFingerValue | src/main/java/frets/main/Finger.java:48-58 | a non-negative value picks the finger whose value is its remainder by 5 |
| Fingers.GetFingerNegative | src/main/java/frets/main/Finger.java:48-58 | a negative value that is not a multiple of 5 has a negative Java remainder, matches no case and gets the thumb |
| Fingers.GetFingerExamples | src/main/java/frets/main/Finger.java:48-58 | `getFinger(-1)` is the thumb while `getFinger(4)` is the little finger |
| Fingers.GetFingerOfValue | src/main/java/frets/main/Finger.java:9-13 | every finger is found again from its value, and no two fingers share a value |
| Fingers.ShortLatinDistinct | src/main/java/frets/main/Finger.java:9-13 | the short Latin letters tell the fingers apart |
| Fingers.ToStringDistinct | src/main/java/frets/main/Finger.java:44-46 | `toString` prints the English name ("Thumb" … "Little"), and no two fingers print alike |
| Sorting.Insert | src/main/java/frets/main/Fretboard.java:399 | inserting into a list lengthens it by one |
| Sorting.SortBy | src/main/java/frets/main/Fretboard.java:399 | sorting keeps the length |
| Sorting.InsertPermutes | src/main/java/frets/main/Fretboard.java:399 | inserting adds exactly the element |
| Sorting.SortPermutes | src/main/java/frets/main/Fretboard.java:399 | `Collections.sort` only reorders: the sorted list is a permutation of the input |
| Sorting.InsertSorted | src/main/java/frets/main/Fretboard.java:399 | inserting into an ordered list keeps it ordered, under a lawful comparator |
| Sorting.SortSorted | src/main/java/frets/main/Fretboard.java:399 | the sorted list is ordered by any lawful comparator |
| Sorting.TieExcludes | src/main/java/frets/main/ChordRank.java:60-65 | two elements cannot both tie with a third while one exceeds the other |
| Sorting.InsertTies | src/main/java/frets/main/Fretboard.java:399 | inserting keeps the order of the elements tied with any given one, the inserted element first |
| Sorting.SortStable | src/main/java/frets/main/Fretboard.java:399 | `Collections.sort` is stable: the elements tied with any given one keep their order |
| JavaText.Wrap32 | src/main/java/frets/main/LocationList.java:337-348 | an `int` expression's value lies in the 32-bit range and is the exact value whenever that fits |
| JavaText.Rem | src/main/java/frets/main/Finger.java:49 | Java's `%` agrees with the mathematical remainder on non-negative operands and is negative or 0, above `-b`, on negative ones |
| JavaText.StripSpaces | src/main/java/frets/main/NoteList.java:98 | `replaceAll("\\s", "")` leaves no whitespace |
| JavaText.StripClean | src/main/java/frets/main/Note.java:133 | text without whitespace is left as it is |
| JavaText.StripBlank | src/main/java/frets/main/NoteList.java:98-100 | whitespace-only text becomes empty |
| JavaText.StripFirst | src/main/java/frets/main/Note.java:133 | leading whitespace goes and the first visible character leads the rest |
| JavaText.NatToString | src/main/java/frets/main/Fretboard.java:542-543 | a natural number prints as decimal digits without a leading zero |
| JavaText.IntToString | src/main/java/frets/main/ChordRank.java:211-215 | an integer prints as digits with at most a leading minus |
| JavaText.ParseInt | src/main/java/frets/main/ChordRank.java:225 | `Integer.parseInt` yields only values in the `int` range |
| JavaText.ParseLong | src/main/java/frets/main/Fretboard.java:569 | `Long.parseLong` yields only values in the `long` range |
| JavaText.ParseIntegerToString | src/main/java/frets/main/ChordRank.java:219-238 | reading back a printed integer gives the integer |
| JavaText.ParseIntToString | src/main/java/frets/main/ChordRank.java:225-235 | `Integer.parseInt` inverts `Integer.toString` on the `int` range |
| JavaText.ParseLongToString | src/main/java/frets/main/Fretboard.java:569-574 | `Long.parseLong` inverts `Long.toString` on the `long` range |
| JavaText.Fields | src/main/java/frets/main/Fretboard.java:565 | splitting gives at least one piece, and no piece holds a delimiter |
| JavaText.NonEmpty | src/main/java/frets/main/Interval.java:139 | the tokenizer's tokens are the non-empty pieces, in order |
| JavaText.DropTrailingEmpty | src/main/java/frets/main/NoteList.java:101 | `String.split` drops exactly the trailing empty pieces |
| JavaText.FieldsConcat | src/main/java/frets/main/Location.java:117 | splitting at a delimiter splits the two sides apart |
| JavaText.SplitTwo | src/main/java/frets/main/Location.java:117 | two delimiter-free pieces around one delimiter split into exactly those pieces |
| JavaText.SplitThree | src/main/java/frets/main/Location.java:117 | three delimiter-free pieces, the last non-empty, split into exactly those pieces |
| JavaText.TokensConcat | src/main/java/frets/main/ChordRank.java:223 | a tokenizer sees the tokens on either side of a delimiter, one after the other |
| JavaText.TokensThree | src/main/java/frets/main/Interval.java:139 | three non-empty delimiter-free pieces around two delimiters are three tokens |
| JavaText.TokensOfFree | src/main/java/frets/main/ChordRank.java:223 | a non-empty delimiter-free text is one token |
| JavaText.FieldsOfJoin | src/main/java/frets/main/NoteList.java:101 | splitting a joined list at its separator gives the list back |
| JavaText.SplitJoin | src/main/java/frets/main/NoteList.java:181-194 | `String.split` inverts joining for non-empty pieces without delimiters |

## Left out

- **Java `int` and `long` overflow.** Arithmetic is on unbounded integers. The exceptions are the places where the source relies on wrap-around: `fretSpan` and `stringSpan` on an empty list, whose `Integer.MAX_VALUE`/`MIN_VALUE` sentinels wrap to 1. The total of `ChordRank.compare` and the permutation count are not wrapped; a count past 2^63 is not modelled.
- **`null` arguments.** A `null` list, note or string simply cannot be passed. The empty-list and error paths the source takes for them are modelled where the source treats empty like `null`.
- **Console output.** The `System.out` line at `Fretboard.java:490` is not modelled.
- **Aliasing of locations and notes.** A `LocationList` or `NoteList` holds `Loc`/`Pitch` values, not shared `Location`/`Note` objects, so aliasing between lists is not captured; the in-place transposes and shifts rewrite the list's `seq` field element by element, and locations before a failing one stay moved, as in the source.
- **Pass-through list methods.** The `java.util.List` methods of `Fretboard`, `LocationList` and `NoteList` that only forward to the inner list are not modelled. These include the `Fretboard` mutators that do not call `validateLowHigh`: `add(int, …)`, `set(int, …)`, `remove(int)`, `retainAll`, `addAll(int, …)`. `sortStrings` is also not modelled.
- **`GuitarString` slaves.** The `slaves` list of multi-course strings is not modelled. Neither are the `GuitarString` setters, or its ASCII and other display `toString` forms.
- **Rendering, configuration and JSON.** Display settings, ASCII rendering, property-file and resource loading, the static instance maps, and the Jackson JSON adapters are all foreign I/O or library calls and are not modelled.
- **`Location.parseStringFret`.** Its search loop never advances `stringi`, so it does not terminate unless string 0 matches. It is not modelled.
- **`Location.toStringFret` and `LocationList`'s note queries.** `LocationList.getNoteList`, `getNotes` and `getFormula` are display helpers outside the engine and are not modelled.
- **The `Interval` API around the table.** The copy constructors and setters are not modelled.
- Fretboards.Fretboard.GetVariations: with octaves requested, the method requires the cached low and high strings to be present. Without them the Java code dereferences `null`, and they are always present on a fretboard whose cache is valid and whose string list is non-empty.
- **Helper methods.** The imperative loops of `getVariations`, `getPermutationValues` and the transposes are split into helper methods, each proved against its own specification function, so the Java method structure is not mirrored one to one.
- Permutations.GetPermutationString: it computes the corrected digit text, with `?` prepended (see Findings). The code as written is modelled by `DigitsTextAsWritten`.
- Permutations.DigitStrings: its loop computes the same corrected digit text as `GetPermutationString`, with `?` prepended (see Findings).
- LocationLists.LocationList.TransposeStringsTo: it uses the corrected bound, `>= getStringCount()` (see Findings). The code as written is modelled by `StringMoveAllowedAsWritten`.
- LocationLists.MoveStrings: the specification of `TransposeStringsTo` uses the same corrected `>=` bound (see Findings).
- Permutations.LongOf: it reads ASCII digits `0`-`9` only. `Long.parseLong` reads digits through `Character.digit`, which also accepts every other Unicode decimal digit (such as U+0663, ARABIC-INDIC DIGIT THREE); that text is refused here with `NumberFormatException`. The Unicode digit table is not modelled.
- JavaText.ParseInt: the same gap for `Integer.parseInt`, reached through `Location.parseString`, `Note`'s octave, and `ChordRank.toScores`: only ASCII digits are read.
- JavaText.ParseLong: the same gap for `Long.parseLong`: only ASCII digits are read.
- JavaText.ParseIntegerToString: the same gap: the shared digit reader accepts only ASCII digits.

## Findings

| source | as written | input that shows it | evidently intended | confidence | as-written member | corrected member |
|---|---|---|---|---|---|---|
| src/main/java/frets/main/LocationList.java:410-422 | `transposeStrings(fretboard, stringi)` checks the moved string with `> getStringCount()` | `Loc(0, 3)` on a 6-string board moved to `stringi = 6`: accepted, and the location lands on string 6, which does not exist | `>= getStringCount()`: refuse every string index outside `[0, count)` | not executed | LocationLists.StringMoveAsWrittenOffBoard | LocationLists.StringMoveFaultMeaning |
| src/main/java/frets/main/Fretboard.java:537-539 | an empty digit *appends* `?` to the digit text, while its base `0` is *prepended* to the base text | digits `[[Loc(0,0), Loc(0,1)], []]`, number 1: the digit text is `"1?"` against the bases `"02"`, so each digit sits under the wrong base | prepend `?` like every other digit, giving `"?1"` against `"02"` | not executed | Permutations.AsWrittenMisaligned | Permutations.DigitsAligned |
