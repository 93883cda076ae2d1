/**
 * The pieces of the Java platform the fretboard code leans on, stated exactly:
 * 32-bit wrap-around, the truncating remainder `%`, `Integer.toString`,
 * `Integer.parseInt`, `replaceAll("\\s", "")`, `StringTokenizer` and `String.split`
 * for a character-class pattern.
 */
module JavaText {
  import opened Outcomes

  const INT_MIN: int := -0x8000_0000
  const INT_MAX: int := 0x7fff_ffff

  /** The value a Java `int` expression with exact value `x` really has. */
  function Wrap32(x: int): (w: int)
    ensures INT_MIN <= w <= INT_MAX
    ensures INT_MIN <= x <= INT_MAX ==> w == x
  {
    (x - INT_MIN) % 0x1_0000_0000 + INT_MIN
  }

  /** Java's `a % b` for `b > 0`: the remainder takes the sign of `a`. */
  function Rem(a: int, b: int): (r: int)
    requires b > 0
    ensures a >= 0 ==> r == a % b
    ensures a < 0 ==> -b < r <= 0
  {
    if a >= 0 then a % b else -((-a) % b)
  }

  // ---------------------------------------------------------------- characters

  /** The characters of the regular-expression class `\s`. */
  predicate IsSpace(c: char)
  {
    c == ' ' || c == '\t' || c == '\n' || c == '\U{000B}' || c == '\U{000C}' || c == '\r'
  }

  /** An ASCII decimal digit; the other Unicode decimal digits `Character.digit` accepts are not modelled. */
  predicate IsDigit(c: char)
  {
    '0' <= c <= '9'
  }

  /** `Character.toLowerCase` on the ASCII letters; other characters are left alone. */
  function Lower(c: char): char
  {
    if 'A' <= c <= 'Z' then (c as int + 32) as char else c
  }

  /** No character of `s` is one of `delims`. */
  predicate Free(s: string, delims: string)
  {
    forall i :: 0 <= i < |s| ==> s[i] !in delims
  }

  /** `s.replaceAll("\\s", "")`. */
  function StripSpaces(s: string): (t: string)
    ensures forall i :: 0 <= i < |t| ==> !IsSpace(t[i])
  {
    if s == [] then []
    else if IsSpace(s[0]) then StripSpaces(s[1..])
    else [s[0]] + StripSpaces(s[1..])
  }

  /** Text without whitespace is left as it is. */
  lemma {:induction false} StripClean(s: string)
    requires forall i :: 0 <= i < |s| ==> !IsSpace(s[i])
    ensures StripSpaces(s) == s
  {
    if s != [] {
      StripClean(s[1..]);
      assert [s[0]] + s[1..] == s;
    }
  }

  lemma {:induction false} StripBlank(s: string)
    requires forall i :: 0 <= i < |s| ==> IsSpace(s[i])
    ensures StripSpaces(s) == []
  {
    if s != [] {
      StripBlank(s[1..]);
    }
  }

  /** Leading whitespace goes, and the first visible character stays in front of the rest. */
  lemma {:induction false} StripFirst(pre: string, x: char, rest: string)
    requires forall i :: 0 <= i < |pre| ==> IsSpace(pre[i])
    requires !IsSpace(x)
    ensures StripSpaces(pre + [x] + rest) == [x] + StripSpaces(rest)
  {
    var s := pre + [x] + rest;
    if pre == [] {
      assert s[0] == x && s[1..] == rest;
    } else {
      assert s[0] == pre[0] && s[1..] == pre[1..] + [x] + rest;
      StripFirst(pre[1..], x, rest);
    }
  }

  // ---------------------------------------------------------------- integers

  function DigitChar(d: nat): (c: char)
    requires d < 10
    ensures IsDigit(c)
  {
    ('0' as int + d) as char
  }

  /** Decimal digits of `n`, most significant first, without leading zeros. */
  function NatToString(n: nat): (s: string)
    ensures |s| >= 1
    ensures forall i :: 0 <= i < |s| ==> IsDigit(s[i])
    ensures n > 0 ==> s[0] != '0'
    decreases n
  {
    if n < 10 then [DigitChar(n)] else NatToString(n / 10) + [DigitChar(n % 10)]
  }

  /** `Integer.toString(i)`. */
  function IntToString(i: int): (s: string)
    ensures |s| >= 1
    ensures forall k :: 0 <= k < |s| ==> IsDigit(s[k]) || (k == 0 && s[k] == '-')
  {
    if i < 0 then "-" + NatToString(-i) else NatToString(i)
  }

  predicate AllDigits(s: string)
  {
    forall i :: 0 <= i < |s| ==> IsDigit(s[i])
  }

  /** The number a string of decimal digits denotes. */
  function DigitsValue(s: string): nat
    requires AllDigits(s)
  {
    if s == [] then 0
    else DigitsValue(s[..|s| - 1]) * 10 + (s[|s| - 1] as int - '0' as int)
  }

  /** An optional sign followed by at least one decimal digit, read as an unbounded integer. */
  function ParseInteger(s: string): Option<int>
  {
    if |s| == 0 then None
    else if s[0] == '-' || s[0] == '+' then
      if |s| > 1 && AllDigits(s[1..]) then
        var magnitude: int := DigitsValue(s[1..]);
        Some(if s[0] == '-' then -magnitude else magnitude)
      else None
    else if AllDigits(s) then Some(DigitsValue(s))
    else None
  }

  const LONG_MIN: int := -0x8000_0000_0000_0000
  const LONG_MAX: int := 0x7fff_ffff_ffff_ffff

  /** `Integer.parseInt(s)`: a `NumberFormatException` (here `None`) unless the text is a number that fits an `int`. */
  function ParseInt(s: string): (r: Option<int>)
    ensures r.Some? ==> INT_MIN <= r.value <= INT_MAX
  {
    match ParseInteger(s)
    case Some(v) => if INT_MIN <= v <= INT_MAX then Some(v) else None
    case None => None
  }

  /** `Long.parseLong(s)`: as `ParseInt`, for the 64-bit range. */
  function ParseLong(s: string): (r: Option<int>)
    ensures r.Some? ==> LONG_MIN <= r.value <= LONG_MAX
  {
    match ParseInteger(s)
    case Some(v) => if LONG_MIN <= v <= LONG_MAX then Some(v) else None
    case None => None
  }

  lemma {:induction false} DigitsOfNat(n: nat)
    ensures DigitsValue(NatToString(n)) == n
    decreases n
  {
    if n >= 10 {
      var s := NatToString(n);
      assert s[..|s| - 1] == NatToString(n / 10);
      DigitsOfNat(n / 10);
    }
  }

  /** Reading back what `Integer.toString` (or `Long.toString`) printed gives the number. */
  lemma ParseIntegerToString(i: int)
    ensures ParseInteger(IntToString(i)) == Some(i)
  {
    var s := IntToString(i);
    if i < 0 {
      var t := NatToString(-i);
      assert s == "-" + t && s[1..] == t && s[0] == '-';
      assert AllDigits(t);
      DigitsOfNat(-i);
      var m: int := DigitsValue(t);
      assert ParseInteger(s) == Some(-m) && -m == i;
    } else {
      assert s == NatToString(i) && AllDigits(s) && IsDigit(s[0]);
      DigitsOfNat(i);
      assert ParseInteger(s) == Some(DigitsValue(s));
    }
  }

  /** `Integer.parseInt` inverts `Integer.toString`. */
  lemma ParseIntToString(i: int)
    requires INT_MIN <= i <= INT_MAX
    ensures ParseInt(IntToString(i)) == Some(i)
  {
    ParseIntegerToString(i);
  }

  /** `Long.parseLong` inverts `Long.toString`. */
  lemma ParseLongToString(i: int)
    requires LONG_MIN <= i <= LONG_MAX
    ensures ParseLong(IntToString(i)) == Some(i)
  {
    ParseIntegerToString(i);
  }

  /** A printed integer holds no character outside digits and `-`. */
  lemma IntToStringFree(i: int, delims: string)
    requires forall c :: c in delims ==> !IsDigit(c) && c != '-'
    ensures Free(IntToString(i), delims)
  {
  }

  /** A printed non-negative integer is all digits. */
  lemma NatToStringFree(i: int, delims: string)
    requires i >= 0
    requires forall c :: c in delims ==> !IsDigit(c)
    ensures Free(IntToString(i), delims)
  {
  }

  // ---------------------------------------------------------------- splitting

  /** The pieces of `s` between single delimiter characters, empty pieces included. */
  function Fields(s: string, delims: string): (f: seq<string>)
    ensures |f| >= 1
    ensures forall k :: 0 <= k < |f| ==> Free(f[k], delims)
  {
    if s == [] then [[]]
    else if s[0] in delims then [[]] + Fields(s[1..], delims)
    else
      var rest := Fields(s[1..], delims);
      [[s[0]] + rest[0]] + rest[1..]
  }

  /** The non-empty members of `parts`, in order. */
  function NonEmpty(parts: seq<string>): (t: seq<string>)
    ensures forall k :: 0 <= k < |t| ==> t[k] != [] && t[k] in parts
    ensures |t| <= |parts|
  {
    if parts == [] then []
    else if parts[0] == [] then NonEmpty(parts[1..])
    else [parts[0]] + NonEmpty(parts[1..])
  }

  /** The tokens a `java.util.StringTokenizer` over `delims` yields: maximal non-empty runs. */
  function Tokens(s: string, delims: string): seq<string>
  {
    NonEmpty(Fields(s, delims))
  }

  /** `parts` without its trailing empty strings. */
  function DropTrailingEmpty(parts: seq<string>): (t: seq<string>)
    ensures |t| <= |parts| && t == parts[..|t|]
    ensures |t| > 0 ==> t[|t| - 1] != []
    ensures forall k :: |t| <= k < |parts| ==> parts[k] == []
  {
    if parts != [] && parts[|parts| - 1] == [] then DropTrailingEmpty(parts[..|parts| - 1])
    else parts
  }

  /** `s.split("[delims]")`: no match leaves `[s]`; otherwise trailing empty pieces are removed. */
  function Split(s: string, delims: string): seq<string>
  {
    if Free(s, delims) then [s] else DropTrailingEmpty(Fields(s, delims))
  }

  /**
   * `s.split("[delims]+")`: a leading empty piece when `s` starts with a delimiter,
   * then the non-empty runs; a string of delimiters only gives no pieces at all.
   */
  function SplitRuns(s: string, delims: string): seq<string>
  {
    if Free(s, delims) then [s]
    else
      var t := NonEmpty(Fields(s, delims));
      if t == [] then [] else (if s[0] in delims then [[]] else []) + t
  }

  /** `String.join` of `parts` with the separator `sep`. */
  function Join(parts: seq<string>, sep: char): string
  {
    if |parts| == 0 then []
    else if |parts| == 1 then parts[0]
    else parts[0] + [sep] + Join(parts[1..], sep)
  }

  lemma {:induction false} FieldsOfFree(a: string, delims: string)
    requires Free(a, delims)
    ensures Fields(a, delims) == [a]
  {
    if a != [] {
      FieldsOfFree(a[1..], delims);
      assert [a[0]] + a[1..] == a;
    }
  }

  /** Cutting at a delimiter splits the pieces of the two sides apart. */
  lemma {:induction false} FieldsConcat(a: string, d: char, b: string, delims: string)
    requires d in delims
    ensures Fields(a + [d] + b, delims) == Fields(a, delims) + Fields(b, delims)
  {
    if a == [] {
      assert a + [d] + b == [d] + b;
      assert ([d] + b)[1..] == b;
    } else {
      assert (a + [d] + b)[0] == a[0];
      assert (a + [d] + b)[1..] == a[1..] + [d] + b;
      FieldsConcat(a[1..], d, b, delims);
    }
  }

  /** Two delimiter-free pieces around one delimiter split into exactly those pieces. */
  lemma SplitTwo(a: string, d: char, b: string, delims: string)
    requires d in delims && Free(a, delims) && Free(b, delims) && b != []
    ensures Split(a + [d] + b, delims) == [a, b]
  {
    var s := a + [d] + b;
    assert s[|a|] == d;
    FieldsConcat(a, d, b, delims);
    FieldsOfFree(a, delims);
    FieldsOfFree(b, delims);
  }

  /** Three delimiter-free pieces, the last non-empty, split into exactly those pieces. */
  lemma SplitThree(a: string, d: char, b: string, e: char, c: string, delims: string)
    requires d in delims && e in delims && Free(a, delims) && Free(b, delims) && Free(c, delims) && c != []
    ensures Split(a + [d] + b + [e] + c, delims) == [a, b, c]
  {
    var s := a + [d] + b + [e] + c;
    assert s == a + [d] + (b + [e] + c);
    assert s[|a|] == d;
    FieldsConcat(a, d, b + [e] + c, delims);
    FieldsConcat(b, e, c, delims);
    FieldsOfFree(a, delims);
    FieldsOfFree(b, delims);
    FieldsOfFree(c, delims);
  }

  lemma {:induction false} NonEmptyConcat(x: seq<string>, y: seq<string>)
    ensures NonEmpty(x + y) == NonEmpty(x) + NonEmpty(y)
  {
    if x != [] {
      assert (x + y)[0] == x[0];
      assert (x + y)[1..] == x[1..] + y;
      NonEmptyConcat(x[1..], y);
    } else {
      assert x + y == y;
    }
  }

  /** Reading one more piece adds it to the non-empty ones when it is not empty. */
  lemma NonEmptySnoc(parts: seq<string>, i: int)
    requires 0 <= i < |parts|
    ensures NonEmpty(parts[..i + 1]) == NonEmpty(parts[..i]) + (if parts[i] != [] then [parts[i]] else [])
  {
    assert parts[..i + 1] == parts[..i] + [parts[i]];
    NonEmptyConcat(parts[..i], [parts[i]]);
  }

  /** A tokenizer sees the tokens of the two sides of a delimiter, one after the other. */
  lemma TokensConcat(a: string, d: char, b: string, delims: string)
    requires d in delims
    ensures Tokens(a + [d] + b, delims) == Tokens(a, delims) + Tokens(b, delims)
  {
    FieldsConcat(a, d, b, delims);
    NonEmptyConcat(Fields(a, delims), Fields(b, delims));
  }

  /** Three non-empty delimiter-free pieces around two delimiters are three tokens. */
  lemma TokensThree(a: string, d: char, b: string, e: char, c: string, delims: string)
    requires d in delims && e in delims
    requires a != [] && Free(a, delims) && b != [] && Free(b, delims) && c != [] && Free(c, delims)
    ensures Tokens(a + [d] + b + [e] + c, delims) == [a, b, c]
  {
    assert a + [d] + b + [e] + c == a + [d] + (b + [e] + c);
    TokensConcat(a, d, b + [e] + c, delims);
    TokensConcat(b, e, c, delims);
    TokensOfFree(a, delims);
    TokensOfFree(b, delims);
    TokensOfFree(c, delims);
  }

  /** Text that starts with a delimiter adds its own tokens after those before it. */
  lemma TokensAppend(a: string, b: string, delims: string)
    requires b != [] && b[0] in delims
    ensures Tokens(a + b, delims) == Tokens(a, delims) + Tokens(b, delims)
  {
    assert a + b == a + [b[0]] + b[1..];
    assert b == [] + [b[0]] + b[1..];
    TokensConcat(a, b[0], b[1..], delims);
    TokensConcat([], b[0], b[1..], delims);
    assert Tokens([], delims) == [];
  }

  /** A non-empty delimiter-free string is a single token. */
  lemma TokensOfFree(a: string, delims: string)
    requires a != [] && Free(a, delims)
    ensures Tokens(a, delims) == [a]
  {
    FieldsOfFree(a, delims);
  }

  /** Splitting a joined list at its separator gives the list back. */
  lemma {:induction false} FieldsOfJoin(parts: seq<string>, sep: char, delims: string)
    requires |parts| >= 1 && sep in delims
    requires forall k :: 0 <= k < |parts| ==> Free(parts[k], delims)
    ensures Fields(Join(parts, sep), delims) == parts
  {
    if |parts| == 1 {
      FieldsOfFree(parts[0], delims);
    } else {
      FieldsConcat(parts[0], sep, Join(parts[1..], sep), delims);
      FieldsOfFree(parts[0], delims);
      FieldsOfJoin(parts[1..], sep, delims);
    }
  }

  /** `String.split` inverts `String.join` for non-empty pieces without delimiters. */
  lemma SplitJoin(parts: seq<string>, sep: char, delims: string)
    requires |parts| >= 1 && sep in delims
    requires forall k :: 0 <= k < |parts| ==> parts[k] != [] && Free(parts[k], delims)
    ensures Split(Join(parts, sep), delims) == parts
  {
    if |parts| > 1 {
      var s := Join(parts, sep);
      assert s == parts[0] + [sep] + Join(parts[1..], sep);
      assert s[|parts[0]|] == sep;
      assert !Free(s, delims);
      FieldsOfJoin(parts, sep, delims);
    }
  }
}
