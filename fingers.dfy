/** The fingers of the fretting hand, with their English and Latin names. */
module Fingers {
  import opened JavaText

  datatype Finger = Thumb | Index | Middle | Ring | Little
  {
    /** `getName`, which `toString` returns. */
    function Name(): string
    {
      match this
      case Thumb => "Thumb"
      case Index => "Index"
      case Middle => "Middle"
      case Ring => "Ring"
      case Little => "Little"
    }

    function ShortName(): string
    {
      match this
      case Thumb => "T"
      case Index => "I"
      case Middle => "M"
      case Ring => "R"
      case Little => "L"
    }

    function Latin(): string
    {
      match this
      case Thumb => "Pulgar"
      case Index => "Index"
      case Middle => "Medius"
      case Ring => "Annularis"
      case Little => "Quintus"
    }

    /** The letters of classical guitar notation. */
    function ShortLatin(): string
    {
      match this
      case Thumb => "P"
      case Index => "I"
      case Middle => "M"
      case Ring => "A"
      case Little => "Q"
    }

    /** Thumb is 0, then one more per finger up to the little finger's 4. */
    function Value(): (v: int)
      ensures 0 <= v < 5
    {
      match this
      case Thumb => 0
      case Index => 1
      case Middle => 2
      case Ring => 3
      case Little => 4
    }
  }

  /** `toString`: the English name. */
  function ToString(f: Finger): string
  {
    f.Name()
  }

  /** `getFinger`: the finger of the Java remainder `value % 5`; a negative remainder matches no case and falls back to the thumb. */
  function GetFinger(value: int): Finger
  {
    var normal := Rem(value, 5);
    if normal == 0 then Thumb
    else if normal == 1 then Index
    else if normal == 2 then Middle
    else if normal == 3 then Ring
    else if normal == 4 then Little
    else Thumb
  }

  /** A non-negative value picks the finger whose value is its remainder by 5. */
  lemma GetFingerValue(value: int)
    requires value >= 0
    ensures GetFinger(value).Value() == value % 5
  {
  }

  /** A negative value that is not a multiple of 5 gets the thumb, whatever its remainder. */
  lemma GetFingerNegative(value: int)
    requires value < 0 && value % 5 != 0
    ensures GetFinger(value) == Thumb
  {
  }

  /** `getFinger(-1)` is the thumb and `getFinger(4)` the little finger. */
  lemma GetFingerExamples()
    ensures GetFinger(-1) == Thumb && GetFinger(4) == Little
  {
  }

  /** Every finger is found again from its value, and the values tell the fingers apart. */
  lemma GetFingerOfValue(f: Finger)
    ensures GetFinger(f.Value()) == f
    ensures forall g: Finger :: g.Value() == f.Value() ==> g == f
  {
  }

  /** The short Latin letters tell the fingers apart too. */
  lemma ShortLatinDistinct(f: Finger, g: Finger)
    ensures f.ShortLatin() == g.ShortLatin() <==> f == g
  {
  }

  /** `toString` prints the English name, and no two fingers print alike. */
  lemma ToStringDistinct(f: Finger, g: Finger)
    ensures ToString(f) == ToString(g) <==> f == g
    ensures ToString(Thumb) == "Thumb" && ToString(Little) == "Little"
  {
  }
}
