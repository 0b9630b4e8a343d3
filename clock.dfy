/**
 * Times of day. The booking code keeps them as zero-padded "HH:MM" strings,
 * compares them as strings and walks them as (hour, minute) pairs; the model
 * reads them as minutes since midnight.
 */
module Clock {
  import opened Wrappers
  import opened Text

  /** The "HH:MM" shape: two digits, a colon, two digits. */
  predicate IsTimeShape(s: string)
  {
    |s| == 5 && IsDigit(s[0]) && IsDigit(s[1]) && s[2] == ':' && IsDigit(s[3]) && IsDigit(s[4])
  }

  /** The label the slot generators print for a time: `${pad(hour)}:${pad(minute)}`. */
  function FormatTime(t: nat): (s: string)
    ensures t < 100 * 60 ==> IsTimeShape(s)
  {
    Pad2(t / 60) + ":" + Pad2(t % 60)
  }

  /** A well-formed "HH:MM" (minute below 60) as minutes since midnight; anything else is `None`. */
  function ParseTime(s: string): (r: Option<nat>)
    ensures r.Some? ==> IsTimeShape(s) && r.value < 100 * 60
  {
    if IsTimeShape(s) && DigitsValue(s[3..]) < 60 then
      TimeFields(s);
      Some(DigitsValue(s[..2]) * 60 + DigitsValue(s[3..]))
    else None
  }

  lemma TimeFields(s: string)
    requires IsTimeShape(s)
    ensures DigitsValue(s[..2]) == 10 * DigitValue(s[0]) + DigitValue(s[1])
    ensures DigitsValue(s[3..]) == 10 * DigitValue(s[3]) + DigitValue(s[4])
  {
    TwoDigitValue(s[..2]);
    TwoDigitValue(s[3..]);
  }

  /** Printing then reading a time gives it back. */
  lemma FormatThenParse(t: nat)
    requires t < 100 * 60
    ensures ParseTime(FormatTime(t)) == Some(t)
  {
    var s := FormatTime(t);
    assert s[..2] == Pad2(t / 60) && s[3..] == Pad2(t % 60);
    Pad2RoundTrip(t / 60);
    Pad2RoundTrip(t % 60);
  }

  /** Reading then printing a well-formed time gives the same string: the labels are zero-padded. */
  lemma ParseThenFormat(s: string, t: nat)
    requires ParseTime(s) == Some(t)
    ensures FormatTime(t) == s
  {
    TimeFields(s);
    var h, m := DigitsValue(s[..2]), DigitsValue(s[3..]);
    assert t / 60 == h && t % 60 == m;
    assert Pad2(h) == s[..2];
    assert Pad2(m) == s[3..];
    assert s == s[..2] + ":" + s[3..];
  }

  /** Two-digit strings with the same value are the same string. */
  lemma TwoDigitInjective(a: string, b: string)
    requires |a| == 2 && |b| == 2 && AllDigits(a) && AllDigits(b)
    requires DigitsValue(a) == DigitsValue(b)
    ensures a == b
  {
    TwoDigitValue(a);
    TwoDigitValue(b);
    assert DigitValue(a[0]) == DigitValue(b[0]);
    assert a[0] == DigitChar(DigitValue(a[0])) && b[0] == DigitChar(DigitValue(b[0]));
    assert a[1] == DigitChar(DigitValue(a[1])) && b[1] == DigitChar(DigitValue(b[1]));
  }

  /** Comparing well-formed "HH:MM" strings as strings is comparing them as times. */
  lemma CompareAsTimes(a: string, b: string, x: nat, y: nat)
    requires ParseTime(a) == Some(x) && ParseTime(b) == Some(y)
    ensures LexLess(a, b) <==> x < y
  {
    var ha, ma := DigitsValue(a[..2]), DigitsValue(a[3..]);
    var hb, mb := DigitsValue(b[..2]), DigitsValue(b[3..]);
    assert x == ha * 60 + ma && y == hb * 60 + mb && ma < 60 && mb < 60;
    assert a == a[..2] + (":" + a[3..]) && b == b[..2] + (":" + b[3..]);
    LexLessConcat(a[..2], ":" + a[3..], b[..2], ":" + b[3..]);
    assert LexLess(":" + a[3..], ":" + b[3..]) <==> LexLess(a[3..], b[3..]) by {
      assert (":" + a[3..])[1..] == a[3..] && (":" + b[3..])[1..] == b[3..];
    }
    TwoDigitOrder(a[..2], b[..2]);
    TwoDigitOrder(a[3..], b[3..]);
    if ha == hb {
      TwoDigitInjective(a[..2], b[..2]);
    }
    assert LexLess(a, b) <==> ha < hb || (ha == hb && ma < mb);
  }

  /** Earlier times print as smaller strings. */
  lemma FormatTimeOrder(x: nat, y: nat)
    requires x < y < 100 * 60
    ensures LexLess(FormatTime(x), FormatTime(y))
  {
    FormatThenParse(x);
    FormatThenParse(y);
    CompareAsTimes(FormatTime(x), FormatTime(y), x, y);
  }

  /** `a > b ? a : b`, the later of two "HH:MM" strings by string comparison. */
  function LaterOf(a: string, b: string): string
  {
    if LexLess(b, a) then a else b
  }

  /** `a < b ? a : b`, the earlier of two "HH:MM" strings by string comparison. */
  function EarlierOf(a: string, b: string): string
  {
    if LexLess(a, b) then a else b
  }

  /** On well-formed times the string maximum and minimum are the numeric ones. */
  lemma WindowAsTimes(a: string, b: string, x: nat, y: nat)
    requires ParseTime(a) == Some(x) && ParseTime(b) == Some(y)
    ensures ParseTime(LaterOf(a, b)) == Some(if x >= y then x else y)
    ensures ParseTime(EarlierOf(a, b)) == Some(if x <= y then x else y)
  {
    CompareAsTimes(a, b, x, y);
    CompareAsTimes(b, a, y, x);
  }
}
