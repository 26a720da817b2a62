/**
 * Times of day written "HH:MM", as index.js and blocker.js read them:
 * `s.split(':').map(Number)` and then `hours * 60 + minutes`.
 */
module ClockTime {
  import opened Wrappers
  import Text

  const MinutesPerDay := 1440

  predicate IsDigit(c: char) {
    '0' <= c <= '9'
  }

  function DigitValue(c: char): nat
    requires IsDigit(c)
  {
    c as int - '0' as int
  }

  function DigitChar(d: nat): (c: char)
    requires d < 10
    ensures IsDigit(c) && DigitValue(c) == d
  {
    ('0' as int + d) as char
  }

  /** A string of decimal digits read as a number; the empty string reads as 0. None when some character is not a digit. */
  function DecimalValue(s: string): (r: Option<nat>)
    ensures r.Some? <==> forall i :: 0 <= i < |s| ==> IsDigit(s[i])
  {
    if s == [] then Some(0)
    else
      match DecimalValue(s[..|s| - 1])
      case None => None
      case Some(v) => if IsDigit(s[|s| - 1]) then Some(10 * v + DigitValue(s[|s| - 1])) else None
  }

  /** The text after an optional leading '+' or '-'. */
  function Unsigned(t: string): (d: string)
    ensures d == t || (t != [] && (t[0] == '+' || t[0] == '-') && d == t[1..])
  {
    if t != [] && (t[0] == '+' || t[0] == '-') then t[1..] else t
  }

  /** An optional '+' or '-' followed by at least one decimal digit. */
  predicate IsSignedDecimal(t: string) {
    var digits := Unsigned(t);
    digits != [] && forall i :: 0 <= i < |digits| ==> IsDigit(digits[i])
  }

  /**
   * `Number` of text with no white space around it: nothing reads as 0, and
   * an optional sign followed by decimal digits reads as that integer. Any
   * other text is NaN (None).
   */
  function SignedValue(t: string): (r: Option<int>)
    ensures r.Some? <==> t == [] || IsSignedDecimal(t)
    ensures t == [] ==> r == Some(0)
    ensures r.Some? && t != [] && t[0] == '-' ==> r.value <= 0
    ensures r.Some? && (t == [] || t[0] != '-') ==> r.value >= 0
  {
    if t == [] then Some(0)
    else
      var digits := Unsigned(t);
      if digits == [] then None
      else
        match DecimalValue(digits)
        case None => None
        case Some(v) => Some(if t[0] == '-' then -(v as int) else v as int)
  }

  /** The decimal digits s[lo..hi] read as a number, scanning by index; None when one is not a digit. */
  function DigitsValue(s: string, lo: nat, hi: nat): (r: Option<nat>)
    requires lo <= hi <= |s|
    decreases hi - lo
  {
    if hi == lo then Some(0)
    else
      match DigitsValue(s, lo, hi - 1)
      case None => None
      case Some(v) => if IsDigit(s[hi - 1]) then Some(10 * v + DigitValue(s[hi - 1])) else None
  }

  /** `SignedValue` of s[lo..hi], scanning by index. */
  function SignedDigitsValue(s: string, lo: nat, hi: nat): (r: Option<int>)
    requires lo <= hi <= |s|
  {
    if lo == hi then Some(0)
    else
      var start := if s[lo] == '+' || s[lo] == '-' then lo + 1 else lo;
      if start == hi then None
      else
        match DigitsValue(s, start, hi)
        case None => None
        case Some(v) => Some(if s[lo] == '-' then -(v as int) else v as int)
  }

  /**
   * `Number(s)` on a field of the split, for the integer forms a time field
   * takes: the text between the leading and the trailing white space is read
   * by `SignedValue`, and white space alone reads as 0.
   */
  function ParseNumber(s: string): Option<int> {
    var lo := Text.SpaceRunEnd(s, 0);
    if lo == |s| then Some(0)
    else SignedDigitsValue(s, lo, Text.SpaceRunStart(s, |s|))
  }

  /** The scan reads the same number as the trimmed text read by `SignedValue`. */
  lemma ParseNumberMeetsSpec(s: string)
    ensures ParseNumber(s) == SignedValue(Text.Trim(s))
  {
    var lo := Text.SpaceRunEnd(s, 0);
    Text.TrimBounds(s);
    if lo < |s| {
      SignedDigitsSlice(s, lo, Text.SpaceRunStart(s, |s|));
    }
  }

  /** Scanning an optional sign and digits by index agrees with `SignedValue` on the slice. */
  lemma SignedDigitsSlice(s: string, lo: nat, hi: nat)
    requires lo <= hi <= |s|
    ensures SignedDigitsValue(s, lo, hi) == SignedValue(s[lo..hi])
  {
    if lo < hi {
      var t := s[lo..hi];
      assert t[0] == s[lo];
      var start := if s[lo] == '+' || s[lo] == '-' then lo + 1 else lo;
      assert Unsigned(t) == s[start..hi];
      DigitsValueSlice(s, start, hi);
    }
  }

  /** Scanning digits by index agrees with `DecimalValue` on the slice. */
  lemma {:induction false} DigitsValueSlice(s: string, lo: nat, hi: nat)
    requires lo <= hi <= |s|
    ensures DigitsValue(s, lo, hi) == DecimalValue(s[lo..hi])
    decreases hi - lo
  {
    if hi > lo {
      DigitsValueSlice(s, lo, hi - 1);
      assert s[lo..hi][..hi - lo - 1] == s[lo..hi - 1];
    }
  }

  /** Unsigned digits read as their decimal value. */
  lemma ParseNumberOfDigits(d: string)
    requires d != [] && DecimalValue(d).Some?
    ensures ParseNumber(d) == Some(DecimalValue(d).value as int)
  {
    assert IsDigit(d[0]) && IsDigit(d[|d| - 1]);
    Text.TrimOfClean(d);
    assert Unsigned(d) == d;
    ParseNumberMeetsSpec(d);
  }

  /** A leading '-' negates the value of the digits after it. */
  lemma ParseNumberNegates(d: string)
    requires d != [] && DecimalValue(d).Some?
    ensures ParseNumber(['-'] + d) == Some(-(DecimalValue(d).value as int))
  {
    var t := ['-'] + d;
    assert t[|t| - 1] == d[|d| - 1] && IsDigit(d[|d| - 1]);
    Text.TrimOfClean(t);
    SignedValueOfNegative(t, d, DecimalValue(d).value);
    ParseNumberMeetsSpec(t);
  }

  lemma SignedValueOfNegative(t: string, d: string, v: nat)
    requires t == ['-'] + d && d != [] && DecimalValue(d) == Some(v)
    ensures SignedValue(t) == Some(-(v as int))
  {
    assert Unsigned(t) == d;
  }

  /** White space after a field does not change its value. */
  lemma ParseNumberIgnoresTrailingSpace(s: string, w: string)
    requires Text.AllSpace(w)
    ensures ParseNumber(s + w) == ParseNumber(s)
  {
    Text.TrimIgnoresTrailingSpace(s, w);
    ParseNumberMeetsSpec(s + w);
    ParseNumberMeetsSpec(s);
  }

  /**
   * Minutes since midnight of an "HH:MM" string: the first two ':'-separated
   * fields are the hours and the minutes, further fields are ignored; a
   * missing minutes field or a field that is NaN makes the sum NaN (None).
   */
  function ParseClock(s: string): (r: Option<int>)
    ensures r.Some? ==> ':' in s
  {
    var fields := Text.Split(s, ':');
    if |fields| < 2 then None else AddFields(ParseNumber(fields[0]), ParseNumber(fields[1]))
  }

  /** `hours * 60 + minutes`, NaN when either field is. */
  function AddFields(h: Option<int>, m: Option<int>): (r: Option<int>)
    ensures r.Some? <==> h.Some? && m.Some?
  {
    if h.Some? && m.Some? then Some(h.value * 60 + m.value) else None
  }

  /** Two-digit decimal text of `n`, zero padded. */
  function TwoDigits(n: nat): (s: string)
    requires n < 100
    ensures |s| == 2 && IsDigit(s[0]) && IsDigit(s[1])
  {
    [DigitChar(n / 10), DigitChar(n % 10)]
  }

  /** "HH:MM" for an hour and a minute below 100. */
  function FormatClock(h: nat, m: nat): (s: string)
    requires h < 100 && m < 100
  {
    TwoDigits(h) + ":" + TwoDigits(m)
  }

  /** Reading back a formatted time gives `h * 60 + m` minutes. */
  lemma ParseFormatted(h: nat, m: nat)
    requires h < 100 && m < 100
    ensures ParseClock(FormatClock(h, m)) == Some(h * 60 + m)
  {
    TwoDigitsValue(h);
    TwoDigitsValue(m);
    ParseDigitFields(TwoDigits(h), TwoDigits(m), FormatClock(h, m), h, m);
  }

  /** Two fields of decimal digits around a ':' read as hours and minutes. */
  lemma ParseDigitFields(hh: string, mm: string, s: string, h: nat, m: nat)
    requires hh != [] && mm != [] && DecimalValue(hh) == Some(h) && DecimalValue(mm) == Some(m)
    requires s == hh + [':'] + mm
    ensures ParseClock(s) == Some(h * 60 + m)
  {
    assert ':' !in hh && ':' !in mm;
    ParseClockFields(hh, mm, s);
    AddDigitFields(hh, mm, h, m);
  }

  lemma AddDigitFields(hh: string, mm: string, h: nat, m: nat)
    requires hh != [] && mm != [] && DecimalValue(hh) == Some(h) && DecimalValue(mm) == Some(m)
    ensures AddFields(ParseNumber(hh), ParseNumber(mm)) == Some(h * 60 + m)
  {
    ParseNumberOfDigits(hh);
    ParseNumberOfDigits(mm);
  }

  /** A time made of an hours field, a ':' and a minutes field, neither holding a ':', reads as those two fields. */
  lemma ParseClockFields(hours: string, minutes: string, s: string)
    requires ':' !in hours && ':' !in minutes && s == hours + [':'] + minutes
    ensures ParseClock(s) == AddFields(ParseNumber(hours), ParseNumber(minutes))
  {
    Text.SplitAtSeparator(hours, ':', minutes);
    Text.SplitWhole(minutes, ':');
  }

  /** A two-digit field reads back as its value. */
  lemma TwoDigitsValue(n: nat)
    requires n < 100
    ensures DecimalValue(TwoDigits(n)) == Some(n)
  {
    var s := TwoDigits(n);
    var hi, lo := n / 10, n % 10;
    assert n == 10 * hi + lo;
    assert DigitValue(s[0]) == hi && DigitValue(s[1]) == lo;
    assert s[..1][..0] == [];
    assert DecimalValue(s[..1]) == Some(hi) by {
      assert s[..1] == [s[0]];
      assert DecimalValue(s[..1][..0]) == Some(0);
    }
    assert s[..|s| - 1] == s[..1];
  }
}
