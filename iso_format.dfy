/** The part of ISO 8601 that `datetime.fromisoformat` is asked to read here:
    the extended calendar date `YYYY-MM-DD` (section 5.2.1.1 of ISO 8601:2004)
    and the date-time `YYYY-MM-DDTHH:MM:SS`, with ASCII digits only. */
module IsoFormat {

  import opened Outcomes
  import opened Calendar

  predicate IsDigit(c: char) {
    '0' <= c <= '9'
  }

  predicate AllDigits(s: string) {
    forall i :: 0 <= i < |s| ==> IsDigit(s[i])
  }

  function Pow10(k: nat): (p: nat)
    ensures p >= 1
  {
    if k == 0 then 1 else 10 * Pow10(k - 1)
  }

  /** The number written by a string of decimal digits. */
  function DigitsValue(s: string): (v: nat)
    requires AllDigits(s)
    ensures v < Pow10(|s|)
    decreases |s|
  {
    if s == [] then 0
    else DigitsValue(s[..|s| - 1]) * 10 + (s[|s| - 1] as int - '0' as int)
  }

  /** `n` written with exactly `width` digits, zero-padded on the left. */
  function Pad(n: nat, width: nat): (s: string)
    ensures |s| == width && AllDigits(s)
  {
    if width == 0 then []
    else Pad(n / 10, width - 1) + [('0' as int + n % 10) as char]
  }

  /** The `width` digits at position `at`, or `None` when one of them is not a digit. */
  function Field(s: string, at: nat, width: nat): Option<nat>
    requires at + width <= |s|
  {
    var f := s[at..at + width];
    if AllDigits(f) then Some(DigitsValue(f)) else None
  }

  /** Reads `YYYY-MM-DD` from the first ten characters of `s`. */
  function ParseDate(s: string): (r: Option<Date>)
    requires |s| >= 10
    ensures r.Some? ==> ValidDate(r.value)
  {
    var y, m, d := Field(s, 0, 4), Field(s, 5, 2), Field(s, 8, 2);
    if s[4] == '-' && s[7] == '-' && y.Some? && m.Some? && d.Some?
       && ValidDate(Date(y.value, m.value, d.value))
    then Some(Date(y.value, m.value, d.value))
    else None
  }

  /** `datetime.fromisoformat(s)`: `None` stands for the ValueError it raises. */
  function ParseIso(s: string): (r: Option<DateTime>)
    ensures r.Some? ==> ValidDateTime(r.value)
    ensures r.Some? ==> |s| == 10 || |s| == 19
  {
    if |s| == 10 then
      match ParseDate(s)
      case Some(d) => Some(Midnight(d))
      case None => None
    else if |s| == 19 && s[10] == 'T' && s[13] == ':' && s[16] == ':' then
      var date, h, m, sec := ParseDate(s), Field(s, 11, 2), Field(s, 14, 2), Field(s, 17, 2);
      if date.Some? && h.Some? && m.Some? && sec.Some? && ValidTime(h.value, m.value, sec.value, 0)
      then Some(DateTime(date.value, h.value, m.value, sec.value, 0))
      else None
    else None
  }

  /** `date.isoformat()`. */
  function FormatDate(d: Date): (s: string)
    requires ValidDate(d)
    ensures |s| == 10
  {
    Pad(d.year, 4) + "-" + Pad(d.month, 2) + "-" + Pad(d.day, 2)
  }

  /** `datetime.isoformat()` of a value without microseconds. */
  function FormatDateTime(t: DateTime): (s: string)
    requires ValidDateTime(t)
    ensures |s| == 19
  {
    FormatDate(t.date) + "T" + Pad(t.hour, 2) + ":" + Pad(t.minute, 2) + ":" + Pad(t.second, 2)
  }

  // ---------------------------------------------------------------------
  // Digits

  lemma {:induction false} PadDigitsValue(n: nat, width: nat)
    requires n < Pow10(width)
    ensures DigitsValue(Pad(n, width)) == n
  {
    if width > 0 {
      var s := Pad(n, width);
      assert s[..width - 1] == Pad(n / 10, width - 1);
      PadDigitsValue(n / 10, width - 1);
    }
  }

  lemma {:induction false} DigitsValuePad(s: string)
    requires AllDigits(s)
    ensures Pad(DigitsValue(s), |s|) == s
    decreases |s|
  {
    if s != [] {
      var init := s[..|s| - 1];
      DigitsValuePad(init);
      assert s == init + [s[|s| - 1]];
    }
  }

  lemma FieldOfPad(prefix: string, n: nat, width: nat, rest: string)
    requires n < Pow10(width)
    ensures Field(prefix + Pad(n, width) + rest, |prefix|, width) == Some(n)
  {
    var s := prefix + Pad(n, width) + rest;
    assert s[|prefix|..|prefix| + width] == Pad(n, width);
    PadDigitsValue(n, width);
  }

  // ---------------------------------------------------------------------
  // Parsing inverts formatting and formatting inverts parsing

  lemma ParseDateOfFormat(d: Date, rest: string)
    requires ValidDate(d)
    ensures ParseDate(FormatDate(d) + rest) == Some(d)
  {
    var s := FormatDate(d) + rest;
    assert s == Pad(d.year, 4) + ("-" + Pad(d.month, 2) + "-" + Pad(d.day, 2) + rest);
    FieldOfPad([], d.year, 4, "-" + Pad(d.month, 2) + "-" + Pad(d.day, 2) + rest);
    assert [] + Pad(d.year, 4) == Pad(d.year, 4);
    assert s == Pad(d.year, 4) + "-" + Pad(d.month, 2) + ("-" + Pad(d.day, 2) + rest);
    FieldOfPad(Pad(d.year, 4) + "-", d.month, 2, "-" + Pad(d.day, 2) + rest);
    assert s == Pad(d.year, 4) + "-" + Pad(d.month, 2) + "-" + Pad(d.day, 2) + rest;
    FieldOfPad(Pad(d.year, 4) + "-" + Pad(d.month, 2) + "-", d.day, 2, rest);
  }

  /** An ISO calendar-date string reads back as midnight of that date. */
  lemma ParseFormatDate(d: Date)
    requires ValidDate(d)
    ensures ParseIso(FormatDate(d)) == Some(Midnight(d))
  {
    ParseDateOfFormat(d, []);
    assert FormatDate(d) + [] == FormatDate(d);
  }

  /** The hour, minute and second fields of a formatted date-time read back. */
  lemma TimeFieldsOfFormat(t: DateTime)
    requires ValidDateTime(t)
    ensures Field(FormatDateTime(t), 11, 2) == Some(t.hour)
    ensures Field(FormatDateTime(t), 14, 2) == Some(t.minute)
    ensures Field(FormatDateTime(t), 17, 2) == Some(t.second)
  {
    var s, f := FormatDateTime(t), FormatDate(t.date);
    var hh, mm, ss := Pad(t.hour, 2), Pad(t.minute, 2), Pad(t.second, 2);
    assert s == f + "T" + hh + ":" + mm + ":" + ss;
    assert s[11..13] == hh;
    assert s[14..16] == mm;
    assert s[17..19] == ss;
    PadDigitsValue(t.hour, 2);
    PadDigitsValue(t.minute, 2);
    PadDigitsValue(t.second, 2);
  }

  /** An ISO date-time string reads back as the same date-time. */
  lemma ParseFormatDateTime(t: DateTime)
    requires ValidDateTime(t) && t.microsecond == 0
    ensures ParseIso(FormatDateTime(t)) == Some(t)
  {
    var tail := "T" + Pad(t.hour, 2) + ":" + Pad(t.minute, 2) + ":" + Pad(t.second, 2);
    assert FormatDateTime(t) == FormatDate(t.date) + tail;
    ParseDateOfFormat(t.date, tail);
    TimeFieldsOfFormat(t);
  }

  /** The first ten characters of a string whose date part parses are the
      canonical text of that date. */
  lemma ParsedDateIsFormatted(s: string)
    requires |s| >= 10 && ParseDate(s).Some?
    ensures s[..10] == FormatDate(ParseDate(s).value)
  {
    var d := ParseDate(s).value;
    DigitsValuePad(s[0..4]);
    DigitsValuePad(s[5..7]);
    DigitsValuePad(s[8..10]);
    assert s[..10] == s[0..4] + [s[4]] + s[5..7] + [s[7]] + s[8..10];
  }

  /** Every string the parser accepts is the canonical ISO text of what it
      returns: the accepted language is exactly the image of the formatters. */
  lemma ParsedIsFormatted(s: string)
    requires ParseIso(s).Some?
    ensures |s| == 10 ==> s == FormatDate(ParseIso(s).value.date)
    ensures |s| == 19 ==> s == FormatDateTime(ParseIso(s).value)
  {
    ParsedDateIsFormatted(s);
    if |s| == 10 {
      assert s == s[..10];
    } else {
      var t := ParseIso(s).value;
      DigitsValuePad(s[11..13]);
      DigitsValuePad(s[14..16]);
      DigitsValuePad(s[17..19]);
      assert Pad(t.hour, 2) == s[11..13] && Pad(t.minute, 2) == s[14..16] && Pad(t.second, 2) == s[17..19];
      assert s == s[..10] + [s[10]] + s[11..13] + [s[13]] + s[14..16] + [s[16]] + s[17..19];
    }
  }

  /** Appending `T00:00:00` never rescues a string the parser rejected: the
      text is then 19 characters long only if the rejected string was a
      10-character one, whose date part both attempts read alike. */
  lemma RetryNeverRescues(s: string)
    requires ParseIso(s).None?
    ensures ParseIso(s + "T00:00:00").None?
  {
    var t := s + "T00:00:00";
    if |t| == 19 {
      assert |s| == 10;
      assert t[0..4] == s[0..4] && t[5..7] == s[5..7] && t[8..10] == s[8..10];
      assert ParseDate(t) == ParseDate(s);
    }
  }
}
