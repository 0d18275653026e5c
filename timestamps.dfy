/**
  `_safe_parse_datetime` of analysis.py and the `strftime("%Y-%m-%d %H")` hour key.
  The two accepted formats, `"%Y-%m-%d %H:%M:%S,%f"` and `"%Y-%m-%d %H:%M:%S"`, are recognised
  in their fixed-width spelling: four-digit year, two-digit month, day, hour, minute and second,
  and for the first format one to six fraction digits after a comma. The calendar checks of
  `datetime` apply: month 1..12, a day that exists in that month (leap years included),
  hour 0..23, minute and second 0..59.
 */
module Timestamps {
  import opened Wrappers

  predicate IsDigit(c: char) {
    '0' <= c <= '9'
  }

  predicate AllDigits(s: string) {
    forall i :: 0 <= i < |s| ==> IsDigit(s[i])
  }

  function DigitValue(c: char): nat
    requires IsDigit(c)
  {
    c as int - '0' as int
  }

  /** The number a string of decimal digits spells. */
  function DigitsValue(s: string): nat
    requires AllDigits(s)
  {
    if s == [] then 0 else DigitsValue(s[..|s| - 1]) * 10 + DigitValue(s[|s| - 1])
  }

  function Pow10(n: nat): nat {
    if n == 0 then 1 else 10 * Pow10(n - 1)
  }

  /** A number of `w` digits at most never spells more than `w` digits' worth. */
  lemma {:induction false} DigitsValueBound(s: string)
    requires AllDigits(s)
    ensures DigitsValue(s) < Pow10(|s|)
  {
    if s != [] {
      DigitsValueBound(s[..|s| - 1]);
    }
  }

  /** `n` written with exactly `w` digits, zero-padded on the left (as `%04d`, `%02d`). */
  function Padded(n: nat, w: nat): (r: string)
    ensures |r| == w
    ensures AllDigits(r)
  {
    if w == 0 then [] else Padded(n / 10, w - 1) + [('0' as int + n % 10) as char]
  }

  /** Zero-padded rendering inverts reading a fixed-width digit field. */
  lemma {:induction false} PaddedDigitsValue(s: string)
    requires AllDigits(s)
    ensures Padded(DigitsValue(s), |s|) == s
  {
    if s != [] {
      var init := s[..|s| - 1];
      var n := DigitsValue(s);
      assert n / 10 == DigitsValue(init) && n % 10 == DigitValue(s[|s| - 1]);
      PaddedDigitsValue(init);
      assert s == init + [s[|s| - 1]];
    }
  }

  /** Reading a zero-padded rendering gives the number back, when it fits in the width. */
  lemma {:induction false} DigitsValuePadded(n: nat, w: nat)
    requires n < Pow10(w)
    ensures DigitsValue(Padded(n, w)) == n
  {
    if w > 0 {
      DigitsValuePadded(n / 10, w - 1);
      var r := Padded(n, w);
      assert r[..w - 1] == Padded(n / 10, w - 1);
    }
  }

  datatype DateTime = DateTime(year: nat, month: nat, day: nat, hour: nat, minute: nat, second: nat, microsecond: nat)

  predicate IsLeap(y: nat) {
    y % 4 == 0 && (y % 100 != 0 || y % 400 == 0)
  }

  function DaysInMonth(y: nat, m: nat): nat
    requires 1 <= m <= 12
  {
    if m == 2 then (if IsLeap(y) then 29 else 28)
    else if m == 4 || m == 6 || m == 9 || m == 11 then 30
    else 31
  }

  /** The values `datetime` accepts. */
  predicate ValidDateTime(d: DateTime) {
    1 <= d.year <= 9999 && 1 <= d.month <= 12 && 1 <= d.day <= DaysInMonth(d.year, d.month)
    && d.hour <= 23 && d.minute <= 59 && d.second <= 59 && d.microsecond <= 999999
  }

  /** The fixed-width shape `YYYY-MM-DD HH:MM:SS`. */
  predicate Frame(s: string) {
    |s| == 19
    && AllDigits(s[0..4]) && s[4] == '-' && AllDigits(s[5..7]) && s[7] == '-' && AllDigits(s[8..10])
    && s[10] == ' '
    && AllDigits(s[11..13]) && s[13] == ':' && AllDigits(s[14..16]) && s[16] == ':' && AllDigits(s[17..19])
  }

  /** `%f`: one to six digits, read as the leading digits of the microseconds. */
  function Microseconds(f: string): nat
    requires 1 <= |f| <= 6 && AllDigits(f)
  {
    DigitsValue(f) * Pow10(6 - |f|)
  }

  /** The fields of a framed string, checked against the calendar. */
  function FromFields(s: string, micro: nat): Option<DateTime>
    requires Frame(s)
  {
    var d := DateTime(DigitsValue(s[0..4]), DigitsValue(s[5..7]), DigitsValue(s[8..10]),
                      DigitsValue(s[11..13]), DigitsValue(s[14..16]), DigitsValue(s[17..19]), micro);
    if ValidDateTime(d) then Some(d) else None
  }

  /** `datetime.strptime(s, "%Y-%m-%d %H:%M:%S,%f")` */
  function StrptimeWithFraction(s: string): Option<DateTime> {
    if 21 <= |s| <= 26 && Frame(s[..19]) && s[19] == ',' && AllDigits(s[20..])
    then FromFields(s[..19], Microseconds(s[20..]))
    else None
  }

  /** `datetime.strptime(s, "%Y-%m-%d %H:%M:%S")` */
  function Strptime(s: string): Option<DateTime> {
    if Frame(s) then FromFields(s, 0) else None
  }

  /**
    `_safe_parse_datetime(s)`: `None` for the empty string, otherwise the first of the two
    formats that parses, otherwise `None`; it never raises.
   */
  function SafeParseDatetime(s: string): Option<DateTime> {
    if s == [] then None
    else match StrptimeWithFraction(s)
      case Some(d) => Some(d)
      case None => Strptime(s)
  }

  /** `dt.strftime("%Y-%m-%d %H")` */
  function HourKey(d: DateTime): string {
    Padded(d.year, 4) + "-" + Padded(d.month, 2) + "-" + Padded(d.day, 2) + " " + Padded(d.hour, 2)
  }

  lemma HourPrefix(f: string)
    requires |f| >= 13
    ensures f[..13] == f[0..4] + [f[4]] + f[5..7] + [f[7]] + f[8..10] + [f[10]] + f[11..13]
  {
  }

  /** The hour key of a framed string's date and time is its first 13 characters. */
  lemma FramedHourKey(f: string, micro: nat)
    requires Frame(f) && FromFields(f, micro).Some?
    ensures HourKey(FromFields(f, micro).value) == f[..13]
  {
    var d := FromFields(f, micro).value;
    assert d.year == DigitsValue(f[0..4]) && d.month == DigitsValue(f[5..7]);
    assert d.day == DigitsValue(f[8..10]) && d.hour == DigitsValue(f[11..13]);
    PaddedDigitsValue(f[0..4]);
    PaddedDigitsValue(f[5..7]);
    PaddedDigitsValue(f[8..10]);
    PaddedDigitsValue(f[11..13]);
    HourPrefix(f);
  }

  /**
    A recognised timestamp is a valid date and time, the string is framed in its first 19
    characters, and its hour key is exactly its first 13 characters, `YYYY-MM-DD HH`.
   */
  lemma SafeParseDatetimeSpec(s: string)
    requires SafeParseDatetime(s).Some?
    ensures ValidDateTime(SafeParseDatetime(s).value)
    ensures |s| >= 19 && Frame(s[..19])
    ensures HourKey(SafeParseDatetime(s).value) == s[..13]
  {
    if StrptimeWithFraction(s).Some? {
      FramedHourKey(s[..19], Microseconds(s[20..]));
    } else {
      assert s[..19] == s;
      FramedHourKey(s, 0);
    }
  }

  /** The string `YYYY-MM-DD HH:MM:SS` for a date and time. */
  function Render(d: DateTime): string {
    HourKey(d) + ":" + Padded(d.minute, 2) + ":" + Padded(d.second, 2)
  }

  lemma RenderFields(d: DateTime)
    ensures var s := Render(d);
      |s| == 19 && s[0..4] == Padded(d.year, 4) && s[5..7] == Padded(d.month, 2) && s[8..10] == Padded(d.day, 2)
      && s[11..13] == Padded(d.hour, 2) && s[14..16] == Padded(d.minute, 2) && s[17..19] == Padded(d.second, 2)
      && s[4] == '-' && s[7] == '-' && s[10] == ' ' && s[13] == ':' && s[16] == ':'
  {
  }

  /** A valid date and time rendered `YYYY-MM-DD HH:MM:SS` is framed and reads back, with any microseconds. */
  lemma RenderReadsBack(d: DateTime, micro: nat)
    requires ValidDateTime(d) && micro <= 999999
    ensures Frame(Render(d)) && FromFields(Render(d), micro) == Some(d.(microsecond := micro))
  {
    RenderValues(d);
  }

  lemma RenderValues(d: DateTime)
    requires ValidDateTime(d)
    ensures var s := Render(d);
      Frame(s) && DigitsValue(s[0..4]) == d.year && DigitsValue(s[5..7]) == d.month
      && DigitsValue(s[8..10]) == d.day && DigitsValue(s[11..13]) == d.hour
      && DigitsValue(s[14..16]) == d.minute && DigitsValue(s[17..19]) == d.second
  {
    RenderFrame(d);
    RenderDate(d);
    RenderTime(d);
  }

  lemma RenderFrame(d: DateTime)
    ensures Frame(Render(d))
  {
    RenderFields(d);
  }

  lemma RenderDate(d: DateTime)
    requires ValidDateTime(d)
    ensures var s := Render(d);
      |s| == 19 && DigitsValue(s[0..4]) == d.year && DigitsValue(s[5..7]) == d.month && DigitsValue(s[8..10]) == d.day
  {
    var s := Render(d);
    RenderFields(d);
    assert Pow10(2) == 100 && Pow10(4) == 10000;
    FieldValue(s, 0, 4, d.year);
    FieldValue(s, 5, 2, d.month);
    FieldValue(s, 8, 2, d.day);
  }

  lemma RenderTime(d: DateTime)
    requires ValidDateTime(d)
    ensures var s := Render(d);
      |s| == 19 && DigitsValue(s[11..13]) == d.hour && DigitsValue(s[14..16]) == d.minute && DigitsValue(s[17..19]) == d.second
  {
    var s := Render(d);
    RenderFields(d);
    assert Pow10(2) == 100;
    FieldValue(s, 11, 2, d.hour);
    FieldValue(s, 14, 2, d.minute);
    FieldValue(s, 17, 2, d.second);
  }

  lemma FieldValue(s: string, a: nat, w: nat, n: nat)
    requires a + w <= |s| && s[a..a + w] == Padded(n, w) && n < Pow10(w)
    ensures AllDigits(s[a..a + w]) && DigitsValue(s[a..a + w]) == n
  {
    DigitsValuePadded(n, w);
  }

  /** Every valid date and time without fraction, written in the second format, is recognised with its own fields. */
  lemma SafeParseDatetimeComplete(d: DateTime)
    requires ValidDateTime(d) && d.microsecond == 0
    ensures SafeParseDatetime(Render(d)) == Some(d)
  {
    RenderReadsBack(d, 0);
    assert StrptimeWithFraction(Render(d)) == None;
  }

  lemma Pow10Add(a: nat, b: nat)
    ensures Pow10(a) * Pow10(b) == Pow10(a + b)
  {
    if a > 0 {
      Pow10Add(a - 1, b);
    }
  }

  /** One to six fraction digits give at most 999999 microseconds. */
  lemma MicrosecondsBound(f: string)
    requires 1 <= |f| <= 6 && AllDigits(f)
    ensures Microseconds(f) <= 999999
  {
    DigitsValueBound(f);
    Pow10Add(|f|, 6 - |f|);
    var k := Pow10(6 - |f|);
    assert DigitsValue(f) * k <= (Pow10(|f|) - 1) * k;
    assert Pow10(6) == 1000000;
  }

  /**
    Every valid date and time written in the first format, `YYYY-MM-DD HH:MM:SS,` and one to
    six fraction digits, is recognised with its fields and the microseconds the digits spell.
   */
  lemma SafeParseDatetimeCompleteFraction(d: DateTime, f: string)
    requires ValidDateTime(d) && 1 <= |f| <= 6 && AllDigits(f)
    ensures SafeParseDatetime(Render(d) + "," + f) == Some(d.(microsecond := Microseconds(f)))
  {
    var s := Render(d) + "," + f;
    MicrosecondsBound(f);
    RenderReadsBack(d, Microseconds(f));
    assert s[..19] == Render(d) && s[19] == ',' && s[20..] == f;
  }
}
