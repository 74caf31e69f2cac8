/**
 * Broken-down local times and the two `strftime` layouts the Python side uses:
 * "%Y-%m-%d %H:%M:%S" for display and file headers, "%Y%m%d_%H%M%S" for file names.
 * Turning a POSIX timestamp into local fields depends on the time zone and is a parameter
 * wherever it is needed.
 */
module Calendar {
  import Text

  datatype DateTime = DateTime(year: int, month: int, day: int, hour: int, minute: int, second: int)

  /** Four-digit years and in-range fields (days are not checked against the month). */
  predicate Valid(dt: DateTime)
  {
    1000 <= dt.year <= 9999 && 1 <= dt.month <= 12 && 1 <= dt.day <= 31
    && 0 <= dt.hour < 24 && 0 <= dt.minute < 60 && 0 <= dt.second < 60
  }

  /** "%Y-%m-%d %H:%M:%S". */
  function Format(dt: DateTime): string
  {
    Text.IntToString(dt.year) + "-" + Text.TwoDigits(dt.month) + "-" + Text.TwoDigits(dt.day) + " "
    + Text.TwoDigits(dt.hour) + ":" + Text.TwoDigits(dt.minute) + ":" + Text.TwoDigits(dt.second)
  }

  /** "%Y%m%d_%H%M%S". */
  function Compact(dt: DateTime): string
  {
    Text.IntToString(dt.year) + Text.TwoDigits(dt.month) + Text.TwoDigits(dt.day) + "_"
    + Text.TwoDigits(dt.hour) + Text.TwoDigits(dt.minute) + Text.TwoDigits(dt.second)
  }

  lemma YearDigits(y: int)
    requires 1000 <= y <= 9999
    ensures |Text.IntToString(y)| == 4
    ensures forall i :: 0 <= i < 4 ==> Text.IsDigit(Text.IntToString(y)[i])
    ensures Text.DigitsValue(Text.IntToString(y)) == y
  {
    Text.DigitsLength(y / 100);
    assert |Text.Digits(y / 100)| == 2;
    assert Text.Digits(y / 10) == Text.Digits(y / 100) + [Text.DigitChar(y / 10 % 10)];
    Text.DigitsRoundTrip(y);
  }

  /** Where the six fields and five separators of the display layout fall. */
  lemma FormatLayout(y: string, mo: string, d: string, h: string, mi: string, s: string)
    requires |y| == 4 && |mo| == 2 && |d| == 2 && |h| == 2 && |mi| == 2 && |s| == 2
    ensures var r := y + "-" + mo + "-" + d + " " + h + ":" + mi + ":" + s;
      && |r| == 19 && r[4] == '-' && r[7] == '-' && r[10] == ' ' && r[13] == ':' && r[16] == ':'
      && r[..4] == y && r[5..7] == mo && r[8..10] == d && r[11..13] == h && r[14..16] == mi && r[17..] == s
  {
    var a := y + "-" + mo + "-" + d;
    var b := h + ":" + mi + ":" + s;
    var r := y + "-" + mo + "-" + d + " " + h + ":" + mi + ":" + s;
    assert r == a + " " + b;
    assert a[..4] == y && a[5..7] == mo && a[8..10] == d;
    assert b[..2] == h && b[3..5] == mi && b[6..] == s;
    assert r[..10] == a && r[11..] == b;
    assert r[..4] == a[..4] && r[5..7] == a[5..7] && r[8..10] == a[8..10];
    assert r[11..13] == b[..2] && r[14..16] == b[3..5] && r[17..] == b[6..];
  }

  /**
   * The display layout of a valid time is 19 characters with its separators in place, and
   * every field reads back from its position.
   */
  lemma FormatShape(dt: DateTime)
    requires Valid(dt)
    ensures var r := Format(dt);
      && |r| == 19 && r[4] == '-' && r[7] == '-' && r[10] == ' ' && r[13] == ':' && r[16] == ':'
      && Text.ReadsAs(r[..4], dt.year) && Text.ReadsAs(r[5..7], dt.month) && Text.ReadsAs(r[8..10], dt.day)
      && Text.ReadsAs(r[11..13], dt.hour) && Text.ReadsAs(r[14..16], dt.minute) && Text.ReadsAs(r[17..], dt.second)
  {
    YearDigits(dt.year);
    Text.TwoDigitsShape(dt.month);
    Text.TwoDigitsShape(dt.day);
    Text.TwoDigitsShape(dt.hour);
    Text.TwoDigitsShape(dt.minute);
    Text.TwoDigitsShape(dt.second);
    var y, mo, d := Text.IntToString(dt.year), Text.TwoDigits(dt.month), Text.TwoDigits(dt.day);
    var h, mi, s := Text.TwoDigits(dt.hour), Text.TwoDigits(dt.minute), Text.TwoDigits(dt.second);
    FormatLayout(y, mo, d, h, mi, s);
    assert Text.ReadsAs(mo, dt.month) && Text.ReadsAs(d, dt.day);
    assert Text.ReadsAs(h, dt.hour) && Text.ReadsAs(mi, dt.minute) && Text.ReadsAs(s, dt.second);
  }

  lemma FormatLength(dt: DateTime)
    requires Valid(dt)
    ensures |Format(dt)| == 19
  {
    FormatShape(dt);
  }

  /** The file-name layout of a valid time is 15 characters: eight date digits, '_', six time digits. */
  lemma CompactShape(dt: DateTime)
    requires Valid(dt)
    ensures var r := Compact(dt);
      && |r| == 15 && r[8] == '_'
      && (forall i :: 0 <= i < 15 && i != 8 ==> Text.IsDigit(r[i]))
  {
    YearDigits(dt.year);
    Text.TwoDigitsShape(dt.month);
    Text.TwoDigitsShape(dt.day);
    Text.TwoDigitsShape(dt.hour);
    Text.TwoDigitsShape(dt.minute);
    Text.TwoDigitsShape(dt.second);
    CompactLayout(Text.IntToString(dt.year), Text.TwoDigits(dt.month), Text.TwoDigits(dt.day),
      Text.TwoDigits(dt.hour), Text.TwoDigits(dt.minute), Text.TwoDigits(dt.second));
  }

  /** Four year digits and five two-digit fields, laid out as "%Y%m%d_%H%M%S". */
  lemma CompactLayout(y: string, mo: string, d: string, h: string, mi: string, s: string)
    requires |y| == 4 && forall i :: 0 <= i < 4 ==> Text.IsDigit(y[i])
    requires |mo| == 2 && Text.IsDigit(mo[0]) && Text.IsDigit(mo[1])
    requires |d| == 2 && Text.IsDigit(d[0]) && Text.IsDigit(d[1])
    requires |h| == 2 && Text.IsDigit(h[0]) && Text.IsDigit(h[1])
    requires |mi| == 2 && Text.IsDigit(mi[0]) && Text.IsDigit(mi[1])
    requires |s| == 2 && Text.IsDigit(s[0]) && Text.IsDigit(s[1])
    ensures var r := y + mo + d + "_" + h + mi + s;
      && |r| == 15 && r[8] == '_'
      && (forall i :: 0 <= i < 15 && i != 8 ==> Text.IsDigit(r[i]))
  {
    var date := DigitRun3(y, mo, d);
    var time := DigitRun3(h, mi, s);
    assert y + mo + d + "_" + h + mi + s == date + "_" + time;
    var r := date + "_" + time;
    forall i | 0 <= i < 15 && i != 8 ensures Text.IsDigit(r[i]) {
      if i < 8 { assert r[i] == date[i]; } else { assert r[i] == time[i - 9]; }
    }
  }

  /** Three runs of digits side by side are one run of digits. */
  lemma DigitRun3(a: string, b: string, c: string) returns (r: string)
    requires forall i :: 0 <= i < |a| ==> Text.IsDigit(a[i])
    requires |b| == 2 && |c| == 2 && Text.IsDigit(b[0]) && Text.IsDigit(b[1]) && Text.IsDigit(c[0]) && Text.IsDigit(c[1])
    ensures r == a + b + c && |r| == |a| + 4
    ensures forall i :: 0 <= i < |r| ==> Text.IsDigit(r[i])
  {
    r := a + b + c;
    forall i | 0 <= i < |r| ensures Text.IsDigit(r[i]) {
      if i < |a| { assert r[i] == a[i]; }
      else if i < |a| + 2 { assert r[i] == b[i - |a|]; }
      else { assert r[i] == c[i - |a| - 2]; }
    }
  }

  /** A formatted time holds only digits, minus signs and its separators, never a line break. */
  lemma FormatHasNoNewline(dt: DateTime)
    ensures '\n' !in Format(dt)
  {
    Text.DecimalNoNewline(dt.year);
    Text.DecimalNoNewline(dt.month);
    Text.DecimalNoNewline(dt.day);
    Text.DecimalNoNewline(dt.hour);
    Text.DecimalNoNewline(dt.minute);
    Text.DecimalNoNewline(dt.second);
  }
}
