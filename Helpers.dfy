/**
 * The utility functions of the node template (src/utils/helpers.js):
 * `capitalize` and `formatDate`. The date is given as the calendar fields a
 * `Date` object reports in local time.
 */
module Helpers {
  import opened JsText

  /** `str.charAt(0).toUpperCase() + str.slice(1)`. */
  function Capitalize(s: string): (r: string)
    ensures |r| == |s|
    ensures s != [] ==> r[0] == ToUpper(s[0]) && !IsAsciiLower(r[0])
    ensures s != [] ==> r[1..] == s[1..]
  {
    if s == [] then "" else [ToUpper(s[0])] + s[1..]
  }

  /** Capitalising twice changes nothing more. */
  lemma CapitalizeIdempotent(s: string)
    ensures Capitalize(Capitalize(s)) == Capitalize(s)
  {
  }

  /** Only a leading lower-case letter changes; every other string comes back as it was. */
  lemma CapitalizeFixedPoints(s: string)
    ensures Capitalize(s) == s <==> s == [] || !IsAsciiLower(s[0])
  {
    if s != [] && Capitalize(s) == s {
      assert Capitalize(s)[0] == s[0];
    }
  }

  /** `getMonth()` of a valid date. */
  type MonthIndex = m: int | 0 <= m < 12

  /** `getDate()` of a valid date. */
  type DayOfMonth = d: int | 1 <= d <= 31 witness 1

  /** What `new Date(date)` yields: an invalid date, or the local calendar fields of a valid one. */
  datatype CalendarDate = InvalidDate | CalendarDate(year: int, monthIndex: MonthIndex, day: DayOfMonth)

  /** A number below 100 as two decimal digits. */
  function TwoDigits(k: int): (p: string)
    requires 0 <= k < 100
    ensures |p| == 2 && AllDigits(p) && DecimalValue(p) == k
  {
    var p := [DigitChar(k / 10), DigitChar(k % 10)];
    assert p[..1] == [p[0]] && [p[0]][..0] == [];
    assert RadixValue(p, 10) == RadixValue([p[0]], 10) * 10 + HexValue(p[1]);
    assert RadixValue([p[0]], 10) == HexValue(p[0]);
    p
  }

  /** The two digits are what `String(k).padStart(2, '0')` gives. */
  lemma TwoDigitsIsPadStart(k: int)
    requires 0 <= k < 100
    ensures TwoDigits(k) == PadStart(IntToString(k), 2, '0')
  {
    var s := NatToString(k);
    assert IntToString(k) == s;
    if k < 10 {
      assert s == [DigitChar(k)];
      assert PadStart(s, 2, '0') == ['0'] + s;
      assert TwoDigits(k) == ['0', DigitChar(k)];
    } else {
      assert NatToString(k / 10) == [DigitChar(k / 10)];
      assert s == [DigitChar(k / 10), DigitChar(k % 10)];
      assert PadStart(s, 2, '0') == s;
    }
  }

  /**
   * `formatDate(date)`: year, month (1-based) and day joined by `-`, month and
   * day padded to two digits; an invalid date prints `NaN` in every field.
   */
  function FormatDate(d: CalendarDate): string
  {
    if d.InvalidDate? then "NaN-NaN-NaN" else DateText(d.year, d.monthIndex, d.day)
  }

  /** The text of a valid date: `${year}-${month}-${day}`. */
  function DateText(y: int, m: MonthIndex, d: DayOfMonth): string
  {
    IntToString(y) + "-" + TwoDigits(m + 1) + "-" + TwoDigits(d)
  }

  /** Only an invalid date prints `NaN-NaN-NaN`: a valid one starts with a digit or a minus sign. */
  lemma InvalidDatePrintsNaN(d: CalendarDate)
    ensures d.InvalidDate? <==> FormatDate(d) == "NaN-NaN-NaN"
  {
    if d.CalendarDate? {
      var s := FormatDate(d);
      assert s[0] == IntToString(d.year)[0];
      assert IsDigit(s[0]) || s[0] == '-';
    }
  }

  /**
   * For a valid date with a non-negative year, the printed string splits back
   * into its fields: the year as `String` prints it, then two digits that read
   * as `monthIndex + 1`, then two digits that read as the day.
   */
  lemma FormatDateFields(y: int, m: MonthIndex, d: DayOfMonth)
    requires 0 <= y
    ensures var s := FormatDate(CalendarDate(y, m, d));
            var n := |s|;
            n == |IntToString(y)| + 6
            && s[..n - 6] == IntToString(y) && DecimalValue(s[..n - 6]) == y
            && s[n - 6] == '-' && s[n - 3] == '-'
            && AllDigits(s[n - 5..n - 3]) && DecimalValue(s[n - 5..n - 3]) == m + 1
            && AllDigits(s[n - 2..]) && DecimalValue(s[n - 2..]) == d
  {
    var s := FormatDate(CalendarDate(y, m, d));
    var n := |s|;
    var ys, mm, dd := IntToString(y), TwoDigits(m + 1), TwoDigits(d);
    assert s == ys + "-" + mm + "-" + dd;
    assert s[..n - 6] == ys;
    assert s[n - 5..n - 3] == mm;
    assert s[n - 2..] == dd;
  }

  /** Different valid dates with non-negative years print differently. */
  lemma FormatDateInjective(a: CalendarDate, b: CalendarDate)
    requires a.CalendarDate? && 0 <= a.year && b.CalendarDate? && 0 <= b.year
    requires FormatDate(a) == FormatDate(b)
    ensures a == b
  {
    FormatDateFields(a.year, a.monthIndex, a.day);
    FormatDateFields(b.year, b.monthIndex, b.day);
  }

  /** A four-digit year gives the ten characters `YYYY-MM-DD`. */
  lemma FormatDateLength(y: int, m: MonthIndex, d: DayOfMonth)
    requires 1000 <= y <= 9999
    ensures |FormatDate(CalendarDate(y, m, d))| == 10
  {
    var a := y / 10;
    var b := a / 10;
    assert 100 <= a <= 999 && 10 <= b <= 99 && 1 <= b / 10 <= 9;
    OneMoreDigit(y);
    OneMoreDigit(a);
    OneMoreDigit(b);
  }

  lemma OneMoreDigit(n: nat)
    requires n >= 10
    ensures |NatToString(n)| == |NatToString(n / 10)| + 1
  {
  }
}
