/** Calendar dates at day granularity, and the month arithmetic the report
    screen gets from JavaScript's Date constructor: `new Date(y, m, 1)` and
    `new Date(y, m + 1, 0)` with a 0-based month m that may run past either
    end of the year, which the constructor carries into the year. */
module Dates {

  import opened Opt
  import Text

  /** A calendar day: month 1..12, day 1..31 (see Valid). */
  datatype Date = Date(year: int, month: int, day: int)

  /** Gregorian leap years, as JavaScript's proleptic calendar has them. */
  predicate IsLeapYear(y: int)
  {
    y % 4 == 0 && (y % 100 != 0 || y % 400 == 0)
  }

  function DaysInMonth(y: int, m: int): (n: int)
    requires 1 <= m <= 12
    ensures 28 <= n <= 31
    ensures m == 2 ==> (n == 29 <==> IsLeapYear(y))
    ensures m != 2 ==> (n == 30 <==> m == 4 || m == 6 || m == 9 || m == 11)
  {
    if m == 2 then (if IsLeapYear(y) then 29 else 28)
    else if m == 4 || m == 6 || m == 9 || m == 11 then 30
    else 31
  }

  predicate Valid(d: Date)
  {
    1 <= d.month <= 12 && 1 <= d.day <= DaysInMonth(d.year, d.month)
  }

  /** Chronological order of days: by year, then month, then day. */
  predicate NotAfter(a: Date, b: Date)
  {
    a.year < b.year
    || (a.year == b.year && a.month < b.month)
    || (a.year == b.year && a.month == b.month && a.day <= b.day)
  }

  /** Months elapsed since January of year 0; a month number the Date
      constructor's carrying makes contiguous. */
  function MonthNumber(d: Date): int
  {
    12 * d.year + d.month - 1
  }

  /** `new Date(y, m, 1)` for a 0-based month m in any range. */
  function FirstDay(y: int, m: int): (d: Date)
    ensures Valid(d) && d.day == 1
    ensures MonthNumber(d) == 12 * y + m
  {
    Date(y + m / 12, m % 12 + 1, 1)
  }

  /** `new Date(y, m + 1, 0)`: the last day of 0-based month m of year y,
      for m in any range. */
  function LastDay(y: int, m: int): (d: Date)
    ensures Valid(d) && d.day == DaysInMonth(d.year, d.month)
    ensures MonthNumber(d) == 12 * y + m
  {
    var f := FirstDay(y, m);
    Date(f.year, f.month, DaysInMonth(f.year, f.month))
  }

  /** Two dates are in the same calendar month exactly when their month
      numbers agree. */
  lemma SameMonthNumber(a: Date, b: Date)
    requires 1 <= a.month <= 12 && 1 <= b.month <= 12
    ensures MonthNumber(a) == MonthNumber(b) <==> a.year == b.year && a.month == b.month
  {
  }

  /** Earlier month number means an earlier date, whatever the days. */
  lemma MonthNumberOrder(a: Date, b: Date)
    requires 1 <= a.month <= 12 && 1 <= b.month <= 12
    requires MonthNumber(a) < MonthNumber(b)
    ensures NotAfter(a, b) && a != b
  {
  }

  lemma NotAfterMonthNumber(a: Date, b: Date)
    requires 1 <= a.month <= 12 && 1 <= b.month <= 12
    requires NotAfter(a, b)
    ensures MonthNumber(a) <= MonthNumber(b)
  {
  }

  /** NotAfter is a total order on dates. */
  lemma NotAfterTotalOrder(a: Date, b: Date, c: Date)
    ensures NotAfter(a, a)
    ensures NotAfter(a, b) && NotAfter(b, a) ==> a == b
    ensures NotAfter(a, b) && NotAfter(b, c) ==> NotAfter(a, c)
    ensures NotAfter(a, b) || NotAfter(b, a)
  {
  }

  /** February 29 exists exactly in leap years. */
  lemma LeapDay(y: int)
    ensures Valid(Date(y, 2, 29)) <==> IsLeapYear(y)
    ensures LastDay(y, 1) == (if IsLeapYear(y) then Date(y, 2, 29) else Date(y, 2, 28))
  {
  }

  /** Carrying the month into the year is what JavaScript does: eleven months
      after December is next November, five before March is last October. */
  lemma CarryExamples()
    ensures FirstDay(2024, 2 - 5) == Date(2023, 10, 1)
    ensures FirstDay(2024, 11 + 1) == Date(2025, 1, 1)
    ensures LastDay(2024, 1) == Date(2024, 2, 29)
    ensures LastDay(2023, 1) == Date(2023, 2, 28)
    ensures LastDay(1900, 1) == Date(1900, 2, 28)
    ensures LastDay(2000, 1) == Date(2000, 2, 29)
  {
  }

  // ---------------------------------------------------------------------
  // Text of a date: `${y}/${pad(m)}/${pad(d)}`
  // ---------------------------------------------------------------------

  /** `pad`: a leading '0' below ten, the number itself otherwise. */
  function Pad(n: nat): (r: string)
  {
    if n < 10 then "0" + Text.NatText(n) else Text.NatText(n)
  }

  /** Number text with a minus sign for negative numbers. */
  function IntText(i: int): (r: string)
  {
    if i < 0 then "-" + Text.NatText(-i) else Text.NatText(i)
  }

  /** `formatDate`: year/month/day with two-digit month and day. */
  function FormatDate(d: Date): (r: string)
    requires Valid(d)
  {
    IntText(d.year) + "/" + Pad(d.month) + "/" + Pad(d.day)
  }

  function ParseInt(s: string): (r: Option<int>)
  {
    if |s| > 0 && s[0] == '-' then
      (if |s| > 1 && Text.AllDigits(s[1..]) then Some(-(Text.ParseDigits(s[1..]) as int)) else None)
    else if |s| > 0 && Text.AllDigits(s) then Some(Text.ParseDigits(s))
    else None
  }

  /** Reads the text FormatDate writes back as a date. */
  function ParseDate(s: string): (r: Option<Date>)
  {
    var parts := Text.Split(s, '/');
    if |parts| != 3 then None
    else match (ParseInt(parts[0]), ParseInt(parts[1]), ParseInt(parts[2]))
      case (Some(y), Some(m), Some(d)) => Some(Date(y, m, d))
      case _ => None
  }

  lemma {:induction false} ParseIntText(i: int)
    ensures ParseInt(IntText(i)) == Some(i)
    ensures '/' !in IntText(i)
  {
    var m: nat := if i < 0 then -i else i;
    var t := Text.NatText(m);
    Text.ParseNatText(m);
    assert Text.AllDigits(t);
    assert forall k :: 0 <= k < |t| ==> t[k] != '/';
    if i < 0 {
      assert IntText(i) == "-" + t;
      assert IntText(i)[1..] == t;
    } else {
      assert IntText(i) == t;
      assert t[0] != '-';
    }
  }

  lemma ParsePad(n: nat)
    requires 1 <= n < 100
    ensures ParseInt(Pad(n)) == Some(n)
    ensures '/' !in Pad(n)
  {
    Text.ParseNatText(n);
    if n < 10 {
      assert Pad(n) == ['0', Text.DigitChar(n)];
      assert Pad(n)[..1] == "0";
      assert Text.ParseDigits("0") == 0 by {
        assert "0"[..0] == "";
      }
      assert Text.ParseDigits(Pad(n)) == 10 * Text.ParseDigits("0") + n;
    } else {
      assert Pad(n)[0] != '-';
    }
  }

  /** The window text of the report is unambiguous: each date reads back. */
  lemma ParseFormatDate(d: Date)
    requires Valid(d)
    ensures ParseDate(FormatDate(d)) == Some(d)
  {
    ParseIntText(d.year);
    ParsePad(d.month);
    ParsePad(d.day);
    var parts := [IntText(d.year), Pad(d.month), Pad(d.day)];
    assert parts[1..][1..] == [Pad(d.day)];
    assert Text.Join(parts[1..], '/') == Pad(d.month) + "/" + Pad(d.day);
    assert Text.Join(parts, '/') == IntText(d.year) + "/" + (Pad(d.month) + "/" + Pad(d.day));
    assert FormatDate(d) == Text.Join(parts, '/');
    Text.SplitJoin(parts, '/');
    assert Text.Split(FormatDate(d), '/') == parts;
  }
}
