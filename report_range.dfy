/** The report's date window: `getRangeDates` turns the range mode into an
    inclusive window of days, with "now" passed in, and `shiftRange` moves a
    month or year window by one unit. */
module ReportRange {

  import opened Opt
  import opened Dates

  /** The range buttons: 月, 近6個月, 年, 自訂. */
  datatype RangeMode = Month | LastSixMonths | Year | Custom

  datatype Direction = Prev | Next

  /** An inclusive window of days. */
  datatype Window = Window(start: Date, end: Date)

  predicate InWindow(d: Date, w: Window)
  {
    NotAfter(w.start, d) && NotAfter(d, w.end)
  }

  /** `getRangeDates`: the window of a range mode. Month and year windows are
      whole calendar months and years around now; the six-month window runs
      from the first day of the month five months back to now; a custom
      window is the two picked days, and None while either is missing. */
  function RangeDates(mode: RangeMode, now: Date, customStart: Option<Date>, customEnd: Option<Date>)
    : (w: Option<Window>)
    ensures mode != Custom ==> w.Some?
    ensures mode == Custom ==> (w.Some? <==> customStart.Some? && customEnd.Some?)
    ensures mode == Custom && w.Some? ==> w.value == Window(customStart.value, customEnd.value)
  {
    match mode
    case Month => Some(Window(FirstDay(now.year, now.month - 1), LastDay(now.year, now.month - 1)))
    case LastSixMonths => Some(Window(FirstDay(now.year, now.month - 1 - 5), now))
    case Year => Some(Window(FirstDay(now.year, 0), Date(now.year, 12, 31)))
    case Custom =>
      if customStart.None? || customEnd.None? then None
      else Some(Window(customStart.value, customEnd.value))
  }

  /** The month window holds exactly the days of now's month, from day 1 to
      the month's last day (29 in a leap February). */
  lemma MonthWindowIsCalendarMonth(now: Date, cs: Option<Date>, ce: Option<Date>)
    requires Valid(now)
    ensures var w := RangeDates(Month, now, cs, ce).value;
            w.start == Date(now.year, now.month, 1)
            && w.end == Date(now.year, now.month, DaysInMonth(now.year, now.month))
            && InWindow(now, w)
            && forall d :: Valid(d) ==> (InWindow(d, w) <==> d.year == now.year && d.month == now.month)
  {
    var w := RangeDates(Month, now, cs, ce).value;
    SameMonthNumber(w.start, now);
    SameMonthNumber(w.end, now);
    forall d | Valid(d) ensures InWindow(d, w) <==> d.year == now.year && d.month == now.month {
      SameMonthNumber(d, now);
    }
  }

  /** The six-month window holds exactly the days from the first of the
      month five months before now's month (borrowing across the year
      boundary) up to and including now. */
  lemma SixMonthWindow(now: Date, cs: Option<Date>, ce: Option<Date>)
    requires Valid(now)
    ensures var w := RangeDates(LastSixMonths, now, cs, ce).value;
            w.start.day == 1 && MonthNumber(w.start) == MonthNumber(now) - 5 && w.end == now
            && forall d :: Valid(d) ==>
                 (InWindow(d, w) <==> MonthNumber(now) - 5 <= MonthNumber(d) && NotAfter(d, now))
  {
    var w := RangeDates(LastSixMonths, now, cs, ce).value;
    forall d | Valid(d)
      ensures InWindow(d, w) <==> MonthNumber(now) - 5 <= MonthNumber(d) && NotAfter(d, now)
    {
      if NotAfter(w.start, d) {
        NotAfterMonthNumber(w.start, d);
      }
      if MonthNumber(now) - 5 <= MonthNumber(d) {
        if MonthNumber(w.start) < MonthNumber(d) {
          MonthNumberOrder(w.start, d);
        } else {
          SameMonthNumber(w.start, d);
        }
      }
    }
  }

  /** The year window holds exactly the days of now's year. */
  lemma YearWindowIsCalendarYear(now: Date, cs: Option<Date>, ce: Option<Date>)
    requires Valid(now)
    ensures var w := RangeDates(Year, now, cs, ce).value;
            w == Window(Date(now.year, 1, 1), Date(now.year, 12, 31))
            && forall d :: Valid(d) ==> (InWindow(d, w) <==> d.year == now.year)
  {
  }

  /** The worked cases of the range modes. */
  lemma RangeExamples()
    ensures RangeDates(Month, Date(2024, 3, 15), None, None) == Some(Window(Date(2024, 3, 1), Date(2024, 3, 31)))
    ensures RangeDates(Month, Date(2024, 2, 10), None, None) == Some(Window(Date(2024, 2, 1), Date(2024, 2, 29)))
    ensures RangeDates(Year, Date(2024, 7, 1), None, None) == Some(Window(Date(2024, 1, 1), Date(2024, 12, 31)))
    ensures RangeDates(LastSixMonths, Date(2024, 3, 15), None, None)
            == Some(Window(Date(2023, 10, 1), Date(2024, 3, 15)))
    ensures RangeDates(Custom, Date(2024, 3, 15), None, None) == None
    ensures RangeDates(Custom, Date(2024, 3, 15), Some(Date(2024, 1, 2)), None) == None
  {
    assert IsLeapYear(2024);
    assert LastDay(2024, 1) == Date(2024, 2, 29);
  }

  // ---------------------------------------------------------------------
  // shiftRange
  // ---------------------------------------------------------------------

  function Delta(dir: Direction): int
  {
    if dir == Prev then -1 else 1
  }

  /** The window `shiftRange` moves to: the month or year window's start
      moved by one month (`setMonth`) or one year (`setFullYear`), and the
      end recomputed as that month's last day or December 31. None for the
      six-month and custom modes, which do not move. */
  function ShiftedWindow(mode: RangeMode, now: Date, dir: Direction): (w: Option<Window>)
    requires Valid(now)
    ensures w.Some? <==> mode == Month || mode == Year
  {
    if mode != Month && mode != Year then None
    else
      var start := RangeDates(mode, now, None, None).value.start;
      if mode == Month then
        var newStart := FirstDay(start.year, start.month - 1 + Delta(dir));
        Some(Window(newStart, LastDay(newStart.year, newStart.month - 1)))
      else
        var newStart := Date(start.year + Delta(dir), start.month, start.day);
        Some(Window(newStart, Date(newStart.year, 12, 31)))
  }

  /** Moving a month window gives the whole month window of the month
      before or after now's month. */
  lemma ShiftMonthIsAdjacentMonth(now: Date, dir: Direction)
    requires Valid(now)
    ensures var w := ShiftedWindow(Month, now, dir).value;
            Valid(w.start) && MonthNumber(w.start) == MonthNumber(now) + Delta(dir)
            && Some(w) == RangeDates(Month, w.start, None, None)
  {
  }

  /** Moving a year window gives the whole year window of the year before
      or after now's year. */
  lemma ShiftYearIsAdjacentYear(now: Date, dir: Direction)
    requires Valid(now)
    ensures var w := ShiftedWindow(Year, now, dir).value;
            Valid(w.start) && w.start.year == now.year + Delta(dir)
            && Some(w) == RangeDates(Year, w.start, None, None)
  {
  }

  /** Going back one unit and then forward one unit from the start of the
      window reached gives now's window again (and the other way round). */
  lemma {:induction false} ShiftRoundTrip(mode: RangeMode, now: Date, dir: Direction)
    requires Valid(now)
    requires mode == Month || mode == Year
    ensures var back := if dir == Prev then Next else Prev;
            var w := ShiftedWindow(mode, now, dir).value;
            Valid(w.start) && ShiftedWindow(mode, w.start, back) == RangeDates(mode, now, None, None)
  {
    var w := ShiftedWindow(mode, now, dir).value;
    if mode == Month {
      ShiftMonthIsAdjacentMonth(now, dir);
      var back := if dir == Prev then Next else Prev;
      var v := ShiftedWindow(Month, w.start, back).value;
      ShiftMonthIsAdjacentMonth(w.start, back);
      var u := RangeDates(Month, now, None, None).value;
      SameMonthNumber(v.start, u.start);
    } else {
      ShiftYearIsAdjacentYear(now, dir);
    }
  }

  /** The worked cases of a month shift: forward into April, back across
      the year boundary, and back into a leap February. */
  lemma ShiftIntoApril()
    ensures ShiftedWindow(Month, Date(2024, 3, 15), Next) == Some(Window(Date(2024, 4, 1), Date(2024, 4, 30)))
  {
    assert FirstDay(2024, 2) == Date(2024, 3, 1);
    assert FirstDay(2024, 3) == Date(2024, 4, 1);
    assert LastDay(2024, 3) == Date(2024, 4, 30);
  }

  lemma ShiftAcrossNewYear()
    ensures ShiftedWindow(Month, Date(2024, 1, 15), Prev) == Some(Window(Date(2023, 12, 1), Date(2023, 12, 31)))
  {
    assert FirstDay(2024, 0) == Date(2024, 1, 1);
    assert FirstDay(2024, -1) == Date(2023, 12, 1);
    assert LastDay(2023, 11) == Date(2023, 12, 31);
  }

  lemma ShiftIntoLeapFebruary()
    ensures ShiftedWindow(Month, Date(2024, 3, 15), Prev) == Some(Window(Date(2024, 2, 1), Date(2024, 2, 29)))
  {
    assert FirstDay(2024, 2) == Date(2024, 3, 1);
    assert FirstDay(2024, 1) == Date(2024, 2, 1);
    assert IsLeapYear(2024);
    assert LastDay(2024, 1) == Date(2024, 2, 29);
  }

  /** A year shift, and a shift request in a mode that does not move. */
  lemma ShiftYearExamples()
    ensures ShiftedWindow(Year, Date(2024, 7, 1), Prev) == Some(Window(Date(2023, 1, 1), Date(2023, 12, 31)))
    ensures ShiftedWindow(LastSixMonths, Date(2024, 3, 15), Next) == None
    ensures ShiftedWindow(Custom, Date(2024, 3, 15), Prev) == None
  {
  }
}
