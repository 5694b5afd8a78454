/** The report screen: its state (the loaded ledger, the tab, the range
    mode, the picked custom days) and what it displays (the window text,
    the filtered records, the chart entries, the total). Every handler
    updates the state and then runs the summarising effect, as the screen's
    effect on `[transactions, tab, range, customStart, customEnd]` does. */
module ReportScreen {

  import opened Opt
  import opened Dates
  import opened Ledger
  import opened ReportRange
  import opened ReportSummary
  import Text

  /** The text shown while a custom window lacks one of its ends. */
  const NoRangeText: string := "請選擇起訖日期"

  predicate WindowValid(w: Window)
  {
    Valid(w.start) && Valid(w.end)
  }

  /** `${formatDate(start)} ~ ${formatDate(end)}`. */
  function WindowText(w: Window): string
    requires WindowValid(w)
  {
    FormatDate(w.start) + " ~ " + FormatDate(w.end)
  }

  lemma FormatDateHasNoTilde(d: Date)
    requires Valid(d)
    ensures '~' !in FormatDate(d)
  {
    var y := if d.year < 0 then -d.year else d.year;
    assert '~' !in Text.NatText(y);
    assert '~' !in Text.NatText(d.month) && '~' !in Text.NatText(d.day);
    assert '~' !in IntText(d.year);
  }

  /** The window text splits at its '~' back into the two date texts. */
  lemma SplitWindowText(w: Window)
    requires WindowValid(w)
    ensures Text.Split(WindowText(w), '~') == [FormatDate(w.start) + " ", " " + FormatDate(w.end)]
  {
    var xs := [FormatDate(w.start) + " ", " " + FormatDate(w.end)];
    FormatDateHasNoTilde(w.start);
    FormatDateHasNoTilde(w.end);
    assert Text.Join(xs[..1], '~') == xs[0];
    assert Text.Join(xs, '~') == WindowText(w);
    Text.SplitJoin(xs, '~');
  }

  lemma WindowTextIsNotPrompt(w: Window)
    requires WindowValid(w)
    ensures WindowText(w) != NoRangeText
  {
    var y := if w.start.year < 0 then -w.start.year else w.start.year;
    assert Text.IsDigit(Text.NatText(y)[0]);
    assert WindowText(w)[0] == '-' || Text.IsDigit(WindowText(w)[0]);
  }

  /** Distinct windows never show the same text, and no window shows the
      prompt text. */
  lemma WindowTextInjective(v: Window, w: Window)
    requires WindowValid(v) && WindowValid(w)
    ensures WindowText(v) == WindowText(w) ==> v == w
    ensures WindowText(v) != NoRangeText
  {
    WindowTextIsNotPrompt(v);
    if WindowText(v) == WindowText(w) {
      SplitWindowText(v);
      SplitWindowText(w);
      var a, b := FormatDate(v.start), FormatDate(w.start);
      var c, d := FormatDate(v.end), FormatDate(w.end);
      assert a + " " == b + " " && " " + c == " " + d;
      assert a == (a + " ")[..|a|] && b == (b + " ")[..|b|];
      assert c == (" " + c)[1..] && d == (" " + d)[1..];
      ParseFormatDate(v.start);
      ParseFormatDate(w.start);
      ParseFormatDate(v.end);
      ParseFormatDate(w.end);
    }
  }

  /** Every window a range mode produces from a real day has real days at
      both ends. */
  lemma RangeDatesValid(mode: RangeMode, now: Date, cs: Option<Date>, ce: Option<Date>)
    requires Valid(now)
    requires cs.Some? ==> Valid(cs.value)
    requires ce.Some? ==> Valid(ce.value)
    ensures RangeDates(mode, now, cs, ce).Some? ==> WindowValid(RangeDates(mode, now, cs, ce).value)
  {
  }

  /** What the screen displays: the window text, the filtered records, the
      chart entries and the total. */
  datatype Display = Display(dateRange: string, filtered: seq<Transaction>, chart: seq<ChartEntry>, total: int)

  predicate PickValid(d: Option<Date>)
  {
    d.Some? ==> Valid(d.value)
  }

  /** What the summarising effect leaves on display: the prompt and the
      previous figures while the window is unresolved, else the window's
      text and the summary of the records inside it. */
  function Refresh(txs: seq<Transaction>, tab: Tab, range: RangeMode, customStart: Option<Date>,
                   customEnd: Option<Date>, now: Date, prev: Display): (r: Display)
    requires Valid(now) && PickValid(customStart) && PickValid(customEnd)
  {
    RangeDatesValid(range, now, customStart, customEnd);
    match RangeDates(range, now, customStart, customEnd)
    case None => prev.(dateRange := NoRangeText)
    case Some(w) =>
      var s := Summarize(txs, tab, w);
      Display(WindowText(w), s.filtered, s.chart, s.total)
  }

  /** The prompt is shown exactly while a custom window lacks an end, and
      then the previous figures stay; otherwise the records shown are the
      tab's records inside the window, and on the expense and income tabs
      (amounts entered as non-negative numbers) the chart adds up to the
      total. */
  lemma RefreshMeaning(txs: seq<Transaction>, tab: Tab, range: RangeMode, cs: Option<Date>,
                       ce: Option<Date>, now: Date, prev: Display)
    requires Valid(now) && PickValid(cs) && PickValid(ce)
    ensures var r := Refresh(txs, tab, range, cs, ce, now, prev);
            (r.dateRange == NoRangeText <==> range == Custom && (cs.None? || ce.None?))
            && (r.dateRange == NoRangeText ==> r.filtered == prev.filtered && r.chart == prev.chart && r.total == prev.total)
    ensures var r := Refresh(txs, tab, range, cs, ce, now, prev);
            RangeDates(range, now, cs, ce).Some? ==>
              var w := RangeDates(range, now, cs, ce).value;
              (forall k :: 0 <= k < |r.filtered| ==> CountsFor(r.filtered[k], tab) && InWindow(r.filtered[k].date, w))
              && (tab != BalanceTab && (forall k :: 0 <= k < |txs| ==> txs[k].amount >= 0)
                  ==> r.total >= 0 && ChartTotal(r.chart) == r.total)
  {
    RefreshPrompt(txs, tab, range, cs, ce, now, prev);
    if RangeDates(range, now, cs, ce).Some? {
      RefreshFigures(txs, tab, range, cs, ce, now, prev);
    }
  }

  lemma RefreshPrompt(txs: seq<Transaction>, tab: Tab, range: RangeMode, cs: Option<Date>,
                      ce: Option<Date>, now: Date, prev: Display)
    requires Valid(now) && PickValid(cs) && PickValid(ce)
    ensures var r := Refresh(txs, tab, range, cs, ce, now, prev);
            (r.dateRange == NoRangeText <==> range == Custom && (cs.None? || ce.None?))
            && (r.dateRange == NoRangeText ==> r.filtered == prev.filtered && r.chart == prev.chart && r.total == prev.total)
  {
    RangeDatesValid(range, now, cs, ce);
    var win := RangeDates(range, now, cs, ce);
    if win.Some? {
      WindowTextIsNotPrompt(win.value);
    }
  }

  lemma RefreshFigures(txs: seq<Transaction>, tab: Tab, range: RangeMode, cs: Option<Date>,
                       ce: Option<Date>, now: Date, prev: Display)
    requires Valid(now) && PickValid(cs) && PickValid(ce)
    requires RangeDates(range, now, cs, ce).Some?
    ensures var r := Refresh(txs, tab, range, cs, ce, now, prev);
            var w := RangeDates(range, now, cs, ce).value;
            (forall k :: 0 <= k < |r.filtered| ==> CountsFor(r.filtered[k], tab) && InWindow(r.filtered[k].date, w))
            && (tab != BalanceTab && (forall k :: 0 <= k < |txs| ==> txs[k].amount >= 0)
                ==> r.total >= 0 && ChartTotal(r.chart) == r.total)
  {
    RangeDatesValid(range, now, cs, ce);
    var w := RangeDates(range, now, cs, ce).value;
    var r := Refresh(txs, tab, range, cs, ce, now, prev);
    assert r.filtered == Filtered(txs, tab, w);
    if tab != BalanceTab && (forall k :: 0 <= k < |txs| ==> txs[k].amount >= 0) {
      ChartAddsUpToTotal(txs, tab, w);
    }
  }

  /** The category map of one more record is one Accumulate step on the map
      of the records before it. */
  lemma CategoryStep(xs: seq<Transaction>, i: nat)
    requires i < |xs|
    ensures Aggregate(xs[..i + 1]) == Accumulate(Aggregate(xs[..i]), xs[i].category, Contribution(xs[i]))
  {
    var ys := xs[..i + 1];
    assert ys[..|ys| - 1] == xs[..i];
    assert ys[|ys| - 1] == xs[i];
  }

  /** The loop body on the category map,
      `if (!categoryMap[cat]) categoryMap[cat] = 0; categoryMap[cat] += amt;`,
      is one Accumulate step: a present name gets the amount added, a missing
      one is seeded with 0 first. */
  lemma SeededUpdate(m: CategoryMap, name: string, amt: int)
    requires WellFormed(m)
    ensures name in m.sums ==>
              CategoryMap(m.sums[name := m.sums[name] + amt], m.order) == Accumulate(m, name, amt)
    ensures name !in m.sums ==>
              var seeded := m.sums[name := 0];
              CategoryMap(seeded[name := seeded[name] + amt], m.order + [name]) == Accumulate(m, name, amt)
  {
    if name !in m.sums {
      assert m.sums[name := 0][name := 0 + amt] == m.sums[name := amt];
    }
  }

  /** One pass of the loop body on the total adds the record's part. */
  lemma TotalStep(tab: Tab, xs: seq<Transaction>, i: nat)
    requires i < |xs|
    ensures TotalFor(tab, xs[..i + 1]) == TotalFor(tab, xs[..i]) + TotalPart(tab, xs[i])
  {
    assert xs[..i + 1][..i] == xs[..i];
  }

  /** `if (!categoryMap[cat]) categoryMap[cat] = 0; categoryMap[cat] += amt;` */
  method AddToCategory(m: CategoryMap, name: string, amt: int) returns (r: CategoryMap)
    requires WellFormed(m)
    ensures r == Accumulate(m, name, amt)
  {
    SeededUpdate(m, name, amt);
    r := m;
    if name !in r.sums {
      r := CategoryMap(r.sums[name := 0], r.order + [name]);
    }
    r := CategoryMap(r.sums[name := r.sums[name] + amt], r.order);
  }

  /** The `forEach` over the filtered records: builds the category map and
      the running total. */
  method SummarizeRecords(filtered: seq<Transaction>, tab: Tab) returns (categories: CategoryMap, totalAmount: int)
    ensures categories == Aggregate(filtered) && totalAmount == TotalFor(tab, filtered)
  {
    categories := EmptyMap;
    totalAmount := 0;
    for i := 0 to |filtered|
      invariant categories == Aggregate(filtered[..i])
      invariant totalAmount == TotalFor(tab, filtered[..i])
    {
      var tx := filtered[i];
      var amt := Contribution(tx);
      categories := AddToCategory(categories, tx.category, amt);
      CategoryStep(filtered, i);
      if tab == BalanceTab {
        totalAmount := totalAmount + amt;
      } else {
        totalAmount := totalAmount + Abs(amt);
      }
      TotalStep(tab, filtered, i);
    }
    assert filtered[..|filtered|] == filtered;
  }

  /** The body of `filterAndSummarize` once the window is known: filter,
      run the loop, and build the chart entries. */
  method SummarizeWindow(txs: seq<Transaction>, tab: Tab, w: Window) returns (summary: Summary)
    ensures summary == Summarize(txs, tab, w)
  {
    var filtered := Filtered(txs, tab, w);
    var categories, totalAmount := SummarizeRecords(filtered, tab);
    summary := Summary(filtered, Chart(categories), totalAmount);
  }

  class ReportView {
    var transactions: seq<Transaction>
    var tab: Tab
    var range: RangeMode
    var customStart: Option<Date>
    var customEnd: Option<Date>
    var dateRange: string
    var filteredData: seq<Transaction>
    var chartData: seq<ChartEntry>
    var total: int

    /** The picked days are real days. */
    predicate PicksValid()
      reads this
    {
      PickValid(customStart) && PickValid(customEnd)
    }

    /** The window of the current state. */
    function CurrentWindow(now: Date): Option<Window>
      reads this
    {
      RangeDates(range, now, customStart, customEnd)
    }

    /** What the screen displays. */
    function Shown(): Display
      reads this
    {
      Display(dateRange, filteredData, chartData, total)
    }

    /** The screen as first rendered, before the effects have run. */
    constructor ()
      ensures transactions == [] && tab == ExpenseTab && range == Month
      ensures customStart == None && customEnd == None && dateRange == ""
      ensures filteredData == [] && chartData == [] && total == 0
    {
      transactions, tab, range := [], ExpenseTab, Month;
      customStart, customEnd, dateRange := None, None, "";
      filteredData, chartData, total := [], [], 0;
    }

    /** `filterAndSummarize`, with the day it runs on passed in as now: the
        prompt while the window is unresolved, else the window's text and
        its summary. */
    method FilterAndSummarize(now: Date)
      requires Valid(now) && PicksValid()
      modifies this`dateRange, this`filteredData, this`chartData, this`total
      ensures Shown() == Refresh(transactions, tab, range, customStart, customEnd, now, old(Shown()))
    {
      RangeDatesValid(range, now, customStart, customEnd);
      var window := RangeDates(range, now, customStart, customEnd);
      if window.None? {
        dateRange := NoRangeText;
        return;
      }
      var w := window.value;
      dateRange := WindowText(w);
      var summary := SummarizeWindow(transactions, tab, w);
      filteredData := summary.filtered;
      chartData := summary.chart;
      total := summary.total;
    }

    /** `loadTransactions` on focus: a stored ledger replaces the loaded one
        and the effect runs; with nothing stored no state changes, so the
        effect does not run and the display stays. */
    method LoadTransactions(stored: Option<seq<Transaction>>, now: Date)
      requires Valid(now) && PicksValid()
      modifies this
      ensures transactions == if stored.Some? then stored.value else old(transactions)
      ensures tab == old(tab) && range == old(range)
      ensures customStart == old(customStart) && customEnd == old(customEnd) && PicksValid()
      ensures stored.None? ==> Shown() == old(Shown())
      ensures stored.Some? ==> Shown() == Refresh(transactions, tab, range, customStart, customEnd, now, old(Shown()))
    {
      if stored.Some? {
        transactions := stored.value;
        FilterAndSummarize(now);
      }
    }

    /** Pressing a tab button. Pressing the tab already shown changes no
        state, so the effect does not run. */
    method SelectTab(t: Tab, now: Date)
      requires Valid(now) && PicksValid()
      modifies this
      ensures tab == t && transactions == old(transactions) && range == old(range)
      ensures customStart == old(customStart) && customEnd == old(customEnd) && PicksValid()
      ensures t == old(tab) ==> Shown() == old(Shown())
      ensures t != old(tab) ==> Shown() == Refresh(transactions, tab, range, customStart, customEnd, now, old(Shown()))
    {
      if t != tab {
        tab := t;
        FilterAndSummarize(now);
      }
    }

    /** Pressing a range button. Pressing the mode already selected changes
        no state, so the effect does not run. */
    method SelectRange(r: RangeMode, now: Date)
      requires Valid(now) && PicksValid()
      modifies this
      ensures range == r && transactions == old(transactions) && tab == old(tab)
      ensures customStart == old(customStart) && customEnd == old(customEnd) && PicksValid()
      ensures r == old(range) ==> Shown() == old(Shown())
      ensures r != old(range) ==> Shown() == Refresh(transactions, tab, range, customStart, customEnd, now, old(Shown()))
    {
      if r != range {
        range := r;
        FilterAndSummarize(now);
      }
    }

    /** The date picker closing: a picked day (always a new Date object, so
        a state change) becomes the custom start or end and the effect runs;
        a dismissed picker changes nothing at all. */
    method PickDate(isStart: bool, picked: Option<Date>, now: Date)
      requires Valid(now) && PicksValid()
      requires picked.Some? ==> Valid(picked.value)
      modifies this
      ensures picked.None? ==> customStart == old(customStart) && customEnd == old(customEnd)
                               && Shown() == old(Shown())
      ensures picked.Some? && isStart ==> customStart == picked && customEnd == old(customEnd)
      ensures picked.Some? && !isStart ==> customEnd == picked && customStart == old(customStart)
      ensures picked.Some? ==> Shown() == Refresh(transactions, tab, range, customStart, customEnd, now, old(Shown()))
      ensures transactions == old(transactions) && tab == old(tab) && range == old(range) && PicksValid()
    {
      if picked.Some? {
        if isStart {
          customStart := picked;
        } else {
          customEnd := picked;
        }
        FilterAndSummarize(now);
      }
    }

    /** `shiftRange`: in the month or year mode, switches to a custom window
        one month or year before or after the current one; in the other two
        modes it does nothing. */
    method ShiftRange(dir: Direction, now: Date)
      requires Valid(now) && PicksValid()
      modifies this
      ensures old(range) != Month && old(range) != Year ==>
                range == old(range) && customStart == old(customStart) && customEnd == old(customEnd)
                && dateRange == old(dateRange) && filteredData == old(filteredData)
                && chartData == old(chartData) && total == old(total)
      ensures old(range) == Month || old(range) == Year ==>
                range == Custom
                && customStart == Some(ShiftedWindow(old(range), now, dir).value.start)
                && customEnd == Some(ShiftedWindow(old(range), now, dir).value.end)
                && Shown() == Refresh(transactions, tab, range, customStart, customEnd, now, old(Shown()))
      ensures transactions == old(transactions) && tab == old(tab) && PicksValid()
    {
      if range != Month && range != Year {
        return;
      }
      var shifted := ShiftedWindow(range, now, dir).value;
      ShiftIsValid(range, now, dir);
      UseCustomWindow(shifted, now);
    }

    /** Switches to the custom mode with the given window and runs the
        effect. */
    method UseCustomWindow(w: Window, now: Date)
      requires Valid(now) && WindowValid(w)
      modifies this
      ensures range == Custom && customStart == Some(w.start) && customEnd == Some(w.end)
      ensures transactions == old(transactions) && tab == old(tab) && PicksValid()
      ensures Shown() == Refresh(transactions, tab, range, customStart, customEnd, now, old(Shown()))
    {
      range := Custom;
      customStart := Some(w.start);
      customEnd := Some(w.end);
      FilterAndSummarize(now);
    }
  }

  lemma ShiftIsValid(mode: RangeMode, now: Date, dir: Direction)
    requires Valid(now)
    requires mode == Month || mode == Year
    ensures WindowValid(ShiftedWindow(mode, now, dir).value)
  {
    if mode == Month {
      ShiftMonthIsAdjacentMonth(now, dir);
    } else {
      ShiftYearIsAdjacentYear(now, dir);
    }
  }

  /** After a shift the range mode is custom, so pressing an arrow again
      leaves the state and the display as the first press left them. */
  method ShiftTwice(view: ReportView, first: Direction, second: Direction, now: Date)
    requires Valid(now) && view.PicksValid()
    requires view.range == Month || view.range == Year
    modifies view
    ensures view.range == Custom
    ensures view.customStart == Some(ShiftedWindow(old(view.range), now, first).value.start)
    ensures view.customEnd == Some(ShiftedWindow(old(view.range), now, first).value.end)
    ensures view.transactions == old(view.transactions) && view.tab == old(view.tab)
    ensures view.Shown() == Refresh(view.transactions, view.tab, Custom, view.customStart, view.customEnd,
                                    now, old(view.Shown()))
  {
    view.ShiftRange(first, now);
    view.ShiftRange(second, now);
  }
}
