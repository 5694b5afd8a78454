/** The report's aggregation (`filterAndSummarize` after the window is
    known): the records of the tab inside the window, a per-category sum of
    signed amounts kept in first-seen order, the chart entries built from
    it, and the tab's grand total. */
module ReportSummary {

  import opened Dates
  import opened Ledger
  import opened ReportRange
  import Lists

  /** The tabs: 支出 (expense), 收入 (income), 結餘 (balance). */
  datatype Tab = ExpenseTab | IncomeTab | BalanceTab

  /** `tab === '結餘' || tx.type === tab` */
  predicate CountsFor(tx: Transaction, tab: Tab)
  {
    match tab
    case BalanceTab => true
    case ExpenseTab => tx.kind == Expense
    case IncomeTab => tx.kind == Income
  }

  /** A record is shown when its tab matches and its day lies in the window,
      both ends included. */
  predicate Selected(tx: Transaction, tab: Tab, w: Window)
  {
    CountsFor(tx, tab) && InWindow(tx.date, w)
  }

  /** The filtered list: the selected records, in ledger order. */
  function Filtered(txs: seq<Transaction>, tab: Tab, w: Window): (r: seq<Transaction>)
    ensures forall k :: 0 <= k < |r| ==> Selected(r[k], tab, w)
  {
    Lists.Filter(txs, (tx: Transaction) => Selected(tx, tab, w))
  }

  /** The filtered records are exactly the selected records of the ledger,
      each as often as it occurs there, in ledger order. */
  lemma FilteredIsSelection(txs: seq<Transaction>, tab: Tab, w: Window)
    ensures var f := Filtered(txs, tab, w);
            (forall tx :: multiset(f)[tx] == if Selected(tx, tab, w) then multiset(txs)[tx] else 0)
            && Lists.IsSubsequence(f, txs)
  {
    Lists.FilterCounts(txs, (tx: Transaction) => Selected(tx, tab, w));
    Lists.FilterIsSubsequence(txs, (tx: Transaction) => Selected(tx, tab, w));
  }

  function Abs(x: int): nat
  {
    if x < 0 then -x else x
  }

  /** The signed amount: expenses count negative, income positive. */
  function Contribution(tx: Transaction): int
  {
    if tx.kind == Expense then -tx.amount else tx.amount
  }

  // ---------------------------------------------------------------------
  // The category map
  // ---------------------------------------------------------------------

  /** `categoryMap`: a sum per category name, and the order in which the
      names were first added. */
  datatype CategoryMap = CategoryMap(sums: map<string, int>, order: seq<string>)

  predicate WellFormed(m: CategoryMap)
  {
    (forall i :: 0 <= i < |m.order| ==> m.order[i] in m.sums)
    && (forall c :: c in m.sums ==> c in m.order)
    && (forall i, j :: 0 <= i < j < |m.order| ==> m.order[i] != m.order[j])
  }

  const EmptyMap := CategoryMap(map[], [])

  /** One step of the loop: `if (!categoryMap[cat]) categoryMap[cat] = 0;
      categoryMap[cat] += amt;`. A new name goes to the end of the order. */
  function Accumulate(m: CategoryMap, name: string, amt: int): (r: CategoryMap)
    requires WellFormed(m)
    ensures WellFormed(r)
  {
    if name in m.sums then CategoryMap(m.sums[name := m.sums[name] + amt], m.order)
    else
      var r := CategoryMap(m.sums[name := amt], m.order + [name]);
      assert forall c :: c in r.sums ==> c in r.order by {
        forall c | c in r.sums ensures c in r.order {
          if c != name {
            assert c in m.order;
          }
        }
      }
      r
  }

  /** The category map after the loop has seen every record of txs. */
  function Aggregate(txs: seq<Transaction>): (m: CategoryMap)
    ensures WellFormed(m)
  {
    if txs == [] then EmptyMap
    else
      var last := txs[|txs| - 1];
      Accumulate(Aggregate(txs[..|txs| - 1]), last.category, Contribution(last))
  }

  /** Reference definitions: the sum of the signed amounts of the records of
      one category, and the index of a category's first record (|txs| when
      it has none). */
  function CategoryTotal(txs: seq<Transaction>, c: string): int
  {
    if txs == [] then 0
    else
      var last := txs[|txs| - 1];
      CategoryTotal(txs[..|txs| - 1], c) + (if last.category == c then Contribution(last) else 0)
  }

  function FirstIndex(txs: seq<Transaction>, c: string): (k: nat)
    ensures k <= |txs|
    ensures k < |txs| ==> txs[k].category == c
    ensures forall j :: 0 <= j < k ==> txs[j].category != c
  {
    if txs == [] then 0
    else if txs[0].category == c then 0
    else 1 + FirstIndex(txs[1..], c)
  }

  lemma FirstIndexOfPrefix(txs: seq<Transaction>, c: string)
    requires txs != []
    ensures var p := txs[..|txs| - 1];
            FirstIndex(txs, c) == if FirstIndex(p, c) < |p| then FirstIndex(p, c)
                                  else if txs[|txs| - 1].category == c then |p| else |txs|
  {
    var p := txs[..|txs| - 1];
    var k := FirstIndex(txs, c);
    var kp := FirstIndex(p, c);
    if kp < |p| {
      assert txs[kp] == p[kp];
      forall j | 0 <= j < kp ensures txs[j].category != c { assert txs[j] == p[j]; }
    } else {
      forall j | 0 <= j < |p| ensures txs[j].category != c { assert txs[j] == p[j]; }
    }
  }

  /** The category map holds an entry exactly for the categories that occur
      in txs. */
  lemma {:induction false} AggregateNamesOccurring(txs: seq<Transaction>)
    ensures forall c :: c in Aggregate(txs).sums <==> FirstIndex(txs, c) < |txs|
  {
    if txs != [] {
      var p := txs[..|txs| - 1];
      AggregateNamesOccurring(p);
      forall c ensures c in Aggregate(txs).sums <==> FirstIndex(txs, c) < |txs| {
        FirstIndexOfPrefix(txs, c);
      }
    }
  }

  /** Each entry is the sum of the signed amounts of that category's
      records. */
  lemma {:induction false} AggregateSums(txs: seq<Transaction>)
    ensures forall c :: c in Aggregate(txs).sums ==> Aggregate(txs).sums[c] == CategoryTotal(txs, c)
  {
    if txs != [] {
      var p := txs[..|txs| - 1];
      AggregateSums(p);
      AggregateNamesOccurring(p);
      var mp := Aggregate(p);
      var m := Aggregate(txs);
      forall c | c in m.sums ensures m.sums[c] == CategoryTotal(txs, c) {
        if c !in mp.sums {
          // a name met for the first time has no earlier record
          assert CategoryTotal(p, c) == 0 by {
            CategoryTotalAbsent(p, c);
          }
        }
      }
    }
  }

  lemma {:induction false} CategoryTotalAbsent(txs: seq<Transaction>, c: string)
    requires FirstIndex(txs, c) == |txs|
    ensures CategoryTotal(txs, c) == 0
  {
    if txs != [] {
      var p := txs[..|txs| - 1];
      FirstIndexOfPrefix(txs, c);
      CategoryTotalAbsent(p, c);
    }
  }

  /** One step of Aggregate leaves the order alone or appends the new name. */
  lemma AggregateOrderStep(txs: seq<Transaction>)
    requires txs != []
    ensures var mp := Aggregate(txs[..|txs| - 1]);
            var name := txs[|txs| - 1].category;
            Aggregate(txs).order == if name in mp.sums then mp.order else mp.order + [name]
  {
  }

  /** The entries are in the order of each category's first record. */
  lemma {:induction false} AggregateFirstSeenOrder(txs: seq<Transaction>)
    ensures var m := Aggregate(txs);
            forall i, j :: 0 <= i < j < |m.order| ==> FirstIndex(txs, m.order[i]) < FirstIndex(txs, m.order[j])
  {
    if txs != [] {
      var p := txs[..|txs| - 1];
      var name := txs[|txs| - 1].category;
      AggregateFirstSeenOrder(p);
      AggregateNamesOccurring(p);
      AggregateOrderStep(txs);
      var mp := Aggregate(p);
      var order := Aggregate(txs).order;
      forall i, j | 0 <= i < j < |order|
        ensures FirstIndex(txs, order[i]) < FirstIndex(txs, order[j])
      {
        var a, b := order[i], order[j];
        assert a == mp.order[i] && a in mp.sums;
        FirstIndexOfPrefix(txs, a);
        FirstIndexOfPrefix(txs, b);
        if j < |mp.order| {
          assert b == mp.order[j] && b in mp.sums;
          assert FirstIndex(p, a) < FirstIndex(p, b);
        } else {
          assert b == name && name !in mp.sums;
          assert FirstIndex(p, a) < |p| && FirstIndex(p, b) == |p|;
        }
      }
    }
  }

  // ---------------------------------------------------------------------
  // Totals
  // ---------------------------------------------------------------------

  /** What one record adds to `totalAmount`: its signed amount on the
      balance tab, its absolute value on the other two. */
  function TotalPart(tab: Tab, tx: Transaction): int
  {
    if tab == BalanceTab then Contribution(tx) else Abs(Contribution(tx))
  }

  /** `totalAmount` after the loop has seen every record of txs. */
  function TotalFor(tab: Tab, txs: seq<Transaction>): int
  {
    if txs == [] then 0 else TotalFor(tab, txs[..|txs| - 1]) + TotalPart(tab, txs[|txs| - 1])
  }

  /** On the expense and income tabs the total is never negative. */
  lemma {:induction false} TabTotalNonNegative(tab: Tab, txs: seq<Transaction>)
    requires tab != BalanceTab
    ensures TotalFor(tab, txs) >= 0
  {
    if txs != [] {
      TabTotalNonNegative(tab, txs[..|txs| - 1]);
    }
  }

  /** Sum of the entries named in `order`. */
  function SumOf(order: seq<string>, sums: map<string, int>): int
    requires forall i :: 0 <= i < |order| ==> order[i] in sums
  {
    if order == [] then 0 else SumOf(order[..|order| - 1], sums) + sums[order[|order| - 1]]
  }

  /** Sum of the absolute values of the entries named in `order`. */
  function SumOfMagnitudes(order: seq<string>, sums: map<string, int>): int
    requires forall i :: 0 <= i < |order| ==> order[i] in sums
  {
    if order == [] then 0 else SumOfMagnitudes(order[..|order| - 1], sums) + Abs(sums[order[|order| - 1]])
  }

  lemma {:induction false} SumOfIgnoresOthers(order: seq<string>, sums: map<string, int>, name: string, v: int)
    requires forall i :: 0 <= i < |order| ==> order[i] in sums
    requires name !in order
    ensures SumOf(order, sums[name := v]) == SumOf(order, sums)
  {
    if order != [] {
      SumOfIgnoresOthers(order[..|order| - 1], sums, name, v);
    }
  }

  lemma {:induction false} SumOfUpdate(order: seq<string>, sums: map<string, int>, name: string, amt: int)
    requires forall i :: 0 <= i < |order| ==> order[i] in sums
    requires forall i, j :: 0 <= i < j < |order| ==> order[i] != order[j]
    requires name in order
    ensures SumOf(order, sums[name := sums[name] + amt]) == SumOf(order, sums) + amt
  {
    var p := order[..|order| - 1];
    var last := order[|order| - 1];
    var sums' := sums[name := sums[name] + amt];
    if last == name {
      assert name !in p;
      SumOfIgnoresOthers(p, sums, name, sums[name] + amt);
    } else {
      assert name in p by {
        var k :| 0 <= k < |order| && order[k] == name;
        assert p[k] == name;
      }
      SumOfUpdate(p, sums, name, amt);
    }
  }

  lemma SumOfAppend(order: seq<string>, sums: map<string, int>, name: string)
    requires forall i :: 0 <= i < |order| ==> order[i] in sums
    requires name in sums
    ensures SumOf(order + [name], sums) == SumOf(order, sums) + sums[name]
  {
    assert (order + [name])[..|order|] == order;
  }

  /** One accumulation step adds its amount to the sum of all entries. */
  lemma AccumulateAddsToSum(m: CategoryMap, name: string, amt: int)
    requires WellFormed(m)
    ensures var r := Accumulate(m, name, amt);
            SumOf(r.order, r.sums) == SumOf(m.order, m.sums) + amt
  {
    var r := Accumulate(m, name, amt);
    if name in m.sums {
      assert r == CategoryMap(m.sums[name := m.sums[name] + amt], m.order);
      assert name in m.order;
      SumOfUpdate(m.order, m.sums, name, amt);
    } else {
      assert r == CategoryMap(m.sums[name := amt], m.order + [name]);
      assert name !in m.order;
      SumOfIgnoresOthers(m.order, m.sums, name, amt);
      SumOfAppend(m.order, r.sums, name);
    }
  }

  /** On the balance tab the total is the net of all category sums. */
  lemma {:induction false} BalanceTotalIsNetOfCategories(txs: seq<Transaction>)
    ensures var m := Aggregate(txs);
            TotalFor(BalanceTab, txs) == SumOf(m.order, m.sums)
  {
    if txs != [] {
      var p := txs[..|txs| - 1];
      var last := txs[|txs| - 1];
      BalanceTotalIsNetOfCategories(p);
      AccumulateAddsToSum(Aggregate(p), last.category, Contribution(last));
    }
  }

  /** Every record of txs moves money in the same direction. */
  predicate OneDirection(txs: seq<Transaction>)
  {
    (forall k :: 0 <= k < |txs| ==> Contribution(txs[k]) >= 0)
    || (forall k :: 0 <= k < |txs| ==> Contribution(txs[k]) <= 0)
  }

  lemma {:induction false} CategoryTotalSign(txs: seq<Transaction>, c: string, nonNegative: bool)
    requires forall k :: 0 <= k < |txs| ==> if nonNegative then Contribution(txs[k]) >= 0 else Contribution(txs[k]) <= 0
    ensures if nonNegative then CategoryTotal(txs, c) >= 0 else CategoryTotal(txs, c) <= 0
  {
    if txs != [] {
      var p := txs[..|txs| - 1];
      assert forall k :: 0 <= k < |p| ==> p[k] == txs[k];
      CategoryTotalSign(p, c, nonNegative);
    }
  }

  lemma {:induction false} TabTotalOfOneDirection(tab: Tab, txs: seq<Transaction>, nonNegative: bool)
    requires tab != BalanceTab
    requires forall k :: 0 <= k < |txs| ==> if nonNegative then Contribution(txs[k]) >= 0 else Contribution(txs[k]) <= 0
    ensures TotalFor(tab, txs) == if nonNegative then TotalFor(BalanceTab, txs) else -TotalFor(BalanceTab, txs)
  {
    if txs != [] {
      var p := txs[..|txs| - 1];
      assert forall k :: 0 <= k < |p| ==> p[k] == txs[k];
      TabTotalOfOneDirection(tab, p, nonNegative);
    }
  }

  lemma {:induction false} MagnitudesOfOneSign(order: seq<string>, sums: map<string, int>, nonNegative: bool)
    requires forall i :: 0 <= i < |order| ==> order[i] in sums
    requires forall i :: 0 <= i < |order| ==> if nonNegative then sums[order[i]] >= 0 else sums[order[i]] <= 0
    ensures SumOfMagnitudes(order, sums) == if nonNegative then SumOf(order, sums) else -SumOf(order, sums)
  {
    if order != [] {
      MagnitudesOfOneSign(order[..|order| - 1], sums, nonNegative);
    }
  }

  /** When every record moves money the same way, the magnitudes of the
      category sums add up to the tab total of the expense or income tab. */
  lemma CategoryMagnitudesMatchTotal(tab: Tab, txs: seq<Transaction>)
    requires tab != BalanceTab
    requires OneDirection(txs)
    ensures var m := Aggregate(txs);
            SumOfMagnitudes(m.order, m.sums) == TotalFor(tab, txs)
  {
    var m := Aggregate(txs);
    var nonNegative := forall k :: 0 <= k < |txs| ==> Contribution(txs[k]) >= 0;
    AggregateNamesOccurring(txs);
    AggregateSums(txs);
    forall i | 0 <= i < |m.order|
      ensures if nonNegative then m.sums[m.order[i]] >= 0 else m.sums[m.order[i]] <= 0
    {
      CategoryTotalSign(txs, m.order[i], nonNegative);
    }
    MagnitudesOfOneSign(m.order, m.sums, nonNegative);
    BalanceTotalIsNetOfCategories(txs);
    TabTotalOfOneDirection(tab, txs, nonNegative);
  }

  // ---------------------------------------------------------------------
  // Chart entries and the whole summary
  // ---------------------------------------------------------------------

  const ChartColors: seq<string> := ["#f85a8f", "#fbc02d", "#fb8c00", "#0097a7", "#00d2b2", "#8e24aa", "#43a047"]

  /** A pie slice: category name, absolute sum, colour. */
  datatype ChartEntry = ChartEntry(name: string, amount: nat, color: string)

  /** `Object.entries(categoryMap).map(...)`, with entries in first-seen
      order. */
  function Chart(m: CategoryMap): (r: seq<ChartEntry>)
    requires WellFormed(m)
  {
    seq(|m.order|, i requires 0 <= i < |m.order| =>
      ChartEntry(m.order[i], Abs(m.sums[m.order[i]]), ChartColors[i % |ChartColors|]))
  }

  function ChartTotal(chart: seq<ChartEntry>): int
  {
    if chart == [] then 0 else ChartTotal(chart[..|chart| - 1]) + chart[|chart| - 1].amount
  }

  lemma {:induction false} ChartTotalIsMagnitudes(m: CategoryMap, n: nat)
    requires WellFormed(m)
    requires n <= |m.order|
    ensures ChartTotal(Chart(m)[..n]) == SumOfMagnitudes(m.order[..n], m.sums)
  {
    if n > 0 {
      ChartTotalIsMagnitudes(m, n - 1);
      assert Chart(m)[..n][..n - 1] == Chart(m)[..n - 1];
      assert m.order[..n][..n - 1] == m.order[..n - 1];
    }
  }

  /** What the screen shows for a resolved window. */
  datatype Summary = Summary(filtered: seq<Transaction>, chart: seq<ChartEntry>, total: int)

  function Summarize(txs: seq<Transaction>, tab: Tab, w: Window): Summary
  {
    var f := Filtered(txs, tab, w);
    Summary(f, Chart(Aggregate(f)), TotalFor(tab, f))
  }

  /** On the expense and income tabs, with amounts entered as non-negative
      numbers, the chart amounts add up to the total, so the legend's
      percentages add up to 100. */
  lemma ChartAddsUpToTotal(txs: seq<Transaction>, tab: Tab, w: Window)
    requires tab != BalanceTab
    requires forall k :: 0 <= k < |txs| ==> txs[k].amount >= 0
    ensures var s := Summarize(txs, tab, w);
            ChartTotal(s.chart) == s.total && s.total >= 0
  {
    FilteredOneDirection(txs, tab, w);
    ChartOfOneDirection(tab, Filtered(txs, tab, w));
  }

  /** With non-negative amounts, the records of one tab all move the balance
      the same way. */
  lemma FilteredOneDirection(txs: seq<Transaction>, tab: Tab, w: Window)
    requires tab != BalanceTab
    requires forall k :: 0 <= k < |txs| ==> txs[k].amount >= 0
    ensures OneDirection(Filtered(txs, tab, w))
  {
    var f := Filtered(txs, tab, w);
    Lists.FilterKeepsMembers(txs, (tx: Transaction) => Selected(tx, tab, w));
    forall k | 0 <= k < |f| ensures f[k].amount >= 0 {
      assert f[k] in f;
    }
    if tab == IncomeTab {
      assert forall k :: 0 <= k < |f| ==> Contribution(f[k]) >= 0;
    } else {
      assert forall k :: 0 <= k < |f| ==> Contribution(f[k]) <= 0;
    }
  }

  /** For records that all move the balance one way, the chart amounts add
      up to the tab's total. */
  lemma ChartOfOneDirection(tab: Tab, f: seq<Transaction>)
    requires tab != BalanceTab && OneDirection(f)
    ensures ChartTotal(Chart(Aggregate(f))) == TotalFor(tab, f) >= 0
  {
    CategoryMagnitudesMatchTotal(tab, f);
    var m := Aggregate(f);
    ChartTotalIsMagnitudes(m, |m.order|);
    assert Chart(m)[..|m.order|] == Chart(m);
    assert m.order[..|m.order|] == m.order;
    TabTotalNonNegative(tab, f);
  }

  lemma AggregateOne(t: Transaction)
    ensures Aggregate([t]) == CategoryMap(map[t.category := Contribution(t)], [t.category])
    ensures TotalFor(ExpenseTab, [t]) == Abs(Contribution(t))
  {
    assert [t][..0] == [];
  }

  lemma AggregateTwoSameCategory(t1: Transaction, t2: Transaction)
    requires t1.category == t2.category
    ensures Aggregate([t1, t2])
            == CategoryMap(map[t1.category := Contribution(t1) + Contribution(t2)], [t1.category])
    ensures TotalFor(ExpenseTab, [t1, t2]) == Abs(Contribution(t1)) + Abs(Contribution(t2))
  {
    assert [t1, t2][..1] == [t1];
    AggregateOne(t1);
  }

  lemma ChartOne(name: string, sum: int)
    ensures var chart := Chart(CategoryMap(map[name := sum], [name]));
            chart == [ChartEntry(name, Abs(sum), ChartColors[0])] && ChartTotal(chart) == Abs(sum)
  {
    var chart := Chart(CategoryMap(map[name := sum], [name]));
    assert chart[..0] == [];
  }

  /** A negative amount breaks that: an expense of 10.00 and one of -5.00 in
      the same category give a total of 15.00 and a chart amount of 5.00. */
  lemma NegativeAmountBreaksChartTotal()
    ensures var w := Window(Date(2024, 3, 1), Date(2024, 3, 31));
            var txs := [Transaction("1", 1000, "", Expense, "Food", Date(2024, 3, 5)),
                        Transaction("2", -500, "", Expense, "Food", Date(2024, 3, 6))];
            var s := Summarize(txs, ExpenseTab, w);
            s.total == 1500 && ChartTotal(s.chart) == 500
  {
    var w := Window(Date(2024, 3, 1), Date(2024, 3, 31));
    var t1 := Transaction("1", 1000, "", Expense, "Food", Date(2024, 3, 5));
    var t2 := Transaction("2", -500, "", Expense, "Food", Date(2024, 3, 6));
    var txs := [t1, t2];
    assert Selected(t1, ExpenseTab, w) && Selected(t2, ExpenseTab, w);
    Lists.FilterAll(txs, (tx: Transaction) => Selected(tx, ExpenseTab, w));
    assert Filtered(txs, ExpenseTab, w) == txs;
    AggregateTwoSameCategory(t1, t2);
    ChartOne("Food", -500);
  }

  /** The worked case: on the expense tab the income record is left out,
      and the one expense category carries the whole total. */
  lemma SummaryExample()
    ensures var w := Window(Date(2024, 3, 1), Date(2024, 3, 31));
            var food := Transaction("1", 10000, "", Expense, "Food", Date(2024, 3, 5));
            var bonus := Transaction("2", 5000, "", Income, "Bonus", Date(2024, 3, 10));
            Summarize([food, bonus], ExpenseTab, w)
              == Summary([food], [ChartEntry("Food", 10000, ChartColors[0])], 10000)
  {
    var w := Window(Date(2024, 3, 1), Date(2024, 3, 31));
    var food := Transaction("1", 10000, "", Expense, "Food", Date(2024, 3, 5));
    var bonus := Transaction("2", 5000, "", Income, "Bonus", Date(2024, 3, 10));
    assert [food, bonus][1..] == [bonus];
    assert [bonus][1..] == [];
    var keep := (tx: Transaction) => Selected(tx, ExpenseTab, w);
    assert Lists.Filter([bonus], keep) == Lists.Filter([], keep) == [];
    assert Lists.Filter([food, bonus], keep) == [food] + Lists.Filter([bonus], keep);
    assert Filtered([food, bonus], ExpenseTab, w) == [food];
    AggregateOne(food);
    ChartOne("Food", -10000);
  }
}
