/** The account overview: the stored accounts, the account being edited,
    the form, and the display currency. Balances and credit limits are whole
    cents; the currency rates are exact decimals. Sorting, the total and the
    CSV export text are values derived from the accounts. */
module Accounts {

  import opened Opt
  import Text
  import Lists

  datatype Account = Account(
    id: string, name: string, balance: int, creditLimit: Option<int>, icon: string, currency: string)

  /** The add/edit form; an empty balance or credit-limit field is None. */
  datatype Form = Form(name: string, balance: Option<int>, creditLimit: Option<int>, icon: string, currency: string)

  const Icons: seq<string> := ["cash", "credit-card", "bank", "wallet"]
  const CurrencySymbols: seq<string> := ["NT$", "USD$", "JPY¥"]
  const CurrencyRates: seq<real> := [1.0, 0.033, 3.65]

  /** `resetForm`. */
  const EmptyForm: Form := Form("", None, None, Icons[0], CurrencySymbols[0])

  // ---------------------------------------------------------------------
  // saveAccount
  // ---------------------------------------------------------------------

  /** `newAcc`: the edited account's id when it has a non-empty one, else
      the fresh id. */
  function NewAccount(form: Form, edit: Option<Account>, freshId: string): (a: Account)
    requires form.balance.Some?
    ensures a.id == if edit.Some? && edit.value.id != "" then edit.value.id else freshId
    ensures a.name == form.name && a.balance == form.balance.value && a.creditLimit == form.creditLimit
    ensures a.icon == form.icon && a.currency == form.currency
  {
    var id := if edit.Some? && edit.value.id != "" then edit.value.id else freshId;
    Account(id, form.name, form.balance.value, form.creditLimit, form.icon, form.currency)
  }

  /** `accounts.map(acc => acc.id === id ? newAcc : acc)`. */
  function Replaced(accounts: seq<Account>, id: string, newAcc: Account): (r: seq<Account>)
    ensures |r| == |accounts|
    ensures forall k :: 0 <= k < |r| ==> r[k] == if accounts[k].id == id then newAcc else accounts[k]
  {
    seq(|accounts|, k requires 0 <= k < |accounts| => if accounts[k].id == id then newAcc else accounts[k])
  }

  /** Editing an account with a non-empty id keeps every account's id and
      position, and changes only the accounts carrying that id. */
  lemma EditKeepsIdsAndPositions(accounts: seq<Account>, form: Form, edited: Account, freshId: string)
    requires form.balance.Some? && edited.id != ""
    ensures var r := Replaced(accounts, edited.id, NewAccount(form, Some(edited), freshId));
            |r| == |accounts|
            && (forall k :: 0 <= k < |r| ==> r[k].id == accounts[k].id)
            && (forall k :: 0 <= k < |r| && accounts[k].id != edited.id ==> r[k] == accounts[k])
            && (forall k :: 0 <= k < |r| && accounts[k].id == edited.id ==>
                  r[k].name == form.name && r[k].balance == form.balance.value)
  {
  }

  /** Deleting the account just added with an id no other account has gives
      back the list from before the add. */
  lemma DeleteUndoesAdd(accounts: seq<Account>, added: Account)
    requires forall k :: 0 <= k < |accounts| ==> accounts[k].id != added.id
    ensures Lists.Filter(accounts + [added], (a: Account) => a.id != added.id) == accounts
  {
    Lists.FilterDropsLast(accounts, added, (a: Account) => a.id != added.id);
  }

  // ---------------------------------------------------------------------
  // sortedAccounts
  // ---------------------------------------------------------------------

  predicate NonIncreasing(s: seq<Account>)
  {
    forall i, j :: 0 <= i < j < |s| ==> s[i].balance >= s[j].balance
  }

  /** Every account of a list sorted by balance has a balance no larger
      than the first one's. */
  lemma HeadIsLargest(s: seq<Account>)
    requires NonIncreasing(s) && s != []
    ensures forall x :: x in s ==> x.balance <= s[0].balance
  {
    forall x | x in s ensures x.balance <= s[0].balance {
      var j :| 0 <= j < |s| && s[j] == x;
    }
  }

  /** Puts a in front of the first account whose balance is not above its
      own, which keeps a ahead of the accounts with its balance. */
  function InsertByBalance(a: Account, s: seq<Account>): (r: seq<Account>)
    requires NonIncreasing(s)
    ensures NonIncreasing(r)
    ensures forall x :: x in r ==> x == a || x in s
    ensures multiset(r) == multiset(s) + multiset{a}
    ensures |r| == |s| + 1
  {
    if s == [] || s[0].balance <= a.balance then
      HeadIsLargestOrEmpty(s);
      SortedCons(a, s);
      [a] + s
    else
      var rest := InsertByBalance(a, s[1..]);
      HeadIsLargest(s);
      assert s == [s[0]] + s[1..];
      assert forall x :: x in rest ==> x.balance <= s[0].balance;
      SortedCons(s[0], rest);
      [s[0]] + rest
  }

  lemma HeadIsLargestOrEmpty(s: seq<Account>)
    requires NonIncreasing(s)
    ensures s != [] ==> forall x :: x in s ==> x.balance <= s[0].balance
  {
    if s != [] {
      HeadIsLargest(s);
    }
  }

  lemma SortedCons(h: Account, rest: seq<Account>)
    requires NonIncreasing(rest)
    requires forall x :: x in rest ==> x.balance <= h.balance
    ensures NonIncreasing([h] + rest)
  {
    var r := [h] + rest;
    forall i, j | 0 <= i < j < |r| ensures r[i].balance >= r[j].balance {
      assert r[j] == rest[j - 1];
      if i > 0 {
        assert r[i] == rest[i - 1];
      }
    }
  }

  /** `[...accounts].sort((a, b) => b.balance - a.balance)`: a copy in
      non-increasing balance order; JavaScript's sort is stable. */
  function SortByBalance(xs: seq<Account>): (r: seq<Account>)
    ensures NonIncreasing(r)
    ensures multiset(r) == multiset(xs)
    ensures |r| == |xs|
  {
    if xs == [] then []
    else
      assert xs == [xs[0]] + xs[1..];
      InsertByBalance(xs[0], SortByBalance(xs[1..]))
  }

  /** The accounts with balance v, in list order. */
  function WithBalance(xs: seq<Account>, v: int): seq<Account>
  {
    if xs == [] then [] else (if xs[0].balance == v then [xs[0]] else []) + WithBalance(xs[1..], v)
  }

  lemma {:induction false} InsertWithBalance(a: Account, s: seq<Account>, v: int)
    requires NonIncreasing(s)
    ensures WithBalance(InsertByBalance(a, s), v) == (if a.balance == v then [a] else []) + WithBalance(s, v)
  {
    var r := InsertByBalance(a, s);
    if s == [] || s[0].balance <= a.balance {
      assert r == [a] + s;
      assert r[1..] == s;
    } else {
      var rest := InsertByBalance(a, s[1..]);
      InsertWithBalance(a, s[1..], v);
      assert r == [s[0]] + rest;
      assert r[1..] == rest;
      assert WithBalance(r, v) == (if s[0].balance == v then [s[0]] else []) + WithBalance(rest, v);
      assert WithBalance(s, v) == (if s[0].balance == v then [s[0]] else []) + WithBalance(s[1..], v);
    }
  }

  /** The sort is stable: the accounts of any one balance keep their order. */
  lemma {:induction false} SortIsStable(xs: seq<Account>, v: int)
    ensures WithBalance(SortByBalance(xs), v) == WithBalance(xs, v)
  {
    if xs != [] {
      SortIsStable(xs[1..], v);
      InsertWithBalance(xs[0], SortByBalance(xs[1..]), v);
    }
  }

  // ---------------------------------------------------------------------
  // totalBalance
  // ---------------------------------------------------------------------

  /** `accounts.reduce((sum, acc) => sum + acc.balance * rate, 0)`, in cents. */
  function TotalBalance(accounts: seq<Account>, rate: real): real
  {
    if accounts == [] then 0.0
    else TotalBalance(accounts[..|accounts| - 1], rate) + (accounts[|accounts| - 1].balance as real) * rate
  }

  function SumOfBalances(accounts: seq<Account>): int
  {
    if accounts == [] then 0
    else SumOfBalances(accounts[..|accounts| - 1]) + accounts[|accounts| - 1].balance
  }

  /** The total in a currency is the sum of balances times its rate; in NT$
      it is the plain sum. */
  lemma {:induction false} TotalIsRateTimesSum(accounts: seq<Account>, index: nat)
    requires index < |CurrencyRates|
    ensures TotalBalance(accounts, CurrencyRates[index]) == CurrencyRates[index] * (SumOfBalances(accounts) as real)
    ensures index == 0 ==> TotalBalance(accounts, CurrencyRates[index]) == SumOfBalances(accounts) as real
  {
    if accounts != [] {
      TotalIsRateTimesSum(accounts[..|accounts| - 1], index);
    }
  }

  /** The total does not depend on the order of the accounts, so the sorted
      list has the same total. */
  lemma {:induction false} SumOfBalancesOfMultiset(xs: seq<Account>, ys: seq<Account>)
    requires multiset(xs) == multiset(ys)
    ensures SumOfBalances(xs) == SumOfBalances(ys)
    decreases |xs|
  {
    if xs != [] {
      var last := xs[|xs| - 1];
      assert last in multiset(ys);
      var k :| 0 <= k < |ys| && ys[k] == last;
      var ys' := ys[..k] + ys[k + 1..];
      assert ys == ys[..k] + [last] + ys[k + 1..];
      assert xs == xs[..|xs| - 1] + [last];
      assert multiset(ys) == multiset(ys[..k]) + multiset{last} + multiset(ys[k + 1..]);
      assert multiset(xs) == multiset(xs[..|xs| - 1]) + multiset{last};
      assert multiset(ys') == multiset(ys[..k]) + multiset(ys[k + 1..]);
      forall m ensures multiset(xs[..|xs| - 1])[m] == multiset(ys')[m] {
        assert (multiset(xs[..|xs| - 1]) + multiset{last})[m] == (multiset(ys') + multiset{last})[m];
      }
      assert multiset(xs[..|xs| - 1]) == multiset(ys');
      SumOfBalancesOfMultiset(xs[..|xs| - 1], ys');
      SumWithout(ys, k);
    }
  }

  lemma {:induction false} SumWithout(ys: seq<Account>, k: nat)
    requires k < |ys|
    ensures SumOfBalances(ys) == SumOfBalances(ys[..k] + ys[k + 1..]) + ys[k].balance
    decreases |ys|
  {
    var n := |ys|;
    if k < n - 1 {
      var p := ys[..n - 1];
      SumWithout(p, k);
      assert (ys[..k] + ys[k + 1..])[..n - 2] == p[..k] + p[k + 1..];
      assert (ys[..k] + ys[k + 1..])[n - 2] == ys[n - 1];
    } else {
      assert ys[..k] + ys[k + 1..] == ys[..n - 1];
    }
  }

  lemma SortedTotal(accounts: seq<Account>, rate: real)
    ensures TotalBalance(SortByBalance(accounts), rate) == TotalBalance(accounts, rate)
  {
    var sorted := SortByBalance(accounts);
    SumOfBalancesOfMultiset(sorted, accounts);
    SameSumSameTotal(sorted, accounts, rate);
  }

  lemma SameSumSameTotal(xs: seq<Account>, ys: seq<Account>, rate: real)
    requires SumOfBalances(xs) == SumOfBalances(ys)
    ensures TotalBalance(xs, rate) == TotalBalance(ys, rate)
  {
    TotalAsProduct(xs, rate);
    TotalAsProduct(ys, rate);
  }

  lemma {:induction false} TotalAsProduct(accounts: seq<Account>, rate: real)
    ensures TotalBalance(accounts, rate) == rate * (SumOfBalances(accounts) as real)
  {
    if accounts != [] {
      TotalAsProduct(accounts[..|accounts| - 1], rate);
    }
  }

  // ---------------------------------------------------------------------
  // The currency toggle
  // ---------------------------------------------------------------------

  function NextCurrency(i: nat): (j: nat)
    ensures j < |CurrencyRates|
  {
    (i + 1) % |CurrencyRates|
  }

  /** The toggle walks through all three currencies and is back after three
      presses. */
  lemma CurrencyCycle(i: nat)
    requires i < |CurrencyRates|
    ensures NextCurrency(NextCurrency(NextCurrency(i))) == i
    ensures {i, NextCurrency(i), NextCurrency(NextCurrency(i))} == {0, 1, 2}
  {
  }

  // ---------------------------------------------------------------------
  // exportCSV
  // ---------------------------------------------------------------------

  const CsvHeader: string := "名稱,餘額,信用額度,圖示,幣別\n"

  /** `acc.creditLimit || ''`: nothing for an absent or zero limit. */
  function LimitText(limit: Option<int>): string
  {
    if limit.None? || limit.value == 0 then "" else Text.CentsText(limit.value)
  }

  function CsvFields(a: Account): seq<string>
  {
    [a.name, Text.CentsText(a.balance), LimitText(a.creditLimit), a.icon, a.currency]
  }

  /** One CSV row: the five fields joined by commas, nothing quoted. */
  function CsvRow(a: Account): string
  {
    Text.Join(CsvFields(a), ',')
  }

  /** The export text: the header line, then one row per account in stored
      order. */
  function CsvText(accounts: seq<Account>): (r: string)
    ensures |CsvHeader| <= |r| && r[..|CsvHeader|] == CsvHeader
  {
    CsvHeader + Text.Join(seq(|accounts|, k requires 0 <= k < |accounts| => CsvRow(accounts[k])), '\n')
  }

  /** With no accounts the export is the header line alone. */
  lemma EmptyExport()
    ensures CsvText([]) == CsvHeader
  {
    assert Text.Join([], '\n') == "";
  }

  predicate PlainField(s: string)
  {
    ',' !in s && '\n' !in s
  }

  /** What a reader gets back from a row: the account's fields, with the
      limit read as None when empty. */
  function ReadRow(row: string): Option<(string, int, Option<int>, string, string)>
  {
    var f := Text.Split(row, ',');
    if |f| != 5 then None
    else match Text.ParseCents(f[1])
      case None => None
      case Some(balance) =>
        if f[2] == "" then Some((f[0], balance, None, f[3], f[4]))
        else match Text.ParseCents(f[2])
          case None => None
          case Some(limit) => Some((f[0], balance, Some(limit), f[3], f[4]))
  }

  lemma CentsTextIsPlain(c: int)
    ensures PlainField(Text.CentsText(c))
  {
    Text.CentsTextChars(c);
  }

  /** Each row reads back as its account, as long as the name, icon and
      currency hold no comma or line break; a zero limit reads back as
      absent. */
  lemma ReadCsvRow(a: Account)
    requires PlainField(a.name) && PlainField(a.icon) && PlainField(a.currency)
    ensures ReadRow(CsvRow(a)) == Some((a.name, a.balance,
                                        if a.creditLimit == Some(0) then None else a.creditLimit,
                                        a.icon, a.currency))
  {
    var f := CsvFields(a);
    CentsTextIsPlain(a.balance);
    if a.creditLimit.Some? {
      CentsTextIsPlain(a.creditLimit.value);
      Text.ParseCentsText(a.creditLimit.value);
    }
    Text.SplitJoin(f, ',');
    Text.ParseCentsText(a.balance);
  }

  /** The rows of the export text are the accounts' rows, one line each. */
  lemma CsvLines(accounts: seq<Account>)
    requires accounts != []
    requires forall k :: 0 <= k < |accounts| ==>
               PlainField(accounts[k].name) && PlainField(accounts[k].icon) && PlainField(accounts[k].currency)
    ensures var text := CsvText(accounts);
            var lines := Text.Split(text[|CsvHeader|..], '\n');
            |lines| == |accounts| && forall k :: 0 <= k < |lines| ==> lines[k] == CsvRow(accounts[k])
  {
    var rows := seq(|accounts|, k requires 0 <= k < |accounts| => CsvRow(accounts[k]));
    forall k | 0 <= k < |rows| ensures '\n' !in rows[k] {
      var a := accounts[k];
      CentsTextIsPlain(a.balance);
      if a.creditLimit.Some? {
        CentsTextIsPlain(a.creditLimit.value);
      }
      JoinHasNoOther(CsvFields(a), ',', '\n');
    }
    Text.SplitJoin(rows, '\n');
    assert CsvText(accounts)[|CsvHeader|..] == Text.Join(rows, '\n');
  }

  lemma {:induction false} JoinHasNoOther(xs: seq<string>, sep: char, c: char)
    requires c != sep
    requires forall k :: 0 <= k < |xs| ==> c !in xs[k]
    ensures c !in Text.Join(xs, sep)
  {
    if |xs| > 1 {
      JoinHasNoOther(xs[1..], sep, c);
    }
  }

  /** A comma in a name is not quoted, so it splits the name into two
      fields: the row has six fields and no longer reads back. */
  lemma CommaInNameBreaksRow(a: Account, x: string, y: string)
    requires a.name == x + "," + y
    requires PlainField(x) && PlainField(y) && PlainField(a.icon) && PlainField(a.currency)
    ensures |Text.Split(CsvRow(a), ',')| == 6
    ensures ReadRow(CsvRow(a)) == None
  {
    var fields := CsvFields(a);
    var rest := fields[1..];
    var pieces := [x, y] + rest;
    assert pieces[1..] == [y] + rest;
    assert pieces[1..][1..] == rest;
    assert Text.Join(pieces[1..], ',') == y + [','] + Text.Join(rest, ',');
    assert Text.Join(pieces, ',') == x + [','] + Text.Join(pieces[1..], ',');
    assert CsvRow(a) == a.name + [','] + Text.Join(rest, ',');
    assert CsvRow(a) == Text.Join(pieces, ',');
    CentsTextIsPlain(a.balance);
    if a.creditLimit.Some? {
      CentsTextIsPlain(a.creditLimit.value);
    }
    Text.SplitJoin(pieces, ',');
  }

  // ---------------------------------------------------------------------
  // The screen
  // ---------------------------------------------------------------------

  class AccountOverview {
    var accounts: seq<Account>
    var currencyIndex: nat
    var editAccount: Option<Account>
    var form: Form

    predicate Valid()
      reads this
    {
      currencyIndex < |CurrencyRates|
    }

    /** The screen after mounting; `stored` is the list in storage. */
    constructor (stored: Option<seq<Account>>)
      ensures Valid() && currencyIndex == 0 && editAccount == None && form == EmptyForm
      ensures accounts == if stored.Some? then stored.value else []
    {
      accounts := if stored.Some? then stored.value else [];
      currencyIndex, editAccount, form := 0, None, EmptyForm;
    }

    /** The accounts as listed: sorted by balance, largest first. */
    function Listed(): seq<Account>
      reads this
    {
      SortByBalance(accounts)
    }

    /** `totalBalance` in the selected currency, in cents. */
    function Total(): real
      requires Valid()
      reads this
    {
      TotalBalance(accounts, CurrencyRates[currencyIndex])
    }

    /** `openAddModal`: no account is being edited and the form is reset. */
    method OpenAdd()
      modifies this`editAccount, this`form
      ensures editAccount == None && form == EmptyForm
    {
      editAccount := None;
      form := EmptyForm;
    }

    /** The edit button of the detail view: the selected account becomes the
        one being edited; the form keeps whatever it held. */
    method OpenEdit(selected: Account)
      modifies this`editAccount
      ensures editAccount == Some(selected)
    {
      editAccount := Some(selected);
    }

    /** Typing into the form. */
    method FillForm(f: Form)
      modifies this`form
      ensures form == f
    {
      form := f;
    }

    /** `saveAccount`: refused with an empty name or balance; otherwise the
        account built from the form replaces the edited account's entries,
        or is appended when nothing is being edited. */
    method SaveAccount(freshId: string) returns (saved: bool)
      modifies this`accounts
      ensures saved <==> form.name != "" && form.balance.Some?
      ensures !saved ==> accounts == old(accounts)
      ensures saved && editAccount.None? ==> accounts == old(accounts) + [NewAccount(form, None, freshId)]
      ensures saved && editAccount.Some? ==>
                accounts == Replaced(old(accounts), editAccount.value.id, NewAccount(form, editAccount, freshId))
    {
      if form.name == "" || form.balance.None? {
        return false;
      }
      var newAcc := NewAccount(form, editAccount, freshId);
      if editAccount.Some? {
        accounts := Replaced(accounts, editAccount.value.id, newAcc);
      } else {
        accounts := accounts + [newAcc];
      }
      saved := true;
    }

    /** `deleteAccount`, confirmed: drops every account with that id. */
    method DeleteAccount(id: string)
      modifies this`accounts
      ensures accounts == Lists.Filter(old(accounts), (a: Account) => a.id != id)
      ensures forall k :: 0 <= k < |accounts| ==> accounts[k].id != id
      ensures Lists.IsSubsequence(accounts, old(accounts))
    {
      Lists.FilterIsSubsequence(accounts, (a: Account) => a.id != id);
      accounts := Lists.Filter(accounts, (a: Account) => a.id != id);
    }

    /** The currency button: the next of the three currencies. */
    method ToggleCurrency()
      requires Valid()
      modifies this`currencyIndex
      ensures Valid() && currencyIndex == NextCurrency(old(currencyIndex))
    {
      currencyIndex := (currencyIndex + 1) % |CurrencyRates|;
    }
  }
}
