/** The transaction-entry screen: the ledger of transactions (newest first),
    the expense and income category lists, the selected category and the
    input fields. Every handler of the screen is a method of LedgerScreen;
    the list logic it relies on is stated by the functions before it. */
module Ledger {

  import opened Opt
  import opened Dates
  import Text
  import Lists

  datatype TxType = Expense | Income

  /** A stored record. The amount is in cents, as already parsed from the
      amount field. */
  datatype Transaction = Transaction(
    id: string, amount: int, note: string, kind: TxType, category: string, date: Date)

  const DefaultExpenseCategories: seq<string> := ["食物", "交通", "房租", "娛樂", "購物", "教育"]
  const DefaultIncomeCategories: seq<string> := ["薪資", "獎金", "投資", "其他"]

  predicate NoDuplicates(list: seq<string>)
  {
    forall i, j :: 0 <= i < j < |list| ==> list[i] != list[j]
  }

  /** `list[0]`, where an empty list gives undefined, which the screen
      treats like the empty selection "". */
  function FirstOr(list: seq<string>): (c: string)
    ensures list != [] ==> c == list[0] && c in list
    ensures list == [] ==> c == ""
  {
    if list == [] then "" else list[0]
  }

  /** The list after adding the category typed in `input`: None when the
      trimmed input is blank or already in the list, else the list with the
      trimmed name appended. */
  function WithCategory(list: seq<string>, input: string): (r: Option<seq<string>>)
    ensures r.Some? <==> Text.Trim(input) != [] && Text.Trim(input) !in list
    ensures r.Some? ==> |r.value| == |list| + 1 && r.value[..|list|] == list
                        && r.value[|list|] == Text.Trim(input)
  {
    var name := Text.Trim(input);
    if name == [] || name in list then None else Some(list + [name])
  }

  /** Adding a category keeps a list free of duplicates, and the name added
      has no whitespace at either end. */
  lemma WithCategoryKeepsDistinct(list: seq<string>, input: string)
    requires NoDuplicates(list)
    requires WithCategory(list, input).Some?
    ensures NoDuplicates(WithCategory(list, input).value)
    ensures var name := WithCategory(list, input).value[|list|];
            !Text.IsSpace(name[0]) && !Text.IsSpace(name[|name| - 1])
  {
    var r := WithCategory(list, input).value;
    forall i, j | 0 <= i < j < |r| ensures r[i] != r[j] {
      if j == |list| {
        assert r[i] == list[i];
      } else {
        assert r[i] == list[i] && r[j] == list[j];
      }
    }
  }

  /** The list after deleting the selected category: None when nothing is
      selected or when every entry is the selected one (the list would be
      left empty), else the list without that name, in the same order. */
  function WithoutCategory(list: seq<string>, selected: string): (r: Option<seq<string>>)
    ensures r.None? <==> selected == "" || forall k :: 0 <= k < |list| ==> list[k] == selected
    ensures r.Some? ==> r.value != [] && selected !in r.value && Lists.IsSubsequence(r.value, list)
    ensures r.Some? ==> forall c :: c != selected ==> (c in r.value <==> c in list)
  {
    if selected == "" then None
    else
      var kept := Lists.Filter(list, (c: string) => c != selected);
      Lists.FilterKeepsMembers(list, (c: string) => c != selected);
      Lists.FilterIsSubsequence(list, (c: string) => c != selected);
      if kept == [] then
        assert forall k :: 0 <= k < |list| ==> list[k] == selected by {
          forall k | 0 <= k < |list| ensures list[k] == selected {
            assert list[k] in list;
          }
        }
        None
      else
        assert kept[0] in kept;
        Some(kept)
  }

  datatype AddOutcome = Added | BlankName | AlreadyExists
  datatype DeleteOutcome = Deleted | NothingSelected | WouldEmptyList

  class LedgerScreen {
    var amount: Option<int>          // the amount field, parsed; None while empty
    var note: string
    var kind: TxType
    var category: string
    var date: Date
    var transactions: seq<Transaction>
    var expenseCategories: seq<string>
    var incomeCategories: seq<string>
    var newCategoryInput: string

    /** The category list of the selected type. */
    function Categories(): seq<string>
      reads this
    {
      if kind == Expense then expenseCategories else incomeCategories
    }

    /** The screen after mounting. The type effect first selects the first
        default expense category; then the loads from storage finish: a
        stored ledger and stored lists replace the defaults, and a stored,
        non-empty last category replaces the selection. Each `stored…`
        parameter is None when nothing is stored under its key. */
    constructor (today: Date, storedTransactions: Option<seq<Transaction>>,
                 storedExpense: Option<seq<string>>, storedIncome: Option<seq<string>>,
                 storedLastCategory: Option<string>)
      ensures amount == None && note == "" && kind == Expense && date == today && newCategoryInput == ""
      ensures transactions == if storedTransactions.Some? then storedTransactions.value else []
      ensures expenseCategories == if storedExpense.Some? then storedExpense.value else DefaultExpenseCategories
      ensures incomeCategories == if storedIncome.Some? then storedIncome.value else DefaultIncomeCategories
      ensures category == if storedLastCategory.Some? && storedLastCategory.value != "" then storedLastCategory.value
                          else FirstOr(DefaultExpenseCategories)
      ensures storedLastCategory.None? ==> category == "食物"
    {
      amount, note, kind, date := None, "", Expense, today;
      transactions, newCategoryInput := [], "";
      expenseCategories, incomeCategories := DefaultExpenseCategories, DefaultIncomeCategories;
      category := FirstOr(DefaultExpenseCategories);
      if storedTransactions.Some? {
        transactions := storedTransactions.value;
      }
      if storedExpense.Some? {
        expenseCategories := storedExpense.value;
      }
      if storedIncome.Some? {
        incomeCategories := storedIncome.value;
      }
      if storedLastCategory.Some? && storedLastCategory.value != "" {
        category := storedLastCategory.value;
      }
    }

    /** Switching the type button; the effect on `type` then selects the
        first category of that type's list. Pressing the type already
        selected changes nothing, since the effect does not run. */
    method SelectType(t: TxType)
      modifies this
      ensures kind == t
      ensures category == if t != old(kind) then FirstOr(Categories()) else old(category)
      ensures transactions == old(transactions) && amount == old(amount) && note == old(note)
      ensures expenseCategories == old(expenseCategories) && incomeCategories == old(incomeCategories)
      ensures date == old(date) && newCategoryInput == old(newCategoryInput)
    {
      if t != kind {
        kind := t;
        category := FirstOr(Categories());
      }
    }

    /** `addTransaction`: refused while the amount field is empty; otherwise
        the new record goes in front of the list and the amount and note
        fields are cleared. */
    method AddTransaction(id: string) returns (added: bool)
      modifies this
      ensures added <==> old(amount).Some?
      ensures added ==> transactions
                        == [Transaction(id, old(amount).value, old(note), kind, category, date)]
                           + old(transactions)
      ensures added ==> amount == None && note == ""
      ensures !added ==> transactions == old(transactions) && amount == old(amount) && note == old(note)
      ensures kind == old(kind) && category == old(category) && date == old(date)
      ensures expenseCategories == old(expenseCategories) && incomeCategories == old(incomeCategories)
      ensures newCategoryInput == old(newCategoryInput)
    {
      if amount.None? {
        return false;
      }
      var record := Transaction(id, amount.value, note, kind, category, date);
      transactions := [record] + transactions;
      amount, note := None, "";
      added := true;
    }

    /** `deleteTransaction`: drops every record with that id. */
    method DeleteTransaction(id: string)
      modifies this`transactions
      ensures transactions == Lists.Filter(old(transactions), (t: Transaction) => t.id != id)
      ensures forall k :: 0 <= k < |transactions| ==> transactions[k].id != id
      ensures Lists.IsSubsequence(transactions, old(transactions))
    {
      Lists.FilterIsSubsequence(transactions, (t: Transaction) => t.id != id);
      transactions := Lists.Filter(transactions, (t: Transaction) => t.id != id);
    }

    /** `clearAll`, confirmed. */
    method ClearAll()
      modifies this`transactions
      ensures transactions == []
    {
      transactions := [];
    }

    /** Typing into the amount field; None while it is empty. */
    method TypeAmount(a: Option<int>)
      modifies this`amount
      ensures amount == a
    {
      amount := a;
    }

    /** Typing into the note field. */
    method TypeNote(n: string)
      modifies this`note
      ensures note == n
    {
      note := n;
    }

    /** Tapping a category button selects it. */
    method TapCategory(c: string)
      modifies this`category
      ensures category == c
    {
      category := c;
    }

    /** The date picker closing: a picked day becomes the record's day; a
        dismissed picker leaves it. */
    method PickDate(picked: Option<Date>)
      modifies this`date
      ensures date == if picked.Some? then picked.value else old(date)
    {
      if picked.Some? {
        date := picked.value;
      }
    }

    /** Typing into the new-category field. */
    method TypeNewCategory(input: string)
      modifies this`newCategoryInput
      ensures newCategoryInput == input
    {
      newCategoryInput := input;
    }

    /** The cancel button of the new-category row clears the field. */
    method CancelNewCategory()
      modifies this`newCategoryInput
      ensures newCategoryInput == ""
    {
      newCategoryInput := "";
    }

    /** `addNewCategory`: appends the trimmed input to the selected type's
        list and selects it; a blank input or a name already in the list
        changes nothing. */
    method AddNewCategory() returns (outcome: AddOutcome)
      modifies this
      ensures outcome == (if Text.Trim(old(newCategoryInput)) == [] then BlankName
                          else if Text.Trim(old(newCategoryInput)) in old(Categories()) then AlreadyExists
                          else Added)
      ensures outcome != Added ==> category == old(category) && newCategoryInput == old(newCategoryInput)
                                   && Categories() == old(Categories())
      ensures outcome == Added ==>
                Categories() == WithCategory(old(Categories()), old(newCategoryInput)).value
                && category == Text.Trim(old(newCategoryInput)) && newCategoryInput == ""
      ensures kind == old(kind)
      ensures kind == Expense ==> incomeCategories == old(incomeCategories)
      ensures kind == Income ==> expenseCategories == old(expenseCategories)
      ensures transactions == old(transactions) && amount == old(amount) && note == old(note)
      ensures date == old(date)
    {
      var updated := WithCategory(Categories(), newCategoryInput);
      var trimmed := Text.Trim(newCategoryInput);
      if trimmed == [] {
        return BlankName;
      }
      if updated.None? {
        return AlreadyExists;
      }
      if kind == Expense {
        expenseCategories := updated.value;
      } else {
        incomeCategories := updated.value;
      }
      category := trimmed;
      newCategoryInput := "";
      outcome := Added;
    }

    /** `deleteSelectedCategory`: removes the selected category from the
        selected type's list and selects the first one left; refused when
        nothing is selected or when the list would be left empty. */
    method DeleteSelectedCategory() returns (outcome: DeleteOutcome)
      modifies this
      ensures outcome == (if old(category) == "" then NothingSelected
                          else if WithoutCategory(old(Categories()), old(category)).None? then WouldEmptyList
                          else Deleted)
      ensures outcome != Deleted ==> Categories() == old(Categories()) && category == old(category)
      ensures outcome == Deleted ==>
                Categories() == WithoutCategory(old(Categories()), old(category)).value
                && Categories() != [] && category == Categories()[0]
      ensures kind == old(kind)
      ensures kind == Expense ==> incomeCategories == old(incomeCategories)
      ensures kind == Income ==> expenseCategories == old(expenseCategories)
      ensures transactions == old(transactions) && amount == old(amount) && note == old(note)
      ensures date == old(date) && newCategoryInput == old(newCategoryInput)
    {
      if category == "" {
        return NothingSelected;
      }
      var updated := WithoutCategory(Categories(), category);
      if updated.None? {
        return WouldEmptyList;
      }
      if kind == Expense {
        expenseCategories := updated.value;
      } else {
        incomeCategories := updated.value;
      }
      category := updated.value[0];
      outcome := Deleted;
    }
  }
}
