# BudgetApp screen logic in Dafny

This project models the state handling and calculations inside BudgetApp's screens. BudgetApp is a React Native budgeting app; the modelled screens are the report, transaction entry, expense splitting, groups, and account overview.

Each screen's React state becomes a Dafny `class`. Its fields are the state variables, and each handler is a method that states the screen's whole new state. Derived values and the list logic behind the handlers are functions, with lemmas about what they mean.

- **Ledger** (`ledger.dfy`) — the transaction-entry screen. It covers:
  - the transaction list, newest first;
  - the expense and income category lists;
  - the selected category;
  - the input fields.

  Adding a transaction is refused while the amount field is empty. Adding a category trims the name and refuses blanks and duplicates. Deleting the selected category never leaves a list empty and then selects the first category left. Switching the type selects that type's first category.
- **Report** — three files:
  - `report_range.dfy` turns a range mode (month, last six months, year, custom) and the current day into an inclusive window of days, with Gregorian month lengths and leap years. It also moves a month or year window by one unit.
  - `report_summary.dfy` filters the ledger by tab and window. It builds a per-category sum of signed amounts, kept in the order each category is first seen, plus the chart entries and the tab's total.
  - `report_screen.dfy` is the screen itself. Every state change is followed by the summarising effect. The `forEach` loop is a method proved against the aggregation functions.
- **Split** (`split.dfy`) — the member list (add, remove, toggle selected), the even split over the selected members printed as `toFixed(0)` of the share, and the history of splits.
- **Groups** (`groups.dfy`) — creating a group with a code drawn from the base-36 text of a random number, joining by a trimmed, upper-cased code (a lookup that never changes the list), and deleting groups.
- **Accounts** (`accounts.dfy`) — the account list and what is derived from it:
  - adding or editing accounts by id, and deleting them;
  - the list sorted by balance, largest first (a stable permutation);
  - the total in the selected currency, and the three-way currency toggle;
  - the CSV export text.
- **Shared modules:**
  - `dates.dfy`: calendar days, JavaScript's month carrying, and `formatDate`;
  - `text.dfy`: `trim`, ASCII `toUpperCase`, number text, `join`/`split`;
  - `lists.dfy`: `filter` and its properties;
  - `option.dfy`: Option.

**Parameters and units:**
- Money is whole cents.
- An input field that the code parses is `Option<int>`, with None for the empty field.
- The current day, `Date.now()` ids, the digits of `Math.random()`, and the `toLocaleString` stamp are passed in as parameters.
- Values found in storage are constructor parameters: None means nothing is stored.

**Behaviours stated as lemmas:**
- `Accounts.CommaInNameBreaksRow`: CSV fields are not quoted, so an account name holding a comma gives a row with six fields, and that row does not read back.
- `ReportSummary.NegativeAmountBreaksChartTotal`: a negative amount on the expense tab makes the chart amounts and the total disagree.
- `Split.ShareNegativeZero`: a small negative share prints as "-0".

## Model

| member | source | states |
|---|---|---|
| Dates.DaysInMonth | screens/ReportScreen.js:59 | month lengths: 29 days in February exactly in leap years, 30 in April, June, September and November, 31 otherwise |
| Dates.FirstDay | screens/ReportScreen.js:58-61 | `new Date(y, m, 1)` for any month offset is a real day, day 1, of the month numbered 12·y+m, carrying into other years |
| Dates.LastDay | screens/ReportScreen.js:59 | `new Date(y, m + 1, 0)` is the last real day of month m of year y, carrying into other years |
| Dates.NotAfterTotalOrder | screens/ReportScreen.js:85 | day comparison is a total order, as the window test needs |
| Dates.LeapDay | screens/ReportScreen.js:59 | February 29 exists exactly in leap years, and February's last day follows |
| Dates.CarryExamples | screens/ReportScreen.js:58-61 | month offsets below 0 and above 11 land in the previous and next year; 1900 is not a leap year and 2000 is |
| Dates.ParseIntText | screens/ReportScreen.js:50 | the year text reads back as the year and holds no '/' |
| Dates.Pad | screens/ReportScreen.js:51 | `pad`: a leading '0' below ten; ParsePad proves its text reads back as the number and holds no '/' |
| Dates.FormatDate | screens/ReportScreen.js:50-51 | `formatDate`: year, two-digit month and two-digit day joined by '/'; ParseFormatDate proves the text reads back as the same day |
| Dates.ParsePad | screens/ReportScreen.js:51 | `pad`'s text for month and day reads back as the number and holds no '/' |
| Dates.ParseFormatDate | screens/ReportScreen.js:50-51 | `formatDate` text reads back as the same day, so distinct days print differently |
| ReportRange.RangeDates | screens/ReportScreen.js:53-72 | every mode except custom gives a window; custom gives one exactly when both days are picked, and it is exactly those days |
| ReportRange.MonthWindowIsCalendarMonth | screens/ReportScreen.js:57-59 | the month window runs from day 1 to the month's last day and holds a real day exactly when it is in now's month |
| ReportRange.SixMonthWindow | screens/ReportScreen.js:60-62 | the six-month window starts on day 1 of the month five months back, across years, and ends at now; a day is in it exactly when its month is at most five months back and it is not after now |
| ReportRange.YearWindowIsCalendarYear | screens/ReportScreen.js:63-65 | the year window is January 1 to December 31 of now's year and holds exactly that year's days |
| ReportRange.RangeExamples | screens/ReportScreen.js:53-72 | worked windows: March, a leap February, a year, six months across New Year, and custom with a day missing |
| ReportRange.ShiftedWindow | screens/ReportScreen.js:117-130 | a window to move to exists exactly in the month and year modes |
| ReportRange.ShiftMonthIsAdjacentMonth | screens/ReportScreen.js:124-129 | the moved month window is the whole month window of the month before or after now's |
| ReportRange.ShiftYearIsAdjacentYear | screens/ReportScreen.js:124-130 | the moved year window is the whole year window of the year before or after now's |
| ReportRange.ShiftRoundTrip | screens/ReportScreen.js:121-130 | moving back from the window reached gives now's window again |
| ReportRange.ShiftIntoApril | screens/ReportScreen.js:125-129 | from March 2024, forward is April 1–30 |
| ReportRange.ShiftAcrossNewYear | screens/ReportScreen.js:125-129 | from January 2024, back is December 2023 |
| ReportRange.ShiftIntoLeapFebruary | screens/ReportScreen.js:125-129 | from March 2024, back is February 1–29 |
| ReportRange.ShiftYearExamples | screens/ReportScreen.js:118-130 | back from 2024 is all of 2023; the six-month and custom modes do not move |
| ReportSummary.CountsFor | screens/ReportScreen.js:85 | the tab test: every record on the balance tab, else the records of the tab's type; FilteredIsSelection gives its effect on the filtered list |
| ReportSummary.Selected | screens/ReportScreen.js:84-85 | the tab test and the inclusive window test together; FilteredIsSelection proves the filter keeps exactly these records |
| ReportSummary.Filtered | screens/ReportScreen.js:83-86 | every record kept is of the tab (any type on the balance tab) and inside the window, both ends included |
| ReportSummary.FilteredIsSelection | screens/ReportScreen.js:83-86 | the filtered list keeps every selected record as often as it occurs, drops the rest, and keeps ledger order |
| ReportSummary.Contribution | screens/ReportScreen.js:92 | the signed amount, expenses negated; AccumulateAddsToSum and AggregateSums prove the category sums are sums of it |
| ReportSummary.Accumulate | screens/ReportScreen.js:94-95 | one loop step keeps the category map well formed: every name listed once, in order, with a sum |
| ReportSummary.Aggregate | screens/ReportScreen.js:91-96 | the category map after the loop is well formed |
| ReportSummary.AggregateNamesOccurring | screens/ReportScreen.js:91-95 | the map has an entry exactly for the categories that occur among the records |
| ReportSummary.AggregateSums | screens/ReportScreen.js:92-95 | each entry is the sum of its category's signed amounts, expenses negated |
| ReportSummary.AggregateFirstSeenOrder | screens/ReportScreen.js:94-104 | entries come in the order of each category's first record |
| ReportSummary.TotalFor | screens/ReportScreen.js:97-101 | `totalAmount` after the loop; TabTotalNonNegative and BalanceTotalIsNetOfCategories give its value, and SummarizeRecords proves the loop computes it |
| ReportSummary.TabTotalNonNegative | screens/ReportScreen.js:99-101 | on the expense and income tabs the total is never negative |
| ReportSummary.AccumulateAddsToSum | screens/ReportScreen.js:94-95 | one loop step adds its amount to the sum of all entries |
| ReportSummary.BalanceTotalIsNetOfCategories | screens/ReportScreen.js:97-98 | on the balance tab the total is the net of all category sums |
| ReportSummary.CategoryMagnitudesMatchTotal | screens/ReportScreen.js:99-106 | when every record moves money the same way, the category magnitudes add up to the tab total |
| ReportSummary.Chart | screens/ReportScreen.js:104-110 | one slice per category in first-seen order, with the magnitude of its sum and a cycling colour; ChartTotalIsMagnitudes proves the slices add up to the sum of the magnitudes |
| ReportSummary.ChartTotalIsMagnitudes | screens/ReportScreen.js:104-110 | the chart amounts are the absolute category sums, so the chart adds up to the sum of the magnitudes |
| ReportSummary.Summarize | screens/ReportScreen.js:83-114 | the filtered list, the chart and the total of one window; ChartAddsUpToTotal proves the chart adds up to the total on the expense and income tabs, and SummarizeWindow that the screen's loop computes it |
| ReportSummary.ChartAddsUpToTotal | screens/ReportScreen.js:83-110 | on the expense and income tabs, with non-negative amounts, the chart amounts add up to the total, which is at least 0 |
| ReportSummary.FilteredOneDirection | screens/ReportScreen.js:85-92 | with non-negative amounts, the records of one tab all move the balance the same way |
| ReportSummary.ChartOfOneDirection | screens/ReportScreen.js:97-110 | for such records, the chart total equals the tab total |
| ReportSummary.AggregateOne | screens/ReportScreen.js:91-101 | one record gives one entry with its signed amount, and its magnitude as the expense total |
| ReportSummary.AggregateTwoSameCategory | screens/ReportScreen.js:91-101 | two records of one category merge into one entry |
| ReportSummary.ChartOne | screens/ReportScreen.js:104-110 | a single entry charts as its magnitude with the first colour |
| ReportSummary.NegativeAmountBreaksChartTotal | screens/ReportScreen.js:99-110 | expenses of 10.00 and −5.00 in one category chart as 5.00 while the total is 15.00 |
| ReportSummary.SummaryExample | screens/ReportScreen.js:83-114 | worked summary: the income record is left out of the expense tab, and the one expense category carries the whole total |
| ReportScreen.WindowTextIsNotPrompt | screens/ReportScreen.js:77-81 | a window's text never equals the prompt text |
| ReportScreen.WindowText | screens/ReportScreen.js:81 | `start ~ end` of the two formatted days; WindowTextIsNotPrompt and WindowTextInjective prove it never reads as the prompt and tells windows apart |
| ReportScreen.WindowTextInjective | screens/ReportScreen.js:81 | distinct windows show distinct texts |
| ReportScreen.RangeDatesValid | screens/ReportScreen.js:53-72 | every window from real days has real days at both ends |
| ReportScreen.Refresh | screens/ReportScreen.js:74-115 | what the effect leaves on display; RefreshMeaning, RefreshPrompt and RefreshFigures prove the prompt and the figures cases |
| ReportScreen.RefreshMeaning | screens/ReportScreen.js:74-115 | the prompt shows exactly while a custom window lacks an end, and the previous figures then stay; otherwise the records shown are the tab's records in the window, and on the expense and income tabs the chart adds up to the total |
| ReportScreen.RefreshPrompt | screens/ReportScreen.js:75-79 | the prompt case of the effect, both directions |
| ReportScreen.RefreshFigures | screens/ReportScreen.js:81-114 | the resolved case of the effect: what is shown and the chart total |
| ReportScreen.SeededUpdate | screens/ReportScreen.js:94-95 | seeding a missing name with 0 and then adding is one Accumulate step, in both cases |
| ReportScreen.TotalStep | screens/ReportScreen.js:97-101 | one loop step adds the record's signed amount (balance tab) or its magnitude to the total |
| ReportScreen.AddToCategory | screens/ReportScreen.js:94-95 | the in-place map update equals Accumulate |
| ReportScreen.SummarizeRecords | screens/ReportScreen.js:88-102 | the `forEach` loop leaves exactly the aggregated category map and the tab's total |
| ReportScreen.SummarizeWindow | screens/ReportScreen.js:83-110 | filter, loop and chart together give the specified summary |
| ReportScreen.ReportView.constructor | screens/ReportScreen.js:17-27 | initial state: expense tab, month mode, no picked days, empty figures |
| ReportScreen.ReportView.FilterAndSummarize | screens/ReportScreen.js:74-115 | the display becomes the effect's result, with the properties of RefreshMeaning |
| ReportScreen.ReportView.LoadTransactions | screens/ReportScreen.js:35-48 | a stored ledger replaces the loaded one and the display is refreshed; with nothing stored the state and display stay as they are |
| ReportScreen.ReportView.SelectTab | screens/ReportScreen.js:144 | the tab changes and nothing else in the state does; the display is refreshed when the tab differs and kept when it is the same one |
| ReportScreen.ReportView.SelectRange | screens/ReportScreen.js:156 | the range mode changes and nothing else in the state does; the display is refreshed when the mode differs and kept when it is the same one |
| ReportScreen.ReportView.PickDate | screens/ReportScreen.js:180-184 | a picked day becomes the custom start or end and the display is refreshed; a dismissed picker changes neither the state nor the display |
| ReportScreen.ReportView.ShiftRange | screens/ReportScreen.js:117-135 | nothing changes outside the month and year modes; otherwise the mode becomes custom over the moved window and the display is refreshed |
| ReportScreen.ReportView.UseCustomWindow | screens/ReportScreen.js:132-134 | switches to the custom mode with the window's two days |
| ReportScreen.ShiftIsValid | screens/ReportScreen.js:124-130 | a moved window has real days at both ends |
| ReportScreen.ShiftTwice | screens/ReportScreen.js:117-119 | after one shift the mode is custom, so a second shift leaves the picked window, the ledger, the tab and the display as the first shift set them |
| Ledger.FirstOr | screens/AddTransactionScreen.js:39 | the first category, or the empty selection for an empty list |
| Ledger.WithCategory | screens/AddTransactionScreen.js:138-149 | a new list exists exactly when the trimmed name is not blank and not already listed; the name is then appended after the unchanged list |
| Ledger.WithCategoryKeepsDistinct | screens/AddTransactionScreen.js:144-149 | adding keeps a list free of duplicates, and the added name has no surrounding whitespace |
| Ledger.WithoutCategory | screens/AddTransactionScreen.js:161-166 | refused exactly when nothing is selected or every entry is the selection; otherwise the result is non-empty, lacks the selection, keeps the others in order, and keeps every other name |
| Ledger.LedgerScreen.constructor | screens/AddTransactionScreen.js:14-87 | stored transactions and lists replace the empty ledger and the default lists; the type effect selects "食物", and a stored non-empty last category replaces it |
| Ledger.LedgerScreen.SelectType | screens/AddTransactionScreen.js:38-41 | a new type selects that type's first category; the same type changes nothing; other fields stay |
| Ledger.LedgerScreen.AddTransaction | screens/AddTransactionScreen.js:97-116 | refused exactly with an empty amount and then nothing changes; otherwise one record is prepended to the unchanged list and the amount and note are cleared |
| Ledger.LedgerScreen.DeleteTransaction | screens/AddTransactionScreen.js:118-122 | exactly the records with that id are removed, and the rest keep their order |
| Ledger.LedgerScreen.ClearAll | screens/AddTransactionScreen.js:124-135 | the confirmed branch leaves the ledger empty |
| Ledger.LedgerScreen.TypeAmount | screens/AddTransactionScreen.js:203 | the amount field takes the typed value |
| Ledger.LedgerScreen.TypeNote | screens/AddTransactionScreen.js:211 | the note field takes the typed text |
| Ledger.LedgerScreen.TapCategory | screens/AddTransactionScreen.js:221 | the tapped category becomes the selection |
| Ledger.LedgerScreen.PickDate | screens/AddTransactionScreen.js:266-269 | a picked day becomes the record's day; a dismissed picker keeps it |
| Ledger.LedgerScreen.TypeNewCategory | screens/AddTransactionScreen.js:246 | the new-category field takes the typed text |
| Ledger.LedgerScreen.CancelNewCategory | screens/AddTransactionScreen.js:251 | cancelling clears the new-category field |
| Ledger.LedgerScreen.AddNewCategory | screens/AddTransactionScreen.js:137-155 | blank or duplicate names change nothing; otherwise only the current type's list gets the trimmed name, which is selected, and the input is cleared |
| Ledger.LedgerScreen.DeleteSelectedCategory | screens/AddTransactionScreen.js:157-175 | refused when nothing is selected or the list would be emptied; otherwise only the current type's list loses the selection, stays non-empty, and its first entry is selected |
| Split.RoundHalfUp | screens/SplitExpenseScreen.js:87 | the nearest whole number to a / b, the larger one on a tie |
| Split.ShareText | screens/SplitExpenseScreen.js:87 | the share text is non-empty and starts with '-' exactly for a negative total |
| Split.Share | screens/SplitExpenseScreen.js:87 | the rounded share as a number; ShareTextReadsBack proves the share text reads back as it, and ShareIsNearest that it is within half a yuan of the exact quotient |
| Split.ShareTextReadsBack | screens/SplitExpenseScreen.js:87 | the share text reads back as the share |
| Split.ShareIsNearest | screens/SplitExpenseScreen.js:87 | count shares miss the total by at most half a yuan per member |
| Split.ShareExactAndNearest | screens/SplitExpenseScreen.js:87 | 300.00 among three prints 100; 100.00 among three prints 33 |
| Split.ShareTiesAwayFromZero | screens/SplitExpenseScreen.js:87 | a half share rounds away from zero for both signs |
| Split.ShareNegativeZero | screens/SplitExpenseScreen.js:87 | a negative share under half a yuan prints "-0" |
| Split.SelectedMembers | screens/SplitExpenseScreen.js:81 | only selected members are kept |
| Split.LineFor | screens/SplitExpenseScreen.js:88-91 | one member's result line, `name 應付 share 元` under the member's id; ResultLinesNameSelected proves the lines name exactly the selected members |
| Split.Toggled | screens/SplitExpenseScreen.js:72 | same length, ids and names; the selection flips exactly on matching ids |
| Split.ToggleTwice | screens/SplitExpenseScreen.js:70-74 | toggling the same id twice restores the list |
| Split.ToggleCommutes | screens/SplitExpenseScreen.js:70-74 | toggling two ids in either order gives the same list |
| Split.ResultLines | screens/SplitExpenseScreen.js:88-91 | one line per selected member, in order, each with the same share text |
| Split.ResultLinesNameSelected | screens/SplitExpenseScreen.js:81-91 | the lines name exactly the selected members, in list order |
| Split.SplitCalculator.constructor | screens/SplitExpenseScreen.js:20-43 | stored members, or the two default members; empty fields and history |
| Split.SplitCalculator.TypeMemberName | screens/SplitExpenseScreen.js:131 | the member-name field takes the typed text |
| Split.SplitCalculator.TypeAmount | screens/SplitExpenseScreen.js:166 | the amount field takes the typed value |
| Split.SplitCalculator.AddMember | screens/SplitExpenseScreen.js:56-64 | a blank trimmed name changes nothing; otherwise one selected member with the trimmed name is appended and the input is cleared |
| Split.SplitCalculator.RemoveMember | screens/SplitExpenseScreen.js:66-68 | exactly the members with that id are removed, and the rest keep their order |
| Split.SplitCalculator.ToggleSelectMember | screens/SplitExpenseScreen.js:70-74 | the member list becomes the toggled list |
| Split.SplitCalculator.CalculateSplit | screens/SplitExpenseScreen.js:76-103 | no amount or no selected member changes nothing; otherwise the results are the lines for the selected members and one entry with the total and those lines is prepended to the history |
| Split.SplitCalculator.ClearAmount | screens/SplitExpenseScreen.js:105-108 | the amount and results are cleared, and the history is not touched |
| Split.SplitCalculator.DeleteHistoryItem | screens/SplitExpenseScreen.js:110-112 | exactly the entries with that id are removed, and the rest keep their order |
| Groups.Base36Char | screens/GroupScreen.js:29 | base-36 digits print as a digit or a lower-case letter |
| Groups.RandomText | screens/GroupScreen.js:29 | `toString(36)` of a random number is "0." and its digits, or "0" for zero |
| Groups.Substring | screens/GroupScreen.js:29 | `substring` clamps both ends to the length |
| Groups.GenerateCode | screens/GroupScreen.js:29 | a code has at most six characters, all digits or upper-case letters |
| Groups.GenerateCodeDigits | screens/GroupScreen.js:29 | a code reads back as the first six base-36 digits of the random number |
| Groups.GenerateCodeDependsOnSixDigits | screens/GroupScreen.js:29 | two random numbers give the same code exactly when their first six digits agree |
| Groups.ShortCodes | screens/GroupScreen.js:29 | a random number with few digits gives a shorter code, and zero gives "" |
| Groups.FindByCode | screens/GroupScreen.js:48 | a group is found exactly when one has the code, and the one found has it |
| Groups.TypedCode | screens/GroupScreen.js:45 | the join field trimmed and upper-cased; TypedCodeFindsGroup proves a group's code typed with surrounding whitespace finds a group |
| Groups.TypedCodeFindsGroup | screens/GroupScreen.js:45-48 | typing a group's code with surrounding whitespace finds a group |
| Groups.CodeIsUpperCase | screens/GroupScreen.js:45 | upper-casing a code leaves it as it is |
| Groups.GroupScreen.constructor | screens/GroupScreen.js:11-22 | the stored groups, or none; empty inputs |
| Groups.GroupScreen.TypeGroupName | screens/GroupScreen.js:86 | the group-name field takes the typed text |
| Groups.GroupScreen.TypeJoinCode | screens/GroupScreen.js:100 | the join-code field takes the typed text |
| Groups.GroupScreen.CreateGroup | screens/GroupScreen.js:31-42 | a blank trimmed name changes nothing; otherwise one group with the trimmed name and the generated code is prepended and the input is cleared |
| Groups.GroupScreen.JoinGroup | screens/GroupScreen.js:44-55 | a blank code does nothing; otherwise it reports already joined exactly when a group has the code, and clears the input; the list is never modified |
| Groups.GroupScreen.DeleteGroup | screens/GroupScreen.js:62-74 | exactly the groups with that id are removed, and the rest keep their order |
| Accounts.NewAccount | screens/AccountOverviewScreen.js:101-108 | the account takes the form's fields, and the edited account's id when it has one, else the fresh id |
| Accounts.Replaced | screens/AccountOverviewScreen.js:111 | same length; exactly the entries with the id are replaced |
| Accounts.EditKeepsIdsAndPositions | screens/AccountOverviewScreen.js:101-111 | an edit keeps every id and position and changes only the edited account's entries |
| Accounts.DeleteUndoesAdd | screens/AccountOverviewScreen.js:112-123 | deleting an account just added with a new id gives back the list from before |
| Accounts.InsertByBalance | screens/AccountOverviewScreen.js:68-71 | inserting into a non-increasing list keeps it non-increasing and adds exactly that account |
| Accounts.SortByBalance | screens/AccountOverviewScreen.js:68-71 | the sorted list is non-increasing by balance and a permutation of the accounts |
| Accounts.SortIsStable | screens/AccountOverviewScreen.js:68-71 | accounts of equal balance keep their relative order |
| Accounts.TotalIsRateTimesSum | screens/AccountOverviewScreen.js:73-76 | the total is the rate times the sum of balances; at rate 1 it is the plain sum |
| Accounts.TotalAsProduct | screens/AccountOverviewScreen.js:73-76 | the fold equals the rate times the sum of balances for any rate |
| Accounts.SortedTotal | screens/AccountOverviewScreen.js:68-76 | the sorted list has the same total |
| Accounts.NextCurrency | screens/AccountOverviewScreen.js:167 | the next index is always a valid currency |
| Accounts.CurrencyCycle | screens/AccountOverviewScreen.js:167 | three presses return to the start, passing each currency once |
| Accounts.TotalBalance | screens/AccountOverviewScreen.js:73-76 | the `reduce` over the accounts; TotalIsRateTimesSum and TotalAsProduct prove it is the rate times the sum of balances |
| Accounts.CsvText | screens/AccountOverviewScreen.js:131-135 | the export starts with the header line |
| Accounts.EmptyExport | screens/AccountOverviewScreen.js:131-135 | with no accounts the export is exactly the header line |
| Accounts.CsvLines | screens/AccountOverviewScreen.js:131-135 | after the header there is one line per account, in stored order, each that account's row |
| Accounts.LimitText | screens/AccountOverviewScreen.js:133 | the credit-limit field: nothing for an absent or zero limit, else the number text; ReadCsvRow proves a zero limit reads back as absent |
| Accounts.CsvFields | screens/AccountOverviewScreen.js:133 | the five fields of a row in header order; ReadCsvRow proves they read back |
| Accounts.CsvRow | screens/AccountOverviewScreen.js:133 | the fields joined by commas without quoting; ReadCsvRow proves a row of plain fields reads back, CommaInNameBreaksRow that a comma in a name does not |
| Accounts.ReadCsvRow | screens/AccountOverviewScreen.js:133 | a row of plain fields reads back as the account's fields, with a zero limit read as absent |
| Accounts.CentsTextIsPlain | screens/AccountOverviewScreen.js:133 | number text holds no comma or newline |
| Accounts.CommaInNameBreaksRow | screens/AccountOverviewScreen.js:133 | an unquoted comma in a name gives six fields, and the row does not read back |
| Accounts.AccountOverview.constructor | screens/AccountOverviewScreen.js:25-58 | the stored accounts or none, NT$ selected, nothing edited, and the empty form |
| Accounts.AccountOverview.OpenAdd | screens/AccountOverviewScreen.js:89-93 | nothing is being edited and the form is reset |
| Accounts.AccountOverview.OpenEdit | screens/AccountOverviewScreen.js:263 | the selected account becomes the one being edited |
| Accounts.AccountOverview.FillForm | screens/AccountOverviewScreen.js:217-241 | the form takes the typed values |
| Accounts.AccountOverview.SaveAccount | screens/AccountOverviewScreen.js:95-116 | refused exactly with an empty name or balance and then unchanged; otherwise the new account is appended, or replaces the edited account's entries |
| Accounts.AccountOverview.DeleteAccount | screens/AccountOverviewScreen.js:118-128 | exactly the accounts with that id are removed, and the rest keep their order |
| Accounts.AccountOverview.ToggleCurrency | screens/AccountOverviewScreen.js:167 | the index moves to the next currency and stays valid |
| Text.Trim | screens/SplitExpenseScreen.js:57 | the result has no whitespace at either end and is empty exactly for all-whitespace text |
| Text.TrimUnpadded | screens/SplitExpenseScreen.js:57 | text without whitespace at the ends is its own trim |
| Text.TrimPadded | screens/GroupScreen.js:45 | trim removes exactly the whitespace put around a text |
| Text.TrimIdempotent | screens/GroupScreen.js:45 | trimming twice is trimming once |
| Text.UpperChar | screens/GroupScreen.js:45 | ASCII lower-case letters map to upper case; other characters are unchanged |
| Text.ToUpper | screens/GroupScreen.js:45 | each character is upper-cased in place |
| Text.ToUpperIdempotent | screens/GroupScreen.js:45 | upper-casing twice is upper-casing once, and leaves no lower-case letter |
| Text.NatText | screens/AccountOverviewScreen.js:133 | whole numbers print as digits without a leading zero |
| Text.ParseNatText | screens/AccountOverviewScreen.js:133 | number text reads back as the number |
| Text.NatTextInjective | screens/AccountOverviewScreen.js:133 | distinct numbers print differently |
| Text.CentsText | screens/AccountOverviewScreen.js:133 | the amount text starts with '-' exactly for negative amounts |
| Text.ParseCentsText | screens/AccountOverviewScreen.js:133 | the printed amount reads back as the amount |
| Text.CentsTextChars | screens/AccountOverviewScreen.js:133 | the amount text holds only digits, '-' and '.' |
| Text.Join | screens/AccountOverviewScreen.js:132-134 | `join` with one separator character, a single piece being itself; SplitJoin proves Split inverts it |
| Text.Split | screens/AccountOverviewScreen.js:132-134 | `split` on one separator character, always at least one piece; SplitJoin proves it inverts Join |
| Text.SplitJoin | screens/AccountOverviewScreen.js:132-134 | splitting a join gives back the pieces when none holds the separator |
| Lists.Filter | screens/AddTransactionScreen.js:119 | every element kept passes the test, and the result is no longer than the list |
| Lists.FilterCounts | screens/AddTransactionScreen.js:119 | each passing element keeps all its copies, and each failing one loses all of them |
| Lists.FilterKeepsMembers | screens/AddTransactionScreen.js:119 | an element is in the result exactly when it is in the list and passes |
| Lists.FilterIsSubsequence | screens/AddTransactionScreen.js:119 | the result keeps the list's order |

## Left out

- Storage and effects: AsyncStorage loads and saves, the persistence effects, and their error logging are not modelled. Stored values enter as constructor or method parameters. `saveCategories` saving the lists from before the update (screens/AddTransactionScreen.js:151) is a storage timing matter and is not modelled.
- Ledger.LedgerScreen.constructor: the three loads from storage are taken to finish after the first render's effects, as asynchronous reads do, and before any user action; actions racing the loads are not modelled.
- UI: rendering, styles, modals, visibility flags, keyboard handling, navigation, clipboard copying, and the `Alert` dialogs. For confirmations only the confirmed branch is modelled. Error alerts appear as outcome values.
- Export I/O: writing and sharing the CSV file (FileSystem, Sharing, the web branch). Only the text is modelled.
- Floating point: amounts are whole cents and rates are exact decimals. `parseFloat` of text that is not a number (NaN in the sums at screens/ReportScreen.js:92 and screens/AccountOverviewScreen.js:104), amounts finer than a cent, float rounding of rates, and `toFixed(2)`/`toLocaleString` display are not modelled.
- The percentage text in the chart legend (screens/ReportScreen.js:214) is display only and is not modelled.
- Ledger.LedgerScreen.AddTransaction: the amount field is taken as already parsed to cents. The source stores the raw text and accepts any non-empty text, including text that is not a number.
- Split.SplitCalculator.CalculateSplit: text that `parseFloat` reads as NaN is modelled like an empty field (None), which the source refuses at screens/SplitExpenseScreen.js:77-79. `parseFloat` reads other text by its numeric prefix ("12abc" splits as 12), and that reading is not modelled: the field's value is taken as already parsed.
- Accounts.AccountOverview.SaveAccount: the balance and credit-limit fields are taken as already parsed to cents. Text that is not a number, which the source accepts and turns into NaN, is not modelled.
- ReportRange.RangeDates: days are compared as calendar days. The source compares the UTC midnight of a record's date text with local-time window bounds (screens/ReportScreen.js:58-65, 84). So the model matches the source only on a device running at UTC. The time of day of picked days (screens/ReportScreen.js:183) and of now for the six-month end are not modelled.
- Ledger.LedgerScreen.AddTransaction: the record's day is the picked day. The source stores the UTC day of the picked time (screens/AddTransactionScreen.js:108), which can differ by one.
- ReportSummary.Accumulate: the category map starts from 0 for every new name. The source accumulates into a plain object literal (screens/ReportScreen.js:88-95), where a category named like an inherited property ("toString", "constructor") starts from that inherited function instead of 0; that case is not modelled.
- ReportSummary.Chart: entries follow first-seen order. JavaScript's `Object.entries` lists integer-like category names first, in ascending order, and that reordering is not modelled.
- Text.ToUpper: only ASCII letters are upper-cased. `toUpperCase` on other scripts is not modelled; generated codes are ASCII.
- Text.CentsText: prints amounts as JavaScript prints numbers below 1e21. Exponent notation for larger numbers is not modelled.
- Split.ShareText: prints the rounded share as `toFixed(0)` prints numbers below 1e21. `toFixed` switches to exponent notation from 1e21 on, and that is not modelled.
- Ledger.FirstOr: an empty category list selects the empty name. The source's `[...][0]` (screens/AddTransactionScreen.js:39) gives `undefined` there. Only a stored empty list reaches this case, because deleting a category never empties a list.
- Ids from `Date.now()` are parameters. Whether two ids collide is not modelled; deletes remove every entry with the id.
- Accounts.AccountOverview.OpenEdit: as in the source, the form is not filled from the selected account; FillForm models typing into it.
- Accounts.SortByBalance: the comparator's behaviour on NaN balances is not modelled; balances are whole cents.
- Split.SplitCalculator.constructor: the race between the initial load and the member-saving effect is not modelled.
- The date picker's display state, the group code copy (`copyCode`), and the split screen's `toLocaleString` stamp (a parameter) are not modelled.
