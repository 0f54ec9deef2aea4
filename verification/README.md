# Pocket-money ledger, modelled in Dafny

This project models the ledger logic of two command-line pocket-money trackers and proves
properties about it:

- **money.py**, the richer tracker. It keeps a starting balance and a list of dated records.
  Each record has a type (`"IN"` or `"OUT"`), an amount, a category and a note. It can set the
  starting balance, add incomes and expenses, compute the balance, list the history sorted by
  date, and summarise one month.
- **simple.py**, the stripped tracker. It has no starting balance and no category. Each record
  is stamped with the current time, and the history is listed in insertion order.

Both programs keep their state in a JSON document that is loaded once, changed in memory by
menu actions, and written back after each change. The model does the following:

- It treats each document as a value whose top-level keys may be absent (`Option`).
- In money.py a record's fields may also be absent. `dict.get` defaults decide what an absent
  field means.
- Each menu action is a pure function. It takes the answers already read from the user and
  returns the new document together with how the action ended.
- Amounts are exact `real`s.

Modules:

- `Wrappers` defines `Option` (a key that may be absent) and `Result`.
- `Strings` holds Python's string operations used here: `str.startswith`, the `<=` order that
  `sorted` uses, and ASCII digits. It proves that this order is a total order.
- `StableSort` models `sorted(xs, key=...)` as a stable insertion sort. It also proves that a
  sorted, stable rearrangement is unique, so the model's output is exactly the output of
  Python's `sorted`.
- `Money` models money.py: load, balance, set starting balance, add income or expense, history
  and monthly summary. It also has session lemmas over sequences of actions.
- `Simple` models simple.py: load, balance, add income or expense, and insertion-order history.
  It also relates simple.py's balance rule to money.py's.

## Model

| member | source | states |
|---|---|---|
| Money.Load | money.py:25-47 | A missing file, or one whose read raises `OSError` or whose text is not JSON, gives starting balance 0 and no records. A parsed document keeps each key it has; a missing `starting_balance` becomes 0.0 and missing `transactions` becomes []. Both keys are present afterwards. |
| Money.LoadKeepsMeaning | money.py:37-40 | The defaults filled in by loading are the same as calculate_balance's own `.get` defaults, so loading never changes the starting balance or the record list that the program sees. |
| Money.ReloadIsIdentity | money.py:25-53 | Loading a document that was saved after loading gives back that same document. |
| Money.CalculateBalance | money.py:58-67 | The running total equals the starting balance (0 if absent), plus the sum of `"IN"` amounts, minus the sum of `"OUT"` amounts. A missing amount counts as 0. |
| Money.OtherKindsContributeNothing | money.py:63-66 | Appending a record whose type is neither `"IN"` nor `"OUT"` leaves the balance unchanged. |
| Money.SetStartingBalance | money.py:106-113 | The starting balance becomes the new value and the record list is untouched. The balance therefore shifts by exactly (new − old starting balance). |
| Money.AddIncome | money.py:116-136 | An amount ≤ 0 is refused and the document is unchanged. Otherwise one record is appended at the end and earlier records are unchanged. The new record has type `"IN"`, the given amount, date and note, and the source as category, or `"Pocket Money"` if the source is blank. A missing `transactions` key ends in KeyError with nothing appended. |
| Money.AddExpense | money.py:139-162 | The same shape as AddIncome, with type `"OUT"` and default category `"Other"`. |
| Money.AddIncomeBalance | money.py:116-136 | An accepted income raises the balance by exactly its amount. A refused one leaves it unchanged. |
| Money.AddExpenseBalance | money.py:139-162 | An accepted expense lowers the balance by exactly its amount. A refused one leaves it unchanged. |
| Money.ReplayAppendsInOrder | money.py:267-285 | After any sequence of menu actions on a loaded ledger, the records are the earlier ones followed by the accepted new ones in entry order. No record is changed or removed. |
| Money.ReplayBalance | money.py:267-285 | A session with no starting-balance change moves the balance by the signed sum of its accepted adds. |
| Money.ListTransactions | money.py:173-182 | The history contains the same records with the same multiplicities. Date strings are non-decreasing, and records with equal dates keep their ledger order. |
| StableSort.SortBy | money.py:182 | The output of `sorted(..., key=...)` is a permutation of the input, non-decreasing by key, and stable within each key. |
| StableSort.SortedStableIsUnique | money.py:182 | Any sorted, stable rearrangement of the input equals SortBy's output, so the model agrees with Python's `sorted` whatever algorithm that uses. |
| Strings.LeTransitive | money.py:182 | Python's string `<=` is transitive. Together with LeTotal and LeAntisymmetric it is a total order, which sorting by date relies on. |
| Money.MonthNumber | money.py:208-213 | A month string accepted by `%m` denotes a month from 1 to 12. |
| Money.MonthPrefixIsZeroPadded | money.py:215 | For a valid month the prefix is the year, `-`, and the month number as two digits, whether the month was typed with one digit or two. |
| Money.SameMonthSamePrefix | money.py:215 | Two valid spellings of the same month (`"3"`, `"03"`) select the same records. |
| Money.InMonthMembers | money.py:221-230 | A record is selected if and only if it is in the ledger and its date (`""` if absent) starts with the prefix. |
| Money.MonthSplitsTotals | money.py:221-230 | The month's records and the remaining records split every type total and the record count exactly. |
| Money.MonthlySummary | money.py:196-249 | An empty year or month means the current one. An invalid year or month is refused. Otherwise the selected records are those whose date string starts with `YYYY-MM` (zero-padded month). Income and expense are the `"IN"`/`"OUT"` sums over them, net is income − expense, count is their number (of any type), and the details are those records sorted by date. |
| Money.UnpaddedDateMissesMonth | money.py:97-99 | A date stored as typed with a one-digit month (`"2024-1-5"`, which `strptime` accepts) does not start with the January prefix, whether the month is asked for as `"1"` or `"01"`. |
| Money.UnpaddedDateSortsLate | money.py:182 | That same date sorts after `"2024-09-30"` in the history, because the comparison is by characters. |
| Money.ExampleSessionBalance | money.py:58-67 | Starting balance 100, then IN 50, OUT 20 and IN 10, gives balance 140. |
| Money.ExampleSessionJanuary | money.py:215-236 | In that session, January 2024 (month typed as `"01"`) has income 50, expense 20 and 2 records. |
| Simple.Load | simple.py:24-35 | A missing file, or one whose read raises `OSError` or whose text is not JSON, gives an empty record list. A parsed document is used as read, with no defaulting. |
| Simple.CalcBalance | simple.py:46-55 | The balance starts at 0, adds `"IN"` amounts and subtracts every other record's amount. A document without `transactions` ends in KeyError. |
| Simple.NonIncomeIsSpending | simple.py:51-54 | A record of any type other than `"IN"` lowers the balance by its amount. |
| Simple.AddIncome | simple.py:69-86 | An amount ≤ 0 is refused and the document is unchanged. Otherwise one `"IN"` record stamped with the current time is appended and earlier records are unchanged. Its note is the given one, or `"Income"` if blank. |
| Simple.AddExpense | simple.py:89-106 | The same shape as AddIncome, with type `"OUT"` and default note `"Expense"`. |
| Simple.AddBalance | simple.py:46-106 | An accepted add changes the balance by +amount (income) or −amount (expense). A refused add changes nothing. |
| Simple.HistoryInInsertionOrder | simple.py:116-127 | After any session, the history is the earlier records followed by the accepted adds, in the order entered. There is no re-sorting. |
| Simple.BalanceAgreesWithMoney | simple.py:46-55 | If every record is `"IN"` or `"OUT"`, simple.py's balance equals money.py's with starting balance 0. |
| Simple.OtherKindDiverges | simple.py:51-54 | For a record of some other type with a non-zero amount, the two balance rules differ: simple.py subtracts it and money.py ignores it. |

## Left out

- JSON reading and writing (`save_data`, `os.path.exists`, `json.load`, `json.dump`). Load is a
  function from "absent / unreadable / parsed document" to a document. Save is taken to be an
  exact round trip.
- Load failures that `load_data` does not catch. A data file that is not valid UTF-8 makes
  `json.load` raise `UnicodeDecodeError`, which is neither `JSONDecodeError` nor `OSError`. In
  money.py, a JSON `null` under `transactions` is kept by the key test and then makes
  `calculate_balance` raise `TypeError`. Both end the program with an uncaught exception and
  are not representable: `Unreadable` covers only the caught errors, and `transactions` is a
  list or absent.
- Parsed documents with an unexpected shape: a top-level value that is not an object, a
  non-numeric `amount` or `starting_balance` (where `float()` would raise), non-string dates
  (where `sorted` would raise), or extra keys. They are not representable in the model.
- In simple.py, records that lack one of their four fields (`t["amount"]` would raise
  KeyError). simple.py records are modelled with all four fields present.
- Interactive input: menus, `input()`, `input_float`'s retry loop, `.strip()`. The operations
  take the amount, labels and note as already parsed and stripped.
- The date checks in `input_date` (`strptime` with `%Y-%m-%d`). The operations take the date
  string as given.
- Clock readings (`datetime.today()`, `datetime.now()`). They are parameters: the date for
  money.py's adds, `now` for simple.py's adds, and today's `%Y`/`%m` text for the summary's
  defaults.
- Money.MonthlySummary: year/month validity is modelled for ASCII digits only. `strptime`'s
  `\d` also accepts other Unicode decimal digits; those inputs are not covered.
- Money.AddIncome, Money.AddExpense, Simple.AddIncome, Simple.AddExpense,
  Money.SetStartingBalance: non-finite amounts are not represented. `input_float` accepts "nan"
  and "inf"; `nan <= 0` is false, so a NaN amount passes the guard and is appended, and every
  later balance is NaN. `set_starting_balance` also accepts both. Amounts here are `real`.
- Money.MonthlySummary: months are selected by date-string prefix, exactly as the program
  does. Dates are stored as typed, and `strptime` accepts one-digit months and days, so a date
  like `"2024-1-5"` belongs to no month's summary and sorts out of calendar order in the
  history (see Money.UnpaddedDateMissesMonth, Money.UnpaddedDateSortsLate). The model does not
  promise a calendar-month selection.
- Floating-point rounding and all printing: two-decimal amounts, column widths, signs, and the
  "No transactions yet." messages.
- `main` loops as menus. Sessions are modelled only as sequences of the mutating actions
  (`Replay`), not the display choices, which change nothing.
- pp.py, the browser page. It is widget and dataframe code whose arithmetic repeats money.py's
  balance rule through library calls that are not visible here.
