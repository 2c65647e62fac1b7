# expman in Dafny

A verified model of the core of expman, a command-line expense tracker. expman
keeps categories, expenses and incomes in an SQLite database and prints
category trees and balances. The model covers two pieces.

- **The data layer of `src/core.py`, without the database engine.**
  - The schema registry (`DB.tables`, `getColumnsAsStrings`).
  - The SQL text `DB` builds: CREATE TABLE, INSERT, SELECT, and SELECT … BETWEEN.
  - The reshaping of fetched tuples into column→value dictionaries.
  - The insertion-ordered query dictionary that `Expense.Add`/`Income.Add` fill.
  - The `TransactionItem` table check.
  - The `Expense`/`Income` constructors, which drop the id they are given.
  - Rebuilding records from fetched dictionaries.
  - `Category.to_string` in its LIST and TREE formats.
- **The reports of `src/utils.py`.**
  - The category tree walk, as the sequence of lines it prints.
  - The balance totals.
  - The month and year intervals that `balance_month`/`balance_year` compute from today's date.

What is external becomes a parameter or a log:

- `DB` is one explicit object (module `Store`). Its `log` records every statement sent to the engine.
- The tuples the engine would return for a SELECT are passed in.
- Today's date is a parameter.
- Printed output is returned instead (tree lines, the three totals).

Modules, one per file:

| file | module | contents |
|---|---|---|
| `wrappers.dfy` | `Wrappers` | `Option`, `Result` (Python exceptions become `Failure`) |
| `text.dfy` | `Text` | `str(int)`, fixed-width digits, `str.join`, padding as in format specs |
| `dict.dfy` | `Dict` | Python's insertion-ordered `dict` with string keys |
| `calendar.dfy` | `Calendar` | Gregorian dates, `calendar.monthrange`, the month shift of `relativedelta`, ISO date text |
| `schema.dfy` | `Schema` | the three tables and their columns, error values |
| `store.dfy` | `Store` | SQL text, its parsers, row reshaping, the `DB` class |
| `records.dfy` | `Records` | `Category`, the `Transaction` class (Expense/Income), rebuilding and fetching |
| `reports.dfy` | `Reports` | tree walk, balance, month and year ranges |

Amounts are held as whole hundredths. `str(amount)` is modelled for such values as the shortest decimal with one or two fractional digits.

Two places where the code does less than it evidently means to; the model follows the code:

- `DB.Create` compares the column and value counts but leaves the error as a `#todo` (src/core.py:181-183), so the statement is sent whatever the counts (`Store.DB.Create`).
- The `Expense`/`Income` constructors accept an `id` argument but pass `id=0` upward (src/core.py:390, 431), so records rebuilt from expense and income rows always carry id 0 and the stored id is lost.

The tree prints each category's stored id, which `Category` keeps as given (src/core.py:279-280, `Records.CategoryRowKeepsId`, `Reports.SingleRootCategory`). A category whose id equals its parent is printed once per level down to the depth cap (`Reports.SelfLoopRepeats`).

One `Transaction` class stands for `TransactionItem`, `Expense` and `Income`, told apart by its `kind`. `Records.Transaction.Add` can therefore be called on an object built by `Records.Transaction.Make` (the bare `TransactionItem` constructor), where Python's `TransactionItem` has no `Add` method. No code path in the modelled core does so: `Add` is only called on `Expense` and `Income` objects.

## Model

| member | source | states |
|---|---|---|
| Schema.RegistryLookup | src/core.py:121-141 | exactly CATEGORIES, EXPENSES and INCOMES are registered; CATEGORIES has columns ID, PARENT, TITLE, DESCRIPTION and EXPENSES/INCOMES have ID, CATEGORY, AMOUNT, DATETIME, TITLE, NOTES, in declared order |
| Store.DB.GetColumnsAsStrings | src/core.py:169-177 | a registered table yields its column names in declared order; any other name fails with an unknown-table error |
| Store.DB.constructor | src/core.py:120-160 | the registry is installed; a missing database file is set up with one CREATE TABLE per table in registry order, an existing one with nothing |
| Store.CreateTableQueries | src/core.py:150-158 | the outer loop yields exactly the setup statements: one CREATE TABLE text per table, in the order of the tables |
| Store.CreateTableQuery | src/core.py:150-155 | the `+=` loop builds the header line, one `"name" attributes,` line per column, the AUTOINCREMENT primary key on ID and `);`, joined by newlines |
| Store.CreateTableLinesRecovered | src/core.py:151-155 | the CREATE TABLE text splits back into exactly those lines, in that order |
| Store.QuoteAll | src/core.py:186 | every value is wrapped in single quotes with nothing escaped |
| Store.InsertQuery | src/core.py:185-187 | the INSERT text of `DB.Create`; no contract of its own, its meaning is stated by `Store.InsertRoundTrip` and `Store.QuoteInValueBreaksInsert` |
| Store.InsertRoundTrip | src/core.py:185-187 | the INSERT statement reads back as its table, its column list and its value list, whatever the two counts, provided the column and value lists are non-empty, the table name holds no space, no column name holds `,` or `)` and no value holds a quote (every INSERT the core sends meets these) |
| Store.QuoteInValueBreaksInsert | src/core.py:186 | a value holding a single quote (`O'Brien`) ends its literal early and the value list no longer reads back |
| Store.SelectRoundTrip | src/core.py:203-204 | the SELECT statement reads back as its table and its columns in order |
| Store.SelectQuery | src/core.py:203-204 | the SELECT text of `DB.FetchAll`; no contract of its own, its meaning is stated by `Store.SelectRoundTrip` |
| Store.SelectBetweenQuery | src/core.py:231-233 | the SELECT text of `DB.FetchDate`, restricted to DATETIME between two quoted bounds; no contract of its own, its meaning is stated by `Calendar.TextBetweenIsDateRange` and `Store.DB.FetchDate` |
| Store.DB.Create | src/core.py:179-191 | exactly one INSERT is sent, with no check of the column/value counts |
| Store.RecordDictShape | src/core.py:212-216 | a reshaped tuple's keys are the table's columns in order, and column k maps to the k-th element of the tuple |
| Store.RecordToDict | src/core.py:212-216 | the loop with the manual index builds that dictionary |
| Store.RecordsToDicts | src/core.py:210-218 | one dictionary per fetched tuple, in the order fetched |
| Store.DB.FetchAll | src/core.py:199-218 | an unknown table fails before anything is sent; otherwise the SELECT of all columns is sent and every tuple is reshaped |
| Store.DB.FetchDate | src/core.py:227-247 | the same, with the SELECT restricted to DATETIME between the two quoted bounds |
| Calendar.DateTextOrder | src/core.py:233 | for valid dates, text order of `YYYY-MM-DD` is date order, and equal texts are equal dates |
| Calendar.TextBetweenIsDateRange | src/core.py:233 | a date's text lies between the bound texts (inclusive) exactly when the date lies between the bound dates |
| Dict.PutKeys | src/core.py:271-272 | assigning a new key appends it; assigning a present key keeps the key order |
| Dict.PutGet | src/core.py:271-272 | the assigned key reads back the new value and every other key reads as before |
| Dict.PutAllOverwrite | src/core.py:392-397 | assigning the same distinct keys again keeps their order and replaces every value |
| Records.Transaction.AddDictElement | src/core.py:271-272 | the query dictionary becomes the old one with the column assigned |
| Records.ListHeaderBars | src/core.py:275-276 | the LIST header is 95 characters wide with its separators at positions 6, 19 and 42 |
| Records.ListHeader | src/core.py:275-276 | `get_list_header`; no contract of its own, see `Records.ListHeaderBars` |
| Records.ListRowColumns | src/core.py:309-311 | when id, parent, title and description fit their widths (5, 10, 20 and 50 characters), a LIST row is 94 characters: id right-aligned in 5, parent right-aligned in 10, title and description left-aligned in 20 and 50, with separators under the header's |
| Records.TreeLabelId | src/core.py:312-313 | a TREE label starts with the id (never a tab), and the text before its first space reads back as the id |
| Records.TreeLabel | src/core.py:313 | the TREE form: the id text, a bar, the title and the description in parentheses; no contract of its own, see `Records.TreeLabelId` |
| Records.CategoryToString | src/core.py:309-315 | `Category.to_string`: the LIST form, the TREE label, and "" for any other format; no contract of its own, see `Records.ListRowColumns` and `Records.TreeLabelId` |
| Records.CategoryRowKeepsId | src/core.py:279-283 | a fetched CATEGORIES tuple rebuilds to the category with those values, id included |
| Records.CategoryFromDict | src/core.py:322-327 | a rebuilt category holds the dictionary's PARENT, TITLE, DESCRIPTION and ID; a missing column is an error |
| Records.CategoriesFromDicts | src/core.py:320-328 | the loop returns `AllCategories`: one category per dictionary, in order; the first dictionary that fails decides the error |
| Records.FetchAllCategories | src/core.py:318-328 | the SELECT of CATEGORIES is sent, and the result is the rebuilt list of the fetched tuples |
| Records.KindOf | src/core.py:333-334 | exactly EXPENSES and INCOMES are accepted; any other table fails with a not-recognized error |
| Records.NewTransactionItem | src/core.py:332-341 | an accepted table gives a fresh transaction holding every argument, including the id; any other table fails |
| Records.Transaction.Make | src/core.py:335-341 | the `TransactionItem` constructor past its table check stores every argument, the id included, with an empty query dictionary |
| Records.Transaction.Expense | src/core.py:389-390 | an expense stores every field except the id, which is 0 |
| Records.Transaction.Income | src/core.py:430-431 | an income stores every field except the id, which is 0 |
| Records.Transaction.SetCategoryId | src/core.py:363-365 | the category id becomes the new value |
| Records.Transaction.Add | src/core.py:392-399 | the query dictionary receives CATEGORY, DATETIME, AMOUNT, TITLE, NOTES in that order, and one INSERT of its keys and values into the transaction's own table is sent |
| Records.AddFromEmpty | src/core.py:392-397 | on a new transaction the dictionary holds exactly those five columns in order, each with its value, and never ID |
| Records.AddTwice | src/core.py:433-438 | calling Add again overwrites the same five keys in the same order |
| Records.AddStatementRoundTrip | src/core.py:392-399 | the INSERT of a first Add reads back as the own table, the five columns and the five values when date, title and notes hold no quote |
| Records.AmountRoundTrip | src/core.py:395 | the text of an amount denotes exactly that amount |
| Records.AmountText | src/core.py:395 | `str(amount)`: the text holds no quote, has at least three characters and starts with `-` exactly for a negative amount; its value is stated by `Records.AmountRoundTrip` |
| Text.IntToStringRoundTrip | src/core.py:393 | the text of the category id reads back as the id |
| Records.FieldsFromDict | src/core.py:405-410 | a rebuilt transaction holds the dictionary's CATEGORY, DATETIME, AMOUNT, TITLE and NOTES; an ID must be present but is not kept |
| Records.TransactionRowFields | src/core.py:405-410 | a fetched EXPENSES/INCOMES tuple yields its stored fields, and its stored id is lost |
| Records.AllCategoriesAt | src/core.py:320-328 | the category list rebuilds exactly when every dictionary does, and then entry k is the category the k-th dictionary rebuilds to |
| Records.FetchedCategories | src/core.py:318-328 | when the fetched CATEGORIES tuples rebuild, category k holds exactly the ID, PARENT, TITLE and DESCRIPTION cells of tuple k: the stored ids survive |
| Records.AllFieldsAt | src/core.py:404-411 | the list rebuilds exactly when every dictionary does, and then entry k is what the k-th dictionary rebuilds to |
| Records.TransactionsFromDicts | src/core.py:402-411 | one fresh Expense or Income per dictionary, in order, each with id 0 and the rebuilt fields |
| Records.FetchAllTransactions | src/core.py:413-418 | the SELECT of the own table is sent, then the rows are rebuilt as above |
| Records.FetchDateInterval | src/core.py:420-425 | the SELECT … BETWEEN with the ISO texts of the two dates is sent, then the rows are rebuilt as above |
| Reports.Children | src/utils.py:9 | the children of a parent are exactly the categories with that parent |
| Reports.WalkShape | src/utils.py:7-15 | every printed entry is one of the categories at a depth in `[depth, maxDepth)`; the first is a child of the start parent; each entry is at most one level deeper than the previous one, and one level deeper only as its child |
| Reports.Walk | src/utils.py:7-15 | `print_categories_tree` as the list of entries it prints; no contract of its own, see `Reports.WalkShape`, `Reports.WalkSubtrees`, `Reports.ChildrenFollow` and `Reports.TopLevelIsChildren` |
| Reports.WalkSiblings | src/utils.py:10-13 | the loop over one parent's children, each followed by its own subtree; no contract of its own, see `Reports.WalkSubtrees` |
| Reports.ChildrenAppend | src/utils.py:9 | selecting the children keeps input order: the children of a concatenation are those of each part, in turn |
| Reports.WalkSubtrees | src/utils.py:10-13 | every printed entry is followed at once by the walk of its own category one level deeper |
| Reports.ChildrenFollow | src/utils.py:8-13 | pre-order, completely: right after each printed category come its subtree's lines, and those one level deeper are exactly its children, in input order, unless the cap stops the walk there |
| Reports.TopLevelIsChildren | src/utils.py:9-10 | the entries at the starting depth are exactly the children of the start parent, in input order |
| Reports.TreeLinesIndent | src/utils.py:11-12 | each line is `depth` tabs then the TREE label, so it starts with fewer than `maxDepth` tabs |
| Reports.TreeLines | src/utils.py:11-12 | one printed line per walked entry; its text is stated by `Reports.TreeLinesIndent` |
| Reports.SelfLoopRepeats | src/utils.py:8-13 | a category that is its own parent, alone in the list and walked from its own id, is printed once per level until the cap: the walk ends on a cyclic parent link |
| Reports.SingleRootCategory | src/utils.py:7-13 | a single root category with id 1 prints exactly one line, its TREE label with no indentation |
| Reports.ComputeTotals | src/utils.py:24-30 | the two running sums are the sums of the amounts, and the balance is incomes minus expenses |
| Reports.SumAppend | src/utils.py:24-26 | the sum of concatenated lists is the sum of the sums |
| Reports.FieldsSumIsAmountColumn | src/utils.py:24-30 | the rebuilt amounts sum to the AMOUNT cells of the fetched tuples |
| Reports.Balance | src/utils.py:17-34 | the EXPENSES SELECT over the interval is sent, then the INCOMES one exactly when the expenses rebuilt; the result succeeds exactly when both lists rebuild, the first failure decides the error, and the totals are the sums of the AMOUNT cells and their difference |
| Calendar.ShiftMonthsBack | src/utils.py:41 | the shifted month is a month 1–12 lying exactly r months before |
| Calendar.DaysInMonth | src/utils.py:43 | months have 28 to 31 days, and February has 29 exactly in leap years |
| Calendar.DaysInYear | src/utils.py:43 | the month lengths add up to 365, or 366 in a leap year |
| Reports.MonthRange | src/utils.py:39-44 | the interval runs from day 1 to the last day of the month `abs(r)` months before today's month; it fails below year 1 |
| Reports.MonthRangeCovers | src/utils.py:42-44 | the month interval holds exactly the days of that month |
| Reports.MonthRangeSymmetric | src/utils.py:40 | `r` and `-r` give the same interval |
| Reports.MonthRangeLeapFebruary | src/utils.py:43 | one month back from 2024-03-15 is 2024-02-01 to 2024-02-29 |
| Reports.MonthRangeBorrow | src/utils.py:41 | fourteen months back from March 2024 borrows a year: January 2023 |
| Reports.YearRange | src/utils.py:51-61 | for `r == 0` the interval runs from 1 January to today; otherwise it covers the whole year `abs(r)` years back, failing below year 1 |
| Reports.YearRangeCovers | src/utils.py:52-61 | the year interval holds the days of that year up to today, or the whole year |
| Reports.YearRangeExamples | src/utils.py:52-61 | from 2024-03-15: 2024-01-01 to 2024-03-15 for 0, all of 2023 for -1 |
| Reports.BalanceMonth | src/utils.py:36-46 | a month interval below year 1 fails before anything is sent; otherwise the balance queries go out over exactly that month's first and last day, and the result is that interval's balance |
| Reports.BalanceYear | src/utils.py:48-63 | the same for the year interval: nothing sent below year 1, otherwise the queries over exactly the computed year range and its balance |

## Left out

- SQLite itself (`sqlite3.connect`, `execute`, `commit`, `close`) is not modelled. Neither are the folder and file creation (src/core.py:143-167) and the `except sqlite3.Error` blocks that print and return `[]`, because they depend on the engine. The model records the statements sent and takes the fetched tuples as input.
- The engine's side of a SELECT is not modelled. Fetched tuples are assumed to have at least one value per column (`Store.RecordsFit`), and rows are not filtered by BETWEEN. `Calendar.TextBetweenIsDateRange` shows that the text comparison BETWEEN performs on ISO dates is date comparison.
- The `singleton` decorator (src/core.py:110-116) is left out. `DB` is one explicit object passed to the operations that need it.
- `print` is left out: the tree lines and the totals are returned. The `:.2f` display format, `TransactionItem.to_string` (src/core.py:383-384) and its `{amount:8}` width are left out.
- Float arithmetic is left out. Amounts are exact hundredths, so sums are exact and never rounded.
- `Records.AmountText` models `str(float)` only for values with at most two decimals and below 2^46 (about 7·10^13) in size: above that a double no longer holds every hundredth exactly, and `str(float)` prints a neighbouring value.
- NULL column values (`Store.Value.NullValue`) are carried by the reshaping but never rebuilt into records.
- `Records.FieldsFromDict`, `Records.CategoryFromDict`: these are weaker than the source where a column holds a value of the wrong type. Python stores whatever the dictionary holds in the record. The model refuses it with a wrong-type error, because record fields are typed.
- The `TransactionItem` setters for date, amount, title and notes (src/core.py:367-381) assign to their own property and recurse without end. They are not modelled as working setters.
- The `Category` setters (src/core.py:297-307) are never called by the core, so `Category` is an immutable value.
- `date.today()` is a parameter (`today`).
- `relativedelta` and `calendar.monthrange` are replaced by `Calendar.ShiftMonthsBack` and `Calendar.DaysInMonth`. Only the year and month of the shifted date matter, since the day is then replaced.
- `src/cli.py` (argument parsing and dispatch) is not part of this model. Neither is the triple-quoted block of dead code at src/core.py:468-606.
