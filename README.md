# Brokerage ledger summary: a Dafny model of `process_csv`

The repository is a small Flask application. A user uploads a CSV export of a
brokerage account, and the application summarises it. This project models
the summarising code in `mi_proyecto/app/app.py` and proves what it computes.
The modelled code is the upload filter `allowed_file`, the engine
`process_csv`, and `get_equity_symbols`.

`process_csv` runs three stages over the ledger that pandas has read:

- **Date triples** (`date_range.dfy`, `DateRange.ExtractDates`). Every text
  (`object`) column with at least one cell that parses as a date adds
  `(first date, last date, days between)` to `dates`, in column order.
- **Dividends** (`dividends.dfy`, `Dividends.SumDividends`). `Value` is
  summed per `Symbol` over the rows whose `Sub Type` is `Dividend`, over the
  whole ledger.
- **Equity positions** (`positions.dfy`, `Positions.FoldPositions`). The
  range of the first date triple becomes an inclusive window on `Date`.
  `Equity` and `Equity Option` rows inside the window are counted. The
  in-window `Equity` rows are then folded into four per-symbol dictionaries:
  - the row count;
  - the total quantity;
  - the total income, `quantity * average price`;
  - the total sum, `quantity + income`.

`engine.dfy` (`Engine.ProcessCsv`) chains the stages. It also states which
exception, if any, escapes the function. `upload.dfy` models `allowed_file`
and `equity_symbols.dfy` models `get_equity_symbols`. `ledger.dfy` holds the
shared types: rows, columns, the column names and the exceptions.

Each of the loops in the source is a Dafny method with a `while` loop. These
are the column loop, the dividend loop and the position loop. Each method is
proved against a recursive specification function, and the properties are
proved about those functions. The column loop appends to the list `dates`,
and the dividend and position loops update their dictionaries in place. In
the methods these are local `seq` and `map` variables that the loop
reassigns, because they are local to `process_csv` in the source as well.

Python exceptions are modelled as values. `float(...)` raising `ValueError`
is a `None` cell. `row['X']` on a missing column is `KeyError("X")`.
`dates[0]` on an empty list is `IndexError`. `pd.to_datetime` raising on the
`Date` column is `ValueError`. Where the code catches an exception, the model
skips the column or the row, as the code does. Where it does not, the result
is `Outcome.Raised` with that exception.

## Behaviour worth knowing

- A numeric cell that does not convert makes the code skip the row in the
  position fold, and raise `ValueError` in the dividend loop; it is never
  read as 0.
- With an `Instrument Type` column but no `Date` column, a `Date` that does
  not parse, or no date-yielding column, the code raises (`KeyError`,
  `ValueError`, `IndexError`) out of `process_csv`, and the dividend sums
  already computed are lost. Without an `Instrument Type` column the window
  is never needed: unless a dividend `Value` fails to convert, the run
  completes with both counts 0 and empty position dictionaries, whatever the
  dates.

## Model

| member | source | states |
|---|---|---|
| Upload.LastDot | mi_proyecto/app/app.py:22 | the index at which `rsplit('.', 1)` cuts holds a '.', and no '.' comes after it |
| Upload.Extension | mi_proyecto/app/app.py:22 | `rsplit('.', 1)[1]` holds no '.', and the name is everything before it, then '.', then the extension |
| Upload.Lower | mi_proyecto/app/app.py:22 | `lower()` keeps the length and lower-cases each character in place |
| Upload.AllowedFileEndsInCsv | mi_proyecto/app/app.py:21-22 | an accepted name ends in '.' followed by three characters that lower-case to "csv" |
| Upload.CsvEndingIsAllowed | mi_proyecto/app/app.py:21-22 | every name ending in '.' plus three characters that lower-case to "csv" is accepted |
| Upload.AllowedFileIff | mi_proyecto/app/app.py:21-22 | `allowed_file` holds exactly when the name ends in '.' plus a case-insensitive "csv" |
| Upload.UpperCaseAccepted | mi_proyecto/app/app.py:21-22 | "a.CSV" is accepted, because the extension is compared case-insensitively |
| Upload.BareExtensionAccepted | mi_proyecto/app/app.py:21-22 | ".csv" is accepted |
| Upload.LastExtensionAccepted | mi_proyecto/app/app.py:21-22 | "x.2023.Csv" is accepted: only the text after the last '.' counts |
| Upload.RejectedExamples | mi_proyecto/app/app.py:21-22 | "csv" (no dot), "a.csv.txt", "a." and "a.cs" are rejected |
| DateRange.Present | mi_proyecto/app/app.py:43 | `dropna()` keeps exactly the dates that parsed |
| DateRange.Earliest | mi_proyecto/app/app.py:45-46 | `sorted(...)[0]` is a date of the column and no later than any of them |
| DateRange.Latest | mi_proyecto/app/app.py:45-47 | `sorted(...)[-1]` is a date of the column and no earlier than any of them |
| DateRange.RangeOf | mi_proyecto/app/app.py:42-53 | a column's triple: both bounds occur in the column, every date lies between them, and the day count is `last - first`, which is never negative |
| DateRange.DateTriples | mi_proyecto/app/app.py:39-53 | `dates` has at most one triple per column; every triple has `first <= last` and `days == last - first`, so the `abs` branch never applies |
| DateRange.TripleCount | mi_proyecto/app/app.py:39-53 | `dates` holds exactly as many triples as there are date-yielding text columns |
| DateRange.ColumnTripleAt | mi_proyecto/app/app.py:39-53 | every date-yielding column contributes its range, placed after the triples of the date-yielding columns before it, so the triples come in column order |
| DateRange.TriplesComeFromColumns | mi_proyecto/app/app.py:39-53 | every triple in `dates` is the range of some date-yielding column |
| DateRange.NoTriplesIff | mi_proyecto/app/app.py:39-53 | `dates` stays empty exactly when no text column yields a date |
| DateRange.FirstTripleIsFirstColumn | mi_proyecto/app/app.py:39-53 | the first triple, which gives the window `dates[0]`/`dates[1]`, is the range of the first date-yielding column |
| DateRange.ExtractDates | mi_proyecto/app/app.py:39-55 | the column loop, including its `abs` branch and the skip of a column whose conversion raises, builds exactly `DateTriples` of the columns |
| Dividends.DividendTotalSplits | mi_proyecto/app/app.py:60-66 | the dividend total over two parts of a ledger is the sum of the parts' totals: no row is lost or counted twice |
| Dividends.NoDividendsTotalZero | mi_proyecto/app/app.py:63-66 | a symbol without dividend rows totals zero |
| Dividends.DividendStep | mi_proyecto/app/app.py:60-66 | one more row adds its symbol to the keys and its signed `Value` to its symbol's total only if it is a dividend |
| Dividends.SumDividends | mi_proyecto/app/app.py:57-66 | without the `Sub Type`, `Symbol` or `Value` column the map is empty. A dividend `Value` that does not convert raises `ValueError`. Otherwise the keys are exactly the symbols with a dividend row, and each value is the signed sum of that symbol's dividend `Value`s |
| Positions.WindowRows | mi_proyecto/app/app.py:70 | the filtered rows are exactly the rows of the instrument type whose `Date` lies in the inclusive window, and there are no more of them than rows |
| Positions.WindowRowsMultiplicity | mi_proyecto/app/app.py:70-74 | the filter keeps every copy of an in-window row of the type and no copy of any other row, so `shape[0]` counts repeated rows each time |
| Positions.WindowsDisjoint | mi_proyecto/app/app.py:70-74 | `num_equity_actions + num_equity_options` never exceeds the number of rows |
| Positions.ConvertedCount | mi_proyecto/app/app.py:78-93 | the number of rows whose two conversions succeed is at most the row count, and equals it exactly when every row converts |
| Positions.Folded | mi_proyecto/app/app.py:76-91 | the four dictionaries built row by row always have the same key set |
| Positions.SumIsStockPlusIncome | mi_proyecto/app/app.py:84-91 | per symbol, the summed `quantity + income` is the summed quantity plus the summed income |
| Positions.HeldSymbolsStep | mi_proyecto/app/app.py:82-91 | a row adds its symbol to the keys exactly when both its conversions succeed |
| Positions.CountPositiveIff | mi_proyecto/app/app.py:82-88 | a symbol's count is positive exactly when it is a key |
| Positions.UnheldSymbolSumsZero | mi_proyecto/app/app.py:87-91 | a symbol that is not yet a key has sums of zero, so setting the entry equals adding to zero |
| Positions.BumpCountKeepsCounts | mi_proyecto/app/app.py:82-88 | `+= 1` on a present key and `= 1` on a new one keep every count equal to the number of converting rows of its symbol |
| Positions.BumpKeepsSums | mi_proyecto/app/app.py:84-91 | `+= x` on a present key and `= x` on a new one keep every total equal to the sum over its symbol's converting rows |
| Positions.AddRowTallies | mi_proyecto/app/app.py:79-91 | the four updates for a converting row keep all four dictionaries equal to their sums over the rows folded so far |
| Positions.SkippedRowChangesNothing | mi_proyecto/app/app.py:92-93 | a row whose `Quantity` or `Average Price` does not convert leaves all four dictionaries unchanged, and they remain correct |
| Positions.FoldedTallies | mi_proyecto/app/app.py:76-91 | the fold yields, for exactly the symbols with a converting row, the count, total quantity, total income and total sum over those rows |
| Positions.TalliesUnique | mi_proyecto/app/app.py:76-91 | the per-symbol sums determine the four dictionaries, so any correct result is the fold's |
| Positions.PositionsAgree | mi_proyecto/app/app.py:82-91 | the four dictionaries share one key set; every count is positive; every total sum is the total stock plus the total income |
| Positions.TallyIncrement | mi_proyecto/app/app.py:82-88 | incrementing a count, or starting one at 1, raises the sum of the counts by one |
| Positions.FoldedCountsAddUp | mi_proyecto/app/app.py:76-93 | the counts add up to the number of rows whose conversions succeed |
| Positions.CountsBoundedByRows | mi_proyecto/app/app.py:71-93 | the sum of `symbol_counts` is at most the number of rows folded, with equality exactly when every row converts |
| Positions.FoldError | mi_proyecto/app/app.py:76-93 | the fold raises nothing when the `Symbol`, `Quantity` and `Average Price` columns all exist, or when there are no rows |
| Positions.FoldErrorStep | mi_proyecto/app/app.py:77-80 | after a clean prefix, the next row raises `KeyError` for `Symbol`, then `Quantity`, then `Average Price` (read only once the quantity converted) |
| Positions.FoldErrorPersists | mi_proyecto/app/app.py:76-93 | the first exception raised ends the fold: the whole fold raises it |
| Positions.AddPosition | mi_proyecto/app/app.py:82-91 | the four in-place updates for a converting row, `+=` on a present key and `=` on a new one, perform exactly one fold step |
| Positions.FoldPositions | mi_proyecto/app/app.py:76-93 | the row loop either raises the first escaping exception, or returns four dictionaries holding, for exactly the symbols with a converting row, the count and the three sums |
| EquitySymbols.EquityColumn | mi_proyecto/app/app.py:98 | the selected `Symbol` column holds exactly the symbols of the `Equity` rows |
| EquitySymbols.FirstEquityRow | mi_proyecto/app/app.py:98 | the index of the first `Equity` row of a symbol: that row is an `Equity` row of the symbol and no earlier row is |
| EquitySymbols.FirstEquityRowAppend | mi_proyecto/app/app.py:98 | appending rows does not change the first `Equity` row of a symbol that already has one |
| EquitySymbols.EquityColumnKeepsOrder | mi_proyecto/app/app.py:98 | the selected column keeps the ledger's row order: of two symbols, the one that occurs first in the column is exactly the one whose first `Equity` row comes first |
| EquitySymbols.Unique | mi_proyecto/app/app.py:98 | `unique()` has no duplicates and the same values as its input |
| EquitySymbols.UniqueKeepsFirstOrder | mi_proyecto/app/app.py:98 | `unique()` lists values in the order of their first occurrence |
| EquitySymbols.GetEquitySymbolsSpec | mi_proyecto/app/app.py:96-100 | `[]` without the `Symbol` or `Instrument Type` column. Otherwise: every symbol of an `Equity` row, once each, ordered by the position of each symbol's first `Equity` row in the ledger |
| Engine.ProcessCsv | mi_proyecto/app/app.py:24-94 | a read failure returns its message. Otherwise the first escaping exception (dividend `ValueError`, then `KeyError('Date')`, an unparseable `Date`, an empty `dates`, then the fold's `KeyError`s) is raised. Otherwise the summary holds the date triples, the dividend sums, and the window counts and per-symbol sums, which are 0 and empty without an `Instrument Type` column |
| Engine.SummaryFacts | mi_proyecto/app/app.py:30-94 | in every completed run the date triples are ordered spans and the two window counts fit in the ledger. The four dictionaries share keys, with positive counts and total = stock + income. The counts add up to at most `num_equity_actions`, with equality exactly when every in-window `Equity` row converts |
| Engine.ExampleNoOtherDates | mi_proyecto/app/app.py:39-44 | text columns with no parseable cell add no triple |
| Engine.ExampleRange | mi_proyecto/app/app.py:45-53 | a `Date` column of days 100, 110, 120 gives the triple (100, 120, 20) |
| Engine.ExampleTriples | mi_proyecto/app/app.py:39-53 | the worked ledger's `dates` is that single triple |
| Engine.ExampleEquityWindow | mi_proyecto/app/app.py:70-71 | in the worked ledger, both `Equity` rows fall inside the window and the option row does not count as equity |
| Engine.ExampleOptionWindow | mi_proyecto/app/app.py:73-74 | in the worked ledger, only the `Equity Option` row counts as an option |
| Engine.ExampleFold | mi_proyecto/app/app.py:76-91 | of the worked ledger's two `Equity` rows only the converting one is folded: ABC has count 1, stock 10, income 10 * 2.5 = 25 and total 35 |
| Engine.ExampleTallies | mi_proyecto/app/app.py:76-91 | the dictionaries `{ABC: 1}`, `{ABC: 10}`, `{ABC: 25}`, `{ABC: 35}` are the correct fold of the worked ledger's window |
| Engine.ExampleSummary | mi_proyecto/app/app.py:24-94 | the worked ledger raises nothing. Its only possible summary has the single triple (100, 120, 20), 2 equity actions, 1 equity option, those dictionaries and no dividends |

## Left out

- The Flask routes `index`, `upload_file`, `uploaded_file` and `download_csv`, `secure_filename` and `app.run`: HTTP, templates and file serving.
- Creating the upload and static folders at import time: filesystem side effects.
- `pd.read_csv`: the model takes its result as input, either a ledger or the text of the exception. The read-failure tuple is `Outcome.ReadError` with the message; its trailing zeros and empty dictionaries are implied.
- `pd.to_datetime`, dtype inference and `float(...)` are foreign parsing. Each column carries its `object` flag and its coerced dates, and each row its converted cells; a conversion that raises is `None` or `Unparseable`. The model does not relate the two views of the same cells, which pandas derives from one file.
- Dates are whole day numbers, so a time of day inside a date is not modelled; `(last - first).days` is the difference of day numbers.
- Numbers are exact reals: floating-point rounding, NaN and infinities are not modelled.
- An empty numeric cell: pandas reads it as NaN, and `float()` accepts NaN. Such a row is folded in the position loop (its count goes up by one and its sums become NaN), and it does not raise in the dividend loop. The model's `None` cell stands only for a cell that `float()` rejects, so it cannot represent such a row.
- A NaN `Symbol` (an empty cell) is a dictionary key in pandas and Python; the model takes the symbol as the loader's string.
- `lower()` is modelled on ASCII letters; no other character lower-cases to 'c', 's' or 'v', so the comparison with "csv" is unaffected.
- `dates` is modelled as a sequence of triples rather than the flat list `[first, last, days, first, last, days, ...]`; `dates[0]` and `dates[1]` are the first triple's bounds.
- `strftime` formatting of the two dates for display.
- The iteration order of the four position dictionaries and of `symbol_dividends`: Python dicts keep insertion order (the first converting, or first dividend, row of each symbol), which a caller can observe; Dafny `map`s are unordered, so the model promises the keys and values but not that order.
