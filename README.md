# Sales control: session state, registration, sale entry and report totals

The application is a three-page form tool for small sellers. One browser
session holds two tables. The **catalog** has rows (name, description) and the
**sales ledger** has rows (product, quantity, unit price, receivable percent,
receivable amount, date). Both tables start empty and only grow:

- **Product registration** refuses a name that is blank after `strip()`.
  Otherwise it appends the name and description exactly as typed.
- **Sale entry** shows its form only once the catalog has a product. The
  product is picked from the catalog's names (duplicates included). The
  receivable `quantity * price * (percent / 100)` is previewed and then saved
  with the row. Submitting always appends one row.
- **Reports** show a warning while the ledger is empty. Otherwise they show the
  whole ledger and three totals: units sold, value sold (the sum of
  quantity × price) and receivable (the sum of the saved amounts).

The project has three modules:

- `Strings` (strings.dfy): Python's `str.strip()` over the whitespace set of
  `str.isspace()`, and the blank-name test.
- `Ledger` (ledger.dfy): the row types, the receivable amount, the three
  totals as recursive sums, and lemmas about them.
- `App` (session.dfy): the `Session` class whose `seq` fields stand for the two
  session-state tables; the `Register` and `RecordSale` handlers; the session
  invariant with one preservation lemma per handler; `Render` for which view
  each page shows; and a worked example session.

Money is `real`, so there is no rounding. The sale form's widget minimums
(quantity ≥ 1, price ≥ 0, percent ≥ 0) become preconditions of `RecordSale`.
So does choosing the product from the catalog's names.

## Model

| member | source | states |
|---|---|---|
| `Strings.TrimStart` | app.py:52 | the result is a suffix of the input, everything removed is whitespace, and the result does not start with whitespace |
| `Strings.TrimEnd` | app.py:52 | the result is a prefix of the input, everything removed is whitespace, and the result does not end with whitespace |
| `Strings.Strip` | app.py:52 | `strip()` gives the empty string exactly when every character is whitespace; otherwise the result starts and ends with non-whitespace |
| `Strings.StripIsSlice` | app.py:52 | `strip()` returns the slice `s[i..j]` of its input whose prefix `s[..i]` and suffix `s[j..]` are all whitespace |
| `Strings.IsBlank` | app.py:52 | the registration guard `name.strip() == ""` holds exactly when every character of the name is whitespace |
| `Ledger.Receivable` | app.py:114 | the receivable `quantity * price * (percent / 100)` is `percent` percent of quantity × price: 100 times it equals quantity × price × percent |
| `Ledger.ReceivableShare` | app.py:114 | with the form's minimums the receivable is ≥ 0, and with percent ≤ 100 it is at most quantity × price |
| `Ledger.TotalQuantity` | app.py:152 | the sum of the "Quantidade" column; over rows the form produced it is at least the number of rows |
| `Ledger.TotalSold` | app.py:153-156 | the sum of quantity × price over the rows; over rows the form produced it is ≥ 0 |
| `Ledger.TotalReceivable` | app.py:157 | the sum of the stored "Valor a receber" column, not recomputed; over rows the form produced it is ≥ 0 |
| `Ledger.WellFormedAppend` | app.py:133-136 | appending a row the form produced keeps every ledger row well formed |
| `Ledger.TotalsConcat` | app.py:152-157 | each of the three totals of a concatenated ledger is the sum of the parts' totals |
| `Ledger.TotalsAppend` | app.py:152-157 | appending a row adds exactly its quantity, its quantity × price and its saved receivable to the three totals |
| `App.Names` | app.py:78-81 | the selector offers one entry per catalog row, in catalog order, each the row's name |
| `App.SalesNeedProducts` | app.py:75-81 | if every ledger row names a catalog product, an empty catalog means an empty ledger |
| `App.RegisterKeepsConsistent` | app.py:59-62 | appending a product whose name is not blank keeps the session invariant; the earlier sales stay listed |
| `App.SaleKeepsConsistent` | app.py:133-136 | appending a form-produced sale of a listed product keeps the session invariant |
| `App.Render` | app.py:40-157 | the registration page shows the catalog; the sale form appears exactly when the catalog is non-empty and offers `Names(products)`, the catalog names in catalog order, and exactly the listed names; the report appears exactly when the ledger is non-empty and shows the whole ledger with totals equal to `TotalQuantity`, `TotalSold` and `TotalReceivable` of it, which over form-produced rows are non-negative with total quantity ≥ row count |
| `App.Session.constructor` | app.py:13-28 | at session start both tables are empty and the invariant holds |
| `App.Session.Register` | app.py:51-62 | succeeds exactly when the name has a non-whitespace character; on success it appends `(name, description)` as typed, untrimmed, after the earlier rows; on failure the catalog is unchanged; the ledger is never touched |
| `App.Session.RecordSale` | app.py:114-136 | always appends exactly one row holding the inputs and the previewed receivable; earlier rows and the catalog are unchanged; each total grows by that row's term; the invariant is kept |
| `App.ExampleReport` | app.py:152-157 | the report for one sale of 3 units at 10.00 with 20 percent shows totals 3, 30.00 and 6.00 |

## Left out

- Page rendering (page config, sidebar, columns, titles, warning and success
  messages, table and metric widgets): user interface. `Render` keeps only
  which view each page shows and the data behind it.
- The Excel export (the in-memory buffer, the spreadsheet writer, the
  download button): a foreign library, a binary file format and I/O.
- `date.today()` as the date picker's default: a clock read. The date is an
  input value of type `Date`.
- Floating-point arithmetic and the `:.2f` / `%.1f` display formats: money is
  `real`, with no rounding.
- Widget step sizes (1, 0.01, 0.1): input granularity only. The minimums are
  kept as preconditions.
- pandas DataFrame behaviour (`concat`, `.empty`, column dtypes, column sums):
  the tables are sequences of records and the sums are recursive functions.
- The sale handler's own preconditions: `RecordSale` requires the product to be one of the catalog names
  and the inputs to respect the widget minimums. In the application the select
  box and the number inputs ensure both; there is no check in the handler itself.
