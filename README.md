# OSAKA AUTO PARTS billing: a Dafny model

This project models the billing logic of the OSAKA AUTO PARTS billing app
(`autopart_app.py`). A catalog of parts is read from an uploaded spreadsheet.
The user types a product code and a quantity, and the app finds the product
and appends a line item to the bill. Items can be removed by index. The net
total is the sum of the line totals. When the bill and the four customer
fields are filled in, the app draws a PDF invoice.

The model has five modules:

- `Wrappers` (`wrappers.dfy`): `Option` and `Result`.
- `Numerals` (`numerals.dfy`): the two Python built-ins the code applies to
  integers. `ParseInt` is `int(s)` in base 10: it strips the six ASCII white
  space characters (tab, line feed, vertical tab, form feed, carriage return, space),
  takes an optional sign, then digits with single underscores between them.
  Anything else is the `ValueError`, modelled as `Failure(InvalidCodeFormat)`.
  `IntToString` is `str(n)`.
- `Catalog` (`catalog.dfy`): spreadsheet rows and `product_lookup`. The
  filter `df[df['Product Code'] == int(code)]` is `Matching`. Taking
  `iloc[0]` is the head of that list. `(None, None)` is `Success(None)`.
- `Billing` (`billing.dfy`): the line item record, the decision taken by the
  "Add Product" button (`Admit`), the net total, and the class
  `BillingSession`. Its field `items` is the list kept in the session state.
  `Add` appends to it, and `Remove` pops from it.
- `Invoice` (`invoice.dfy`): what `generate_pdf` draws, as a list of lines.
  Each line holds the texts of the cells drawn on it (a cell drawn with
  `ln=True` ends its line). `GenerateInvoice` adds the guard that the
  "Generate Invoice" button applies first.

Prices are whole numbers in the spreadsheet's own unit. For an integer-valued
`Price` column, `price * quantity`, the net total and `str(price)` agree with the
source as long as every value fits in 64 bits (the column holds `numpy.int64`);
the model's integers are unbounded.

Some behaviours of the code that a reader might not expect, all modelled as written:

- The add guard tests that the quantity is truthy (`quantity != 0`). It does not test `quantity >= 1`.
- The app has no separate "not found" error. A missing product, an empty
  description and a zero price all give the same "Invalid Product Code."
  answer. So an existing product priced 0 cannot be billed (`FreeProductRefused`).
- A code that `int` cannot read raises an exception, which the page's catch-all reports. This is `CodeUnreadable`.

## Model

| member | source | states |
|---|---|---|
| `Numerals.ParseInt` | autopart_app.py:8 | `int(product_code)` in base 10; a text it reads has, once its surrounding white space is stripped, a decimal digit as its last character, so an empty or blank code is always a `ValueError` |
| `Numerals.ParseIntOfIntToString` | autopart_app.py:8 | `int` reads back what `str` prints for any integer, so a printed code parses to that code |
| `Numerals.FileSeparatorIsNotSpace` | autopart_app.py:8 | a code starting with any of the control characters 0x1C-0x1F is not stripped as white space and makes `int` fail |
| `Numerals.NoDigitNoParse` | autopart_app.py:8 | a text with no decimal digit in it always makes `int` fail |
| `Numerals.ValueOfNatToString` | autopart_app.py:45-47 | the digits `str` prints for a natural number denote that number |
| `Numerals.NatToString` | autopart_app.py:45-47 | `str` of a natural number is a non-empty string of digits with no leading zero, and `"0"` is the only text it prints for 0 |
| `Numerals.IntToString` | autopart_app.py:45-47 | `str` of an integer is non-empty and starts with `-` exactly when the integer is negative |
| `Catalog.Matching` | autopart_app.py:8 | the filtered table holds only catalog rows with the code, and every row with the code is in it |
| `Catalog.MatchingHead` | autopart_app.py:8-10 | the first row of the filtered table is the first catalog row with that code |
| `Catalog.ProductLookup` | autopart_app.py:6-11 | lookup fails exactly when `int` fails; it answers `None` exactly when no row has the code; otherwise it gives the description and price of the first row with the code, even when later rows share it |
| `Catalog.FirstMatchExists` | autopart_app.py:8-10 | any row with the code means some row is the first one with it |
| `Catalog.LookupFoundIsFirstRow` | autopart_app.py:9-10 | a found product is always the pair of the first matching row, never a partial or mixed result |
| `Catalog.LookupPrintedCode` | autopart_app.py:6-11 | looking up the printed code of a row finds that row's description and price, when no earlier row has the code |
| `Catalog.LookupNonNumeric` | autopart_app.py:8 | a code with no digit is a format error, not a not-found answer |
| `Billing.Admit` | autopart_app.py:83-99 | the add is refused for an empty code or zero quantity, and fails when `int` fails; an added item is admitted, keeps the raw code text and the quantity, and is built from the first row with the code, which must have a non-empty description and a non-zero price, with total = price * quantity |
| `Billing.AdmitBillable` | autopart_app.py:85-94 | when the first row for the code has a non-empty description and non-zero price, the add succeeds with exactly that row's item |
| `Billing.AdmitRefusesUnbillable` | autopart_app.py:86-97 | a readable code for which no row is found, or whose row has an empty description or a zero price, is refused as an invalid product code |
| `Billing.FreeProductRefused` | autopart_app.py:86 | an existing product priced 0 is refused as an invalid product code |
| `Billing.NetTotal` | autopart_app.py:118 | the sum of the item totals, added from the first item on: 0 for no items, the item's total for one item, and additive over concatenation by `NetTotalConcat` |
| `Billing.NetTotalConcat` | autopart_app.py:118 | the net total of two lists put together is the sum of their net totals |
| `Billing.NetTotalRemove` | autopart_app.py:113-118 | removing item `i` lowers the net total by exactly that item's total |
| `Billing.AppendAdmitted` | autopart_app.py:87-88 | appending an admitted item keeps every item admitted and raises the net total by price * quantity |
| `Billing.BillingSession.constructor` | autopart_app.py:71-72 | a new session has no items and net total 0 |
| `Billing.BillingSession.Add` | autopart_app.py:83-99 | the outcome is `Admit`'s. On success, exactly that one item is appended at the end, earlier items are unchanged, and the net total grows by price * quantity. Any other outcome leaves the list unchanged. Every item stays admitted |
| `Billing.BillingSession.Remove` | autopart_app.py:108-113 | an index in `[0, len)` removes that one item, the rest keep their relative order, the length drops by one and the net total drops by that item's total |
| `Invoice.CustomerLines` | autopart_app.py:28-32 | the customer block is five lines: a title and the four labelled fields |
| `Invoice.ItemRow` | autopart_app.py:43-47 | an item row has five cells: code, description, quantity, price, total |
| `Invoice.ItemRows` | autopart_app.py:42-47 | one row per item, row `i` being item `i`'s, in list order |
| `Invoice.InvoiceLines` | autopart_app.py:21-51 | letterhead, customer block, table header, one row per item in list order, then the `Net Total:` line carrying the passed-in total |
| `Invoice.RowReadBack` | autopart_app.py:45-47 | the quantity, price and total cells read back with `int` as the item's numbers |
| `Invoice.InvoiceReadBack` | autopart_app.py:36-51 | row `i` of the table gives back item `i` (code, description, quantity, price, total) and the last cell gives back the net total |
| `Invoice.GenerateInvoice` | autopart_app.py:133-135 | an invoice exists exactly when the item list is non-empty and all four customer fields are filled; it is then exactly `InvoiceLines` of the customer, the items and their net total, so it has one row per item in list order and its last cell reads back as the session's net total |

## Left out

- Streamlit widgets, reruns, success and error messages, the data preview and the download button are UI and are not modelled (autopart_app.py:57-145).
- `pd.read_excel` and the missing-column failure of the upload are not modelled. The catalog is an already-loaded `seq<Row>`.
- Floating-point prices and `str` of floats are not modelled. Neither are non-string descriptions such as NaN, whose truthiness differs from an empty string's.
- `ParseInt` covers ASCII-only texts. When a text holds a non-ASCII character, `int` first maps non-ASCII white space to spaces and non-ASCII decimal digits to ASCII digits; ASCII characters, 0x1C-0x1F included, pass through unchanged. That mapping is not modelled.
- `Numerals.ParseInt` has no digit limit. Python 3.11 and later raise `ValueError` for a decimal text of more than 4300 digits, so such a code reaches the catch-all in the source but gets a lookup answer in the model.
- `Billing.NetTotal` and `Billing.Admit` use unbounded integers. With `numpy.int64` prices, `price * quantity` and the sum wrap around past 2^63 - 1 in the source; the model does not wrap.
- The quantity widget's `min_value=1` clamp is UI. The model keeps any integer quantity and the source's `quantity != 0` guard.
- `Billing.BillingSession.Remove` requires an index in `[0, len)`, because the select box only offers those indices.
- FPDF page set-up, fonts, cell widths, borders, alignment, blank spacing lines, `pdf.output` and the Latin-1 encoding are not modelled. The same holds for the encoding failure on characters outside Latin-1.
- Exceptions other than the `int` failure, which reach the catch-all at autopart_app.py:146-147, are not modelled.
