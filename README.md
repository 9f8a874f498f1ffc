# Invoice calculation model

A Dafny model of the calculation core of a small tax-invoice generator. The
program's `Invoice` class takes shop details, customer details and a list of
item dictionaries. It turns each item into a calculated entry: a serial number,
the description ("particulars"), the HSN classification code, the quantity as a
string, the rate and the amount. It then derives the subtotal, the tax (the
subtotal times a tax rate that defaults to 0.1) and the total. It also builds
an invoice number from a fixed prefix and a random id, and stamps an invoice
date that doubles as the due date.

Files:

- `wrappers.dfy`: `Option` for dictionary keys that may be absent, and
  `Result` for a computation that may raise.
- `decimal.dfy`: Python's `str` on integers (`IntToString`), `int` on
  the numerals it prints (`ParseInt`), the round trips in both directions
  and the injectivity lemma.
- `invoice.dfy`: the item and invoice records and the rest of the model.
  - `CalculateItems` is the `calculate_items` loop.
  - `CalculatedList` is the function that specifies the loop.
  - `InvoiceOf` specifies construction, and `NewInvoice` performs it step by step.
  - The lemmas cover the per-entry facts, the error cases, the subtotal, the
    invoice number, and two worked cases.

Modelling choices:

- An item dictionary is a `RawItem` whose four keys are each `Option`s.
  - A missing `quantity` becomes 1 and a missing `rate` becomes 0.
  - A missing `particulars` or `hsn` raises a `KeyError` naming that key.
  - The code reads `particulars` before `hsn`, and the first offending item
    decides which error is raised.
- Construction that raises yields no invoice. So `NewInvoice` returns
  `Result<Invoice, KeyError>`.
- An invoice's fields never change after construction, so `Invoice` is a
  datatype record.
- Quantities, rates, amounts and the subtotal are unbounded integers. The tax
  rate, the tax and the total are exact `real`s, and the default rate is
  exactly one tenth.
- The random id and the formatted clock reading are parameters (`uniqueId`,
  `timestamp`).
- The shop and customer details are stored unchanged. They are modelled as
  string-to-string maps.

The code does not clamp quantities or rates: a quantity of 0 stays 0 and a
negative rate stays negative (`NoClamping`). The only defaults are the ones for
missing keys. There is also no operation that adds an item after construction:
the constructor takes the whole list.

## Model

| member | source | states |
|---|---|---|
| `Decimal.IntToString` | main.py:45 | `str(x)` is non-empty and starts with a minus sign exactly when `x` is negative |
| `Decimal.IntToStringCanonical` | main.py:45 | `str(x)` is canonical: an optional minus sign, then digits with no leading zero unless the numeral is "0" |
| `Decimal.ParseIntOfIntToString` | main.py:45 | reading back the stored quantity string gives the quantity used: `int(str(x)) == x` |
| `Decimal.IntToStringOfParseInt` | main.py:45 | every canonical numeral is what `str` prints for its value: `str(int(s)) == s`, so `str` and `int` are inverse between integers and canonical numerals |
| `Decimal.IntToStringInjective` | main.py:42 | two integers print the same numeral exactly when they are equal |
| `Invoicing.CalculateItem` | main.py:38-47 | building one entry fails exactly when `particulars` or `hsn` is missing. The KeyError names `particulars` when that key is missing, and `hsn` otherwise |
| `Invoicing.CalculateItemEntry` | main.py:38-47 | a built entry's serial number is str(position) and reads back as the position. Description and code are copied. Quantity and rate are the given values or the defaults 1 and 0. The amount equals stored quantity times stored rate |
| `Invoicing.CalculatedListOkIff` | main.py:41-44 | `calculate_items` succeeds if and only if every item has both `particulars` and `hsn` |
| `Invoicing.CalculatedListEntries` | main.py:36-49 | on success there is exactly one entry per item, in input order, and the k-th entry is built from the k-th item with serial number k+1 |
| `Invoicing.CalculatedListError` | main.py:37-44 | when item k is the first one lacking a required key, the result is that item's KeyError, whatever follows it |
| `Invoicing.CalculatedEntry` | main.py:37-47 | entry k has `sl_no` = str(k+1) and copies `particulars` and `hsn` unchanged. Its stored quantity is str(quantity used), which is "1" when quantity is missing. Its rate is the given one, or 0 when missing, and its amount is quantity times rate |
| `Invoicing.SerialNumbersDistinct` | main.py:37-42 | no two entries share a serial number |
| `Invoicing.CalculateItems` | main.py:35-49 | the enumerate-and-append loop returns exactly `CalculatedList(items)`, including the early KeyError |
| `Invoicing.SubtotalOfCalculated` | main.py:24 | the sum of the entries' amounts equals the sum, over the raw items, of quantity times rate with defaults applied |
| `Invoicing.InvoiceNumber` | main.py:28-30 | the invoice number is the prefix `YOUR/INV/24-25/001-` followed by the id, with nothing else |
| `Invoicing.InvoiceNumberRoundTrip` | main.py:28-30 | the id can be read back from the invoice number |
| `Invoicing.IdOfInvoiceNumber` | main.py:28-30 | every string from which the id can be read back is the invoice number built from that id, so reading the id and building the number are inverse in both directions |
| `Invoicing.InvoiceNumberInjective` | main.py:29-30 | distinct ids give distinct invoice numbers |
| `Invoicing.InvoiceOfFails` | main.py:23 | construction succeeds exactly when every item has both required keys. Otherwise it raises the same KeyError as `calculate_items` |
| `Invoicing.InvoiceOfFields` | main.py:15-26 | a constructed invoice stores its inputs unchanged. Its due date equals its invoice date (the timestamp), and its number starts with the prefix and carries the id. It has one entry per item, and every entry's amount is stored quantity times rate. The subtotal is the sum of amounts, the tax is subtotal times tax rate, and the total is subtotal plus tax |
| `Invoicing.EmptyInvoice` | main.py:24-26 | with no items the subtotal, tax and total are all zero |
| `Invoicing.NewInvoice` | main.py:15-26 | the constructor's steps, with `calculate_items` run as a loop, produce exactly `InvoiceOf`, the invoice or the KeyError |
| `Invoicing.SampleInvoiceTotals` | main.py:65-71 | the two sample items (2 × 100 and 1 × 200) at the default tax rate give amounts 200 and 200, subtotal 400, tax 40 and total 440 |
| `Invoicing.NoClamping` | main.py:38-40 | a quantity of 0 is kept (stored "0", amount 0) and a negative rate is kept (rate −10 with quantity 3 gives amount −30) |

## Left out

- PDF construction (document template, logo, paragraphs, tables, styles, colours, `doc.build`): a foreign rendering library and file output.
- Font registration and the logo asset: filesystem input.
- `uuid.uuid4()` and `datetime.now()`: nondeterministic. The id and the formatted timestamp are parameters, so the `%d/%m/%Y %I:%M %p` layout of the date is not modelled.
- The output file name `invoice_<timestamp>.pdf` and the final console message: script plumbing.
- Two-decimal currency formatting of rates, amounts and totals: float-to-string rendering.
- Python float arithmetic: tax and total use exact rationals. The model makes no claim about rounding of `subtotal * 0.1`. It also has no OverflowError: in Python, `self.subtotal * self.tax_rate` with a float tax rate first converts the int subtotal to a float, and that raises OverflowError once |subtotal| is about 2**1024 or more.
- Invoicing.InvoiceOfFails: its "succeeds exactly when every item has both required keys" ignores two other ways `__init__` can raise. A subtotal too large to convert to a float raises OverflowError at main.py:25 (the tax rate is a float, as the default 0.1 is). A quantity of more than 4300 digits raises ValueError from `str` at main.py:45. The model returns an invoice in both cases, and so does `InvoiceOfFields`.
- Invoicing.NewInvoice: it yields the invoice or the KeyError only. The OverflowError at main.py:25 and the ValueError at main.py:45 described for `InvoiceOfFails` are not modelled.
- Decimal.IntToString: has no digit limit. On Python 3.11 and later, and in some security releases of 3.7 to 3.10, `str` of an int with more than 4300 digits raises ValueError by default (the `int_max_str_digits` limit). So in Python a quantity that large makes `str(quantity)` fail, and with it `calculate_items` and construction. In the model it never fails, and `CalculateItem`, `CalculatedList` and `InvoiceOf` return a result. `ParseIntOfIntToString` is stated for integers of every size for the same reason.
- Item values that are not integers (float quantities or rates, or other types a dictionary may hold): quantities and rates are integers only.
- Sharing with the caller: `__init__` keeps references to the caller's `items` list and detail dicts. Later changes the caller makes to them show in `invoice.items` and `invoice.shop_details`, while `calculated_items` and the totals keep their values from construction. The model's `Invoice` is a value, so `WellFormed` describes the invoice as constructed only.
- The module-level sample data is not modelled as a script. It appears only as the worked case `SampleInvoiceTotals`.
