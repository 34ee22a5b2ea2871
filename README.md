# Quotation ledger and item table

A Dafny model of the logic inside the Shree Balaji Interiors quotation
generator (`app.py`). The app is a one-page form. It keeps a list of line items
(description, quantity, rate) that the user can grow and shrink, and it shows
a live grand total. On request, it turns the eligible rows into a PDF
quotation whose centre is an item table: a header, one numbered row per item
and a total row.

The model has four modules:

- `Items` (`items.dfy`): a line item, its operands and its amount. An operand
  is a number or `NonNumeric`; multiplying a `NonNumeric` operand raises. An
  item's amount is `qty * rate`, or 0 when the product raises. `Total` adds up
  these amounts from front to back, the same way both loops of the source do.
- `Session` (`session.dfy`): the ledger in the form's session state. It is a
  class over a `seq<Item>` whose invariant is "never empty". It has the
  initial row, `add_item`, `remove_item`, and the pass over the rows that writes
  each row's input values into it and adds up the live grand total.
- `ItemTable` (`item_table.dfy`): the row-building loop of
  `create_quotation_pdf`. It is an imperative loop proved against the
  predicate `IsItemTable`, which describes the whole table.
- `Generation` (`generation.dfy`): the generate action. It filters the ledger
  to the eligible rows and refuses when none remain. Otherwise it builds the
  table and the name and date lines. This module also holds the lemmas that
  relate the filter, the two totals and the row numbering.

Numbers are exact `real`s. Python floats and the `:,.2f` formatting are not
modelled.

Three points about how `app.py` behaves:

- The filter at line 205 tests a row's name first. Only when the name is
  non-empty does it evaluate `qty > 0`, and only when that is true does it
  evaluate `rate > 0`. A comparison that meets a non-numeric operand raises a
  type error. So a row with a name and a non-numeric quantity raises, and so
  does a row with a name, a positive quantity and a non-numeric rate. A row
  with quantity 0 and a non-numeric rate does not raise. `ComparisonRaises`
  states exactly this, and the model keeps the error as the outcome
  `FilterTypeError`. The form's number inputs make it unreachable in practice.
- As a consequence, the table builder's zero-amount fallback is never reached
  from the generate action. It is still modelled and proved for any items
  given to the builder.
- Equal totals do not mean every row is eligible. An ineligible row with zero
  quantity or rate adds 0 to the grand total and is absent from the document
  total. `DocumentTotalEqualsGrandTotalIff` proves the exact condition: with
  non-negative inputs, the totals are equal iff every ineligible row has
  amount 0.

## Model

| member | source | states |
|---|---|---|
| `Items.AmountOrZero` | app.py:90-94 | a row whose quantity or rate is not a number has amount 0; with non-negative operands the amount is non-negative |
| `Items.Total` | app.py:87-92 | the accumulated total of non-negative rows is non-negative |
| `Items.TotalAppend` | app.py:91-92 | adding one more row to the running total adds exactly that row's amount |
| `Session.Ledger.constructor` | app.py:154-156 | the ledger starts as exactly one row with empty name and zero quantity and rate, so it is non-empty |
| `Session.Ledger.AddItem` | app.py:158-160 | length grows by one, the new last row is blank, earlier rows are unchanged, the ledger stays non-empty |
| `Session.Ledger.RemoveItem` | app.py:162-165 | with one row nothing changes; otherwise exactly the row at `index` is removed and the others keep their order; never below one row |
| `Session.Ledger.RefreshRows` | app.py:173-187 | every row takes its input values, and the returned grand total is the sum of `qty * rate` over all rows, non-negative when the inputs are |
| `ItemTable.BuildItemTable` | app.py:77-107 | the table has `len(items) + 2` rows: header first, row k numbered k with item k's name, qty, rate and amount (0 if the product raised), total row last carrying the total of the amounts |
| `ItemTable.TotalRowSumsItemRows` | app.py:87-106 | the total row equals the sum of the amounts printed in the item rows; a failed row contributes 0 to both |
| `ItemTable.ItemTableIsUnique` | app.py:77-107 | the same items always give the same table |
| `Generation.ValidItems` | app.py:205 | the filter keeps no more rows than the ledger holds, and each row it keeps has a name and positive qty and rate |
| `Generation.ValidItemsIsEligibleSubsequence` | app.py:205 | the filter yields the rows at the eligible positions, in increasing order, and a position is kept iff its row is eligible |
| `Generation.ValidItemsEmptyIff` | app.py:205-208 | the filter is empty iff no row is eligible |
| `Generation.DocumentTotalAtMostGrandTotal` | app.py:173-187 | with quantities and rates at least 0, the live grand total over all rows is at least the document total over the filtered rows |
| `Generation.DocumentTotalEqualsGrandTotalIff` | app.py:173-187 | with quantities and rates at least 0, the two totals are equal iff every row left out of the document has amount 0 |
| `Generation.GenerateQuotation` | app.py:203-212 | a type error iff some comparison in the filter raises; refused iff otherwise no row is eligible; when generated, the name line is `Name <user>`, the date line carries today, and the table is the item table of the filtered rows |
| `Generation.RenumberingIsStable` | app.py:88-102 | the j-th eligible ledger row is printed as row j + 1, whatever ineligible rows precede it |
| `Generation.InitialLedgerIsRefused` | app.py:205-208 | the initial blank ledger raises nothing and filters to nothing, so generating from it is refused |
| `Generation.CabinetAndHandleExample` | app.py:77-107 | Cabinet 2 x 5000, a blank row and Handle 10 x 50 give rows 1 and 2 with amounts 10000 and 500 and a total of 10500 |

## Left out

- All PDF layout: styles, fonts, colours, padding, spans, grid, page template, building and rewinding the buffer (app.py:14-76, 109-147). The table is kept as row contents only.
- The fixed letterhead and the payment and material terms (app.py:35-44, 127-134). They are constant text.
- The Streamlit widgets, buttons, columns, messages, download button and rerun mechanics. Each widget's current value is a parameter (`RowInput`). Widget state kept under a per-position key (`name_{i}`) is not modelled.
- The clock. `today` is a parameter that is already formatted. The file name that embeds the date is not modelled.
- Float arithmetic and thousands-separator formatting. Amounts and totals are exact reals.
- Python dynamic typing beyond the explicit fallback, e.g. `str * int` repetition not raising. `NonNumeric` stands for an operand on which both `*` and `>` raise.
- Session.Ledger.RemoveItem: takes a non-negative in-range index only. Python's `pop` also accepts negative indices, but the form never passes one.
- Session.Ledger.RefreshRows: updates a local copy of the rows and stores it in the ledger once, at the end of the pass. The source updates each row's record in place during the loop. Nothing reads the ledger during the pass, so the final state is the same.
