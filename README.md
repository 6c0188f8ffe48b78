# Point-of-sale register, modelled in Dafny

This is a model of the `POS` component of a one-screen point-of-sale app,
together with what it exports. An operator fills in three form fields
(product name, quantity, price) and adds the item to the current
transaction. Saving commits the current items, under the current date, to
the log of transactions. The log can be exported in three ways:

- a PDF report: one table per transaction, with its number, date and total;
- a spreadsheet: one row per product, each carrying its transaction's date;
- a PDF ticket for one transaction: its products, the accumulated total,
  and a file name built from the date.

The model has five modules:

- `Sale` (`sale.dfy`): line items (`Product`), transactions, numeric form
  fields, and the transaction total. The total is the `reduce` over stored
  line totals, written as a left fold from 0.
- `Register` (`register.dfy`): class `Pos`. Its fields are the five React
  state hooks. Its methods are the handlers that assign them.
- `Report` (`report.dfy`): the row-building loop and the per-transaction
  loop of the PDF report.
- `Tickets` (`ticket.dfy`): the ticket's accumulator loop and the
  file-name sanitiser.
- `Spreadsheet` (`spreadsheet.dfy`): the map-and-flatten into sheet rows.

Modelling choices:

- Quantities and prices are exact `real`s, so `total = quantity * price`
  and all sums are exact.
- The quantity and price inputs hold either the empty string or a number
  (`Field = Blank | Entered(v)`). `Number('')` is 0, so adding a product
  with an empty field gives quantity or price 0. The source does not reject
  this, and neither does the model.
- The save date is a parameter of `SaveTransaction`. The exporters take the
  transaction log (or one transaction) as a parameter.
- `Pos.Valid()` is the invariant that every stored line total equals
  quantity times price. The constructor establishes it and every handler
  keeps it.

## Model

| member | source | states |
|---|---|---|
| Register.Pos.constructor | src/pos.js:8-12 | The register starts with no transactions, an empty current transaction and three empty form fields. |
| Register.Pos.SetProductName | src/pos.js:108 | The name input sets `productName` and changes no other field. |
| Register.Pos.SetQuantity | src/pos.js:116 | The quantity input sets `quantity` and changes no other field. |
| Register.Pos.SetPrice | src/pos.js:124 | The price input sets `price` and changes no other field. |
| Register.Pos.AddProduct | src/pos.js:14-25 | The current transaction grows by exactly one item at the end and earlier items are unchanged. The new item carries the form's name, `Number(quantity)` and `Number(price)`, and its total is quantity times price. The three form fields are reset to empty. `transactions` is unchanged. Every line total still equals quantity times price. |
| Register.Pos.SaveTransaction | src/pos.js:27-34 | Exactly one transaction is appended to the log. Its products are the pre-save current items and its date is the given date. Earlier transactions are unchanged. The current transaction is empty afterwards, and an empty transaction can be saved too. The form fields are unchanged. |
| Sale.TotalOfNothing | src/pos.js:57 | The total of a transaction with no products is 0. |
| Sale.TotalAppend | src/pos.js:163 | The reduce total of two item lists joined together is the sum of their totals. |
| Sale.TotalIsCharged | src/pos.js:15-20 | When each stored total is quantity times price, the reduce total equals the sum of quantity times price over the items. |
| Report.TableRows | src/pos.js:42-52 | One row per product, in product order. Each row holds that product's name, quantity, price and total. |
| Report.GenerateReport | src/pos.js:40-58 | One section per transaction, in log order. Section i is numbered i+1 and holds that transaction's rows, its date and its reduce total. |
| Tickets.PrintTicket | src/pos.js:63-83 | The ticket lists one entry per product in order. The accumulator loop ends with `totalAmount` equal to the reduce total used by the report and the view. The ticket carries the transaction's date and the file name `ticket_<sanitised date>.pdf`. |
| Tickets.Sanitize | src/pos.js:82 | The sanitised date has the same length as the date. Each `:` or space becomes `_` and every other character is kept. |
| Tickets.SanitizeReplacesOnlySeparators | src/pos.js:82 | No `:` or space is left. A character is unchanged exactly when it was not a separator. |
| Tickets.SanitizeIdempotent | src/pos.js:82 | Sanitising twice gives the same result as sanitising once. |
| Tickets.FileNameIsSafe | src/pos.js:82 | The ticket file name contains no `:` and no space, whatever the date. |
| Spreadsheet.FlattenLength | src/pos.js:86-91 | The sheet has as many rows as there are products across all transactions. |
| Spreadsheet.FlattenAt | src/pos.js:86-91 | Product j of transaction i is at row (number of products in transactions before i) + j, so rows go in transaction-then-product order. That row carries the product's fields and its own transaction's date. |
| Spreadsheet.FlattenSource | src/pos.js:86-91 | Every sheet row is some product j of some transaction i, at that position, stamped with that transaction's date. |
| Spreadsheet.FlattenAppend | src/pos.js:86-91 | Flattening a log that was extended puts the old rows first, then the new transactions' rows. After a save, the sheet gains exactly the saved products at the end. |
| Spreadsheet.SheetMatchesReport | src/pos.js:86-91 | Each sheet row has the same name, quantity, price and total as the matching PDF report row. Its date is the date printed under that report table. |

## Left out

- Rendering (src/pos.js:99-171): the JSX layout, labels, empty-list messages and buttons. The input change handlers are modelled as setters.
- React's `useState` mechanism, including batched and asynchronous state updates. Each handler's updates are modelled as immediate field assignments.
- PDF and spreadsheet production. The model does not cover jsPDF/autoTable text placement and y-coordinate arithmetic, including the no-op `yOffset += 0`. It does not cover building the XLSX workbook and sheet, or writing the files. The model describes only the data handed to these libraries.
- The wall-clock, locale-formatted date of a save. It is a parameter of the model.
- `Number(...)` on arbitrary text, and its NaN results. The number inputs hold either nothing or a number, and only those two cases are modelled.
- IEEE-754 floating-point rounding of products and sums. The model uses exact reals.
- Editing or deleting an item, persisting the log to local storage, and closing the day. These behaviours are not in the modelled component, so they are not modelled.
