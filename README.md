# FMU Electronics bill generator — a Dafny model

The app is a single-screen React Native form. The user types a customer name and a list of line
items (name, quantity, price, all kept as text). The screen shows a running total. "Generate Bill"
validates the form and turns it into an invoice document that is printed to PDF and shared.

This project models the logic of that form and of the invoice document, and proves what they
promise:

- `items.dfy` (module `Items`): a line item `{id, name, quantity, price}` and the three fields the
  row inputs edit.
- `app.dfy` (module `App`), for `app/index.tsx`:
  - The class `BillForm` owns the customer name and the item list. It has `AddItem`, `UpdateItem`
    and `RemoveItem`, as the component's `setItems` updaters change the list. Its invariant says
    the list is never empty and its ids are distinct.
  - Each updater body is a pure function (`Updated`, `Removed`) with lemmas about it.
  - `Validate` and `Submit` model the checks `handlePrint` makes before it calls `printToPdf`;
    `IsValidItem` is the callback of its item filter.
  - `LiveTotal` is the on-screen `totalAmount`, with its zero fallback for NaN products.
- `pdf_generator.dfy` (module `PdfGenerator`), for `utils/pdfGenerator.ts`: the invoice document
  as a datatype. It holds the customer field, the date, the invoice number `INV-dddd`, one table
  row per item (serial number, name, quantity, unit price, line total) and the grand total.
- `js_numbers.dfy` (module `JsNumbers`): the JavaScript number operations the two files use.
  These are `parseInt`, `parseFloat`, `*`, `+` and `x || 0`. NaN is `None` in `Num = Option<real>`.
- `text.dfy` (module `Text`): `String.prototype.trim` with the ECMAScript whitespace set, the
  decimal numeral of a natural number, and `padStart`.
- `sequences.dfy` (module `Sequences`): `Array.prototype.filter` with its order-preserving
  properties. `wrappers.dfy`: `Option` and `Result`.

Some members carry no `ensures` of their own and are described by the lemmas in the table. They
are `Removed` (the `filter` in `removeItem`), `ValidItems` (the `filter` in `handlePrint`),
`LiveTotal` (`totalAmount`), `ParseInt`/`ParseFloat`, `Trim`/`IsBlank` and `InvoiceNumber`.

Inputs from outside the program are parameters:
- the item id that `Date.now()` produced (`BillForm.AddItem(now)`);
- the date string that `toLocaleDateString` produced;
- the value `Math.random()` returned, a real in `[0, 1)`.

## Model

| member | source | states |
|---|---|---|
| `App.BillForm.constructor` | app/index.tsx:29-32 | the form starts with an empty customer name and exactly one item, id 1, with empty name, quantity and price; the invariant holds |
| `App.BillForm.SetCustomerName` | app/index.tsx:131 | the customer name becomes the typed text; the items are unchanged |
| `App.BillForm.AddItem` | app/index.tsx:41-45 | the list grows by exactly one empty item carrying the fresh id; earlier items and their order are unchanged; the invariant (non-empty, distinct ids) is kept |
| `App.BillForm.UpdateItem` | app/index.tsx:52-58 | the list becomes `Updated(old list, id, field, value)`; the customer name is unchanged; the invariant is kept |
| `App.BillForm.RemoveItem` | app/index.tsx:63-73 | refused exactly when at most one item is listed, and then nothing changes; otherwise the list becomes the filtered list; the list stays non-empty with distinct ids |
| `App.BillForm.HandlePrint` | app/index.tsx:75-91 | pressing "Generate Bill" yields the result of `Submit` on the current name and items |
| `Items.Item.With` | app/index.tsx:56 | `{...item, [field]: value}` sets that field to the value and keeps the id and the other two fields |
| `App.Updated` | app/index.tsx:54-57 | the length and order are kept; every item whose id matches has the field replaced; every other item is unchanged |
| `App.UpdateFieldwise` | app/index.tsx:55-57 | after an update every id is in place; a field changes only when it is the named field of an item with the given id, and then it equals the value |
| `App.UpdateAbsent` | app/index.tsx:55-57 | updating an id no item carries leaves the list unchanged |
| `App.RemoveKeepsOthers` | app/index.tsx:65-66 | with more than one item, no kept item has the id, every item with another id is kept, and the result splits over any split of the input, so the order is preserved |
| `App.RemoveDeletesOne` | app/index.tsx:66 | with distinct ids and more than one item, removing the id at position k gives the list without position k |
| `App.RemoveAbsent` | app/index.tsx:65-66 | removing an id no item carries leaves the list unchanged |
| `App.RemoveKeepsList` | app/index.tsx:63-73 | for a non-empty list with distinct ids, removal leaves a non-empty list with distinct ids |
| `App.SharedIdEmptiesList` | app/index.tsx:63-66 | two items sharing an id are removed together, so the guard alone does not keep the list non-empty |
| `App.IsValidItem` | app/index.tsx:81-83 | the filter callback: an item is valid exactly when none of its name, quantity and price is whitespace only, so a field holding only spaces counts as missing |
| `App.ValidWhenFieldsStartNonBlank` | app/index.tsx:81-83 | an item whose name, quantity and price each start with a non-whitespace character passes the filter |
| `App.Validate` | app/index.tsx:75-88 | the checks sit in `handlePrint`, before `printToPdf` is called: the form is refused with `MissingCustomerName` exactly when the customer name is blank after `trim()`; it is accepted exactly when the name is not blank and at least one item is valid; otherwise it is refused with `NoValidItems`; on success the result is the valid items, in order, non-empty |
| `App.Submit` | app/index.tsx:75-91 | submitting fails exactly when validation fails, with the same error; on success it is the invoice of the valid items, with one row per valid item and at least one row |
| `App.Contribution` | app/index.tsx:103 | an item adds its price × quantity to the running total, or 0 when that product is NaN |
| `App.BillForm.TotalAmount` | app/index.tsx:100-106 | the total shown under the rows is the running total of the current items, and it equals the bill's grand total whenever that is a number |
| `App.LiveTotalAppend` | app/index.tsx:100-106 | the running total of a concatenation is the sum of the running totals |
| `App.LiveTotalSkipsNaN` | app/index.tsx:103 | an item whose product is NaN changes nothing in the running total, wherever it stands |
| `App.LiveTotalAddEmpty` | app/index.tsx:41-45 | adding the empty item leaves the running total unchanged |
| `App.PrintedTotalMatchesLive` | utils/pdfGenerator.ts:135-141 | whenever the printed grand total is a number, it equals the running total of the same items |
| `App.LiveAndPrintedDiverge` | app/index.tsx:81-106 | a priced row without a name counts in the running total (70) but is missing from the bill (60) |
| `App.DecimalPriceTotal` | app/index.tsx:100-106 | 3 × "20" plus 2 × "5.5" gives a running total of 71 |
| `App.BlankCustomerRefused` | app/index.tsx:76-79 | a whitespace-only customer name is refused whatever the items are |
| `App.NamelessItemRefused` | app/index.tsx:81-88 | a single item with an empty name leaves no valid item, and the form is refused |
| `App.SingleItemInvoice` | utils/pdfGenerator.ts:117-141 | the invoice for one item, 2 × "100", has one row with serial 1, line total 200 and grand total 200 |
| `PdfGenerator.LineTotal` | utils/pdfGenerator.ts:125-127 | a line total is a number exactly when both the price and the quantity parse |
| `PdfGenerator.TableRows` | utils/pdfGenerator.ts:117-131 | one row per item, in order; row i has serial number i + 1, the item's name and quantity text verbatim, the parsed price and the line total |
| `PdfGenerator.GrandTotal` | utils/pdfGenerator.ts:135-141 | the grand total is a number exactly when every line total is one; unlike the running total there is no zero fallback, so one NaN line total makes the printed total NaN |
| `PdfGenerator.GrandTotalSumsRows` | utils/pdfGenerator.ts:125-141 | the grand total equals the sum from the left, starting at 0, of the line totals shown in the table |
| `PdfGenerator.Draw` | utils/pdfGenerator.ts:99-101 | `floor(random × 10000)` lies in 0..9999 and is the floor of the scaled draw |
| `PdfGenerator.InvoiceNumberFormat` | utils/pdfGenerator.ts:99-103 | the invoice number is `INV-` and exactly four decimal digits that read back as the draw, with a leading zero exactly when the draw is below 1000 |
| `PdfGenerator.BuildInvoice` | utils/pdfGenerator.ts:13-141 | `printToPdf` receives only the items `handlePrint` let through; the document shows the customer name and date verbatim, the invoice number `INV-` plus four digits that read back as the draw `floor(random × 10000)`, the table rows above and a grand total that is the sum of the row totals |
| `JsNumbers.Mul` | utils/pdfGenerator.ts:126 | a product is NaN exactly when an operand is NaN |
| `JsNumbers.Add` | utils/pdfGenerator.ts:138 | a sum is NaN exactly when an operand is NaN |
| `JsNumbers.OrZero` | app/index.tsx:103 | the fallback to 0 turns NaN into 0 and keeps every number's value |
| `JsNumbers.ParsersSkipLeadingWhitespace` | app/index.tsx:103 | `parseInt` and `parseFloat` depend only on the text after the leading whitespace |
| `JsNumbers.BlankIsNaN` | app/index.tsx:103 | a blank field parses to NaN under both parsers |
| `JsNumbers.ScanDigitRun` | utils/pdfGenerator.ts:126 | reading a run of decimal digits onto an accumulated value shifts it by the run's length and adds the run's value |
| `JsNumbers.ParseDigits` | utils/pdfGenerator.ts:126 | a non-empty digit string parses, under both parsers, to its decimal value |
| `JsNumbers.ParseNumeral` | app/index.tsx:103 | `parseInt(String(n)) === n` and `parseFloat(String(n)) === n` for every natural n |
| `Text.TrimStartSpec` | app/index.tsx:76 | trimming the start removes a whitespace-only prefix and stops at the first non-whitespace character |
| `Text.TrimEndSpec` | app/index.tsx:76 | trimming the end removes a whitespace-only suffix and stops at the last non-whitespace character |
| `Text.BlankIffAllWhitespace` | app/index.tsx:76 | `!s.trim()` holds exactly when s consists of whitespace only, the empty string included |
| `Text.NotBlank` | app/index.tsx:82 | a string starting with a non-whitespace character is not blank |
| `Text.TrimIsCore` | app/index.tsx:82 | `trim()` returns a contiguous piece of its input whose first and last characters are not whitespace |
| `Text.NatToStringValue` | utils/pdfGenerator.ts:102 | the decimal numeral of n reads back as n |
| `Text.NatToStringLength` | utils/pdfGenerator.ts:99-103 | a numeral has at most k digits exactly when the number is below 10^k |
| `Text.LeadingZeros` | utils/pdfGenerator.ts:103 | zeros padded in front of a numeral do not change its value |
| `Text.PadStart` | utils/pdfGenerator.ts:103 | `padStart` gives the longer of the string and the width, ends with the string, and fills the front with the fill character |
| `Sequences.Filter` | app/index.tsx:81-83 | a filter keeps only elements of the input that pass the test, and never grows |
| `Sequences.FilterKeeps` | app/index.tsx:81-83 | every element that passes the test is kept |
| `Sequences.FilterConcat` | app/index.tsx:66 | filtering distributes over concatenation, so it keeps the input order |
| `Sequences.FilterEmptyIff` | app/index.tsx:85 | a filter's result is empty exactly when no element passes |
| `Sequences.FilterDropsOne` | app/index.tsx:66 | when exactly one element fails, filtering deletes exactly that element |

## Left out

- Layout, styles, fonts (`useFonts`), haptics, `scrollToEnd` and `setTimeout` are left out. They are user-interface effects with no bearing on the list or the document.
- The `Alert.alert` dialogs are left out. Validation alerts are the `SubmitError` values, and the removal alert is `RemoveItem`'s `refused` result.
- `Print.printToFileAsync`, `Sharing.shareAsync` and the success and failure handling around `printToPdf` are platform I/O. The model stops at the assembled document.
- `formatCurrency` is not part of this model. The rows and the total carry the numbers handed to it, not its text.
- The HTML and CSS text of the invoice is constant boilerplate, as are the header, proprietor and footer blocks. The document is modelled by its fields. The customer name is inserted unescaped, so the model's customer field is the name verbatim.
- `JsNumbers.ParseFloat`: the exponent part (`1e3`) and `Infinity` are not read. Such text yields the value of its longest exponent-free decimal prefix, or NaN.
- JavaScript numbers are modelled as exact reals, and `parseInt` returns exact integers. IEEE-754 rounding, overflow to `Infinity`, `-0` and the precision limit of 2^53 are not modelled.
- `App.BillForm.AddItem` requires an id that no listed item carries. The source takes ids from `Date.now()`, which does not guarantee that two adds get different ids; `SharedIdEmptiesList` shows what a repeated id does to removal.
- `App.BillForm.UpdateItem`: the field is one of name, quantity and price. TypeScript's `keyof Item` also admits `"id"`, but no caller passes it.
- `removeItem` reads `items.length` from the memoized closure of the last render. The model reads the current list, leaving out React's update scheduling.
- `components/ItemRow.tsx` and `components/CustomTextInput.tsx` are presentational. They only forward text changes to `updateItem` and `removeItem`.
