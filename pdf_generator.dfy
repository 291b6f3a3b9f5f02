/**
  The invoice document `printToPdf` assembles, taken structurally: the customer, date and
  invoice-number block, one table row per item and the grand total. The HTML and CSS around
  them are constant text and are not represented.
*/
module PdfGenerator {
  import opened Wrappers
  import opened Text
  import opened JsNumbers
  import opened Items

  /** One table row: serial number, item name, quantity text, unit price and line total. */
  datatype Row = Row(serialNumber: nat, name: string, quantity: string, unitPrice: Num, lineTotal: Num)

  datatype Invoice = Invoice(
    date: string,
    customer: string,
    invoiceNumber: string,
    rows: seq<Row>,
    grandTotal: Num)

  /** `parseFloat(item.price) * parseInt(item.quantity)`. */
  function LineTotal(item: Item): (r: Num)
    ensures r.Some? <==> ParseFloat(item.price).Some? && ParseInt(item.quantity).Some?
  {
    Mul(ParseFloat(item.price), FromInt(ParseInt(item.quantity)))
  }

  /** The table body for `items`: the row for the item at index `i` carries serial number `i + 1`. */
  function TableRows(items: seq<Item>): (rows: seq<Row>)
    ensures |rows| == |items|
    ensures forall i :: 0 <= i < |items| ==>
      && rows[i].serialNumber == i + 1
      && rows[i].name == items[i].name
      && rows[i].quantity == items[i].quantity
      && rows[i].unitPrice == ParseFloat(items[i].price)
      && rows[i].lineTotal == LineTotal(items[i])
  {
    if items == [] then []
    else
      var last := items[|items| - 1];
      TableRows(items[..|items| - 1]) + [Row(|items|, last.name, last.quantity, ParseFloat(last.price), LineTotal(last))]
  }

  /** `items.reduce((sum, item) => sum + line total, 0)`: NaN as soon as one line total is NaN. */
  function GrandTotal(items: seq<Item>): (r: Num)
    ensures r.Some? <==> forall i :: 0 <= i < |items| ==> LineTotal(items[i]).Some?
  {
    if items == [] then Some(0.0)
    else Add(GrandTotal(items[..|items| - 1]), LineTotal(items[|items| - 1]))
  }

  /** The sum, from the left and starting at 0, of the line totals shown in a table. */
  function SumLineTotals(rows: seq<Row>): Num {
    if rows == [] then Some(0.0)
    else Add(SumLineTotals(rows[..|rows| - 1]), rows[|rows| - 1].lineTotal)
  }

  /** The printed grand total is the sum of the line totals printed in the table. */
  lemma {:induction false} GrandTotalSumsRows(items: seq<Item>)
    ensures GrandTotal(items) == SumLineTotals(TableRows(items))
  {
    if items != [] {
      var init := items[..|items| - 1];
      var rows := TableRows(items);
      GrandTotalSumsRows(init);
      assert rows[..|rows| - 1] == TableRows(init);
    }
  }

  /** `Math.floor(random * 10000)` for a draw `0 <= random < 1` of `Math.random()`. */
  function Draw(random: real): (n: nat)
    requires 0.0 <= random < 1.0
    ensures n < 10000
    ensures n as real <= random * 10000.0 < n as real + 1.0
  {
    (random * 10000.0).Floor
  }

  /** `"INV-" + n.toString().padStart(4, "0")`. */
  function InvoiceNumber(n: nat): string {
    "INV-" + PadStart(NatToString(n), 4, '0')
  }

  /**
    For every draw below 10000 the invoice number is `INV-` and exactly four decimal digits
    that read back as the draw, with a leading zero exactly when the draw is below 1000.
  */
  lemma {:induction false} InvoiceNumberFormat(n: nat)
    requires n < 10000
    ensures var s := InvoiceNumber(n);
      && |s| == 8 && s[..4] == "INV-" && AllDigits(s[4..])
      && DigitsValue(s[4..]) == n
      && (s[4] == '0' <==> n < 1000)
  {
    var numeral := NatToString(n);
    var digits := PadStart(numeral, 4, '0');
    var s := InvoiceNumber(n);
    NatToStringLength(n, 4);
    NatToStringLength(n, 3);
    assert s[4..] == digits;
    var zeros := digits[..4 - |numeral|];
    assert digits == zeros + numeral;
    LeadingZeros(zeros, numeral);
    NatToStringValue(n);
  }

  /**
    The document `printToPdf(customerName, items)` renders, for the date the device reports
    and the value `random` that `Math.random()` returned.
  */
  function BuildInvoice(customerName: string, items: seq<Item>, date: string, random: real): (doc: Invoice)
    requires 0.0 <= random < 1.0
    ensures doc.customer == customerName && doc.date == date
    ensures doc.invoiceNumber == InvoiceNumber(Draw(random))
    ensures |doc.invoiceNumber| == 8 && doc.invoiceNumber[..4] == "INV-" && AllDigits(doc.invoiceNumber[4..])
    ensures DigitsValue(doc.invoiceNumber[4..]) == Draw(random)
    ensures |doc.rows| == |items|
    ensures forall i :: 0 <= i < |items| ==>
      && doc.rows[i].serialNumber == i + 1
      && doc.rows[i].name == items[i].name
      && doc.rows[i].quantity == items[i].quantity
      && doc.rows[i].unitPrice == ParseFloat(items[i].price)
      && doc.rows[i].lineTotal == LineTotal(items[i])
    ensures doc.grandTotal == SumLineTotals(doc.rows) == GrandTotal(items)
  {
    InvoiceNumberFormat(Draw(random));
    GrandTotalSumsRows(items);
    Invoice(date, customerName, InvoiceNumber(Draw(random)), TableRows(items), GrandTotal(items))
  }
}
