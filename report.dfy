/** The content of the PDF report of all saved transactions
    ("reporte_transacciones.pdf"): per transaction its number, one table row
    per product, its date and its total. Page layout (coordinates, fonts)
    and the PDF bytes are the formatting library's and are not modelled. */
module Report {
  import opened Sale

  /** A table row `[productName, quantity, price, total]`. */
  datatype Row = Row(productName: string, quantity: real, price: real, total: real)

  /** One report section: the "Transacción n" heading number, the table, the
      "Fecha" line and the "Total" line. */
  datatype Section = Section(number: nat, rows: seq<Row>, date: string, total: real)

  const REPORT_FILE_NAME := "reporte_transacciones.pdf"

  function RowOf(p: Product): Row
  {
    Row(p.productName, p.quantity, p.price, p.total)
  }

  /** The rows of a table, one per product, in product order. */
  function Rows(products: seq<Product>): seq<Row>
  {
    seq(|products|, i requires 0 <= i < |products| => RowOf(products[i]))
  }

  /** The section of the transaction at position `index` (0-based). */
  function SectionOf(index: nat, t: Transaction): Section
  {
    Section(index + 1, Rows(t.products), t.date, Total(t.products))
  }

  /** The inner `forEach` of the report: push one row per product. */
  method TableRows(products: seq<Product>) returns (tableRows: seq<Row>)
    ensures |tableRows| == |products|
    ensures forall i :: 0 <= i < |products| ==>
      tableRows[i].productName == products[i].productName &&
      tableRows[i].quantity == products[i].quantity &&
      tableRows[i].price == products[i].price &&
      tableRows[i].total == products[i].total
    ensures tableRows == Rows(products)
  {
    tableRows := [];
    for i := 0 to |products|
      invariant |tableRows| == i
      invariant forall k :: 0 <= k < i ==> tableRows[k] == RowOf(products[k])
    {
      tableRows := tableRows + [RowOf(products[i])];
    }
  }

  /** The outer `forEach` of the report: one section per saved transaction,
      numbered from 1, in log order. */
  method GenerateReport(transactions: seq<Transaction>) returns (sections: seq<Section>)
    ensures |sections| == |transactions|
    ensures forall i :: 0 <= i < |transactions| ==> sections[i] == SectionOf(i, transactions[i])
  {
    sections := [];
    for index := 0 to |transactions|
      invariant |sections| == index
      invariant forall k :: 0 <= k < index ==> sections[k] == SectionOf(k, transactions[k])
    {
      var transaction := transactions[index];
      var tableRows := TableRows(transaction.products);
      sections := sections + [Section(index + 1, tableRows, transaction.date, Total(transaction.products))];
    }
  }
}
