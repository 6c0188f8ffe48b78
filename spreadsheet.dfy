/** The rows of the spreadsheet export ("reporte_transacciones.xlsx"):
    every product of every saved transaction, each extended with the date
    of the transaction it belongs to. Building the sheet and writing the
    file are the spreadsheet library's and are not modelled. */
module Spreadsheet {
  import opened Sale
  import opened Report

  /** `{...product, date: transaction.date}`. */
  datatype SheetRow = SheetRow(productName: string, quantity: real, price: real, total: real, date: string)

  const SHEET_NAME := "Transacciones"
  const SHEET_FILE_NAME := "reporte_transacciones.xlsx"

  function Stamp(p: Product, date: string): SheetRow
  {
    SheetRow(p.productName, p.quantity, p.price, p.total, date)
  }

  /** `transaction.products.map(product => ({...product, date}))`. */
  function StampAll(t: Transaction): seq<SheetRow>
  {
    seq(|t.products|, j requires 0 <= j < |t.products| => Stamp(t.products[j], t.date))
  }

  /** `transactions.map(StampAll).flat()`: the stamped product lists of all
      transactions, concatenated in log order. */
  function Flatten(ts: seq<Transaction>): seq<SheetRow>
  {
    if ts == [] then [] else StampAll(ts[0]) + Flatten(ts[1..])
  }

  /** The number of products across all transactions. */
  function ProductCount(ts: seq<Transaction>): nat
  {
    if ts == [] then 0 else |ts[0].products| + ProductCount(ts[1..])
  }

  /** One spreadsheet row per product, no more and no fewer. */
  lemma {:induction false} FlattenLength(ts: seq<Transaction>)
    ensures |Flatten(ts)| == ProductCount(ts)
  {
    if ts != [] {
      FlattenLength(ts[1..]);
    }
  }

  /** Product `j` of transaction `i` lands at row `ProductCount(ts[..i]) + j`,
      after all products of earlier transactions, with its own
      transaction's date. */
  lemma {:induction false} FlattenAt(ts: seq<Transaction>, i: nat, j: nat)
    requires i < |ts| && j < |ts[i].products|
    ensures ProductCount(ts[..i]) + j < |Flatten(ts)|
    ensures Flatten(ts)[ProductCount(ts[..i]) + j] == Stamp(ts[i].products[j], ts[i].date)
  {
    if i == 0 {
      assert ts[..0] == [];
    } else {
      var rest := ts[1..];
      assert ts[..i][0] == ts[0];
      assert ts[..i][1..] == rest[..i - 1];
      FlattenAt(rest, i - 1, j);
    }
  }

  /** Conversely, every spreadsheet row is some product `j` of some
      transaction `i`, stamped with that transaction's date. */
  lemma {:induction false} FlattenSource(ts: seq<Transaction>, k: nat) returns (i: nat, j: nat)
    requires k < |Flatten(ts)|
    ensures i < |ts| && j < |ts[i].products|
    ensures k == ProductCount(ts[..i]) + j
    ensures Flatten(ts)[k] == Stamp(ts[i].products[j], ts[i].date)
  {
    if k < |ts[0].products| {
      i, j := 0, k;
      assert ts[..0] == [];
    } else {
      var rest := ts[1..];
      var i', j' := FlattenSource(rest, k - |ts[0].products|);
      i, j := i' + 1, j';
      assert ts[..i][0] == ts[0];
      assert ts[..i][1..] == rest[..i'];
    }
  }

  /** Exporting a longer log appends the new transactions' rows after the
      old ones; in particular saving a transaction adds exactly its
      products at the end of the sheet. */
  lemma {:induction false} FlattenAppend(a: seq<Transaction>, b: seq<Transaction>)
    ensures Flatten(a + b) == Flatten(a) + Flatten(b)
  {
    if a == [] {
      assert a + b == b;
    } else {
      assert (a + b)[0] == a[0];
      assert (a + b)[1..] == a[1..] + b;
      FlattenAppend(a[1..], b);
    }
  }

  /** The spreadsheet and the PDF report agree: the sheet row of product `j`
      of transaction `i` carries the cells of row `j` of that transaction's
      report table and the date printed under it. */
  lemma SheetMatchesReport(ts: seq<Transaction>, i: nat, j: nat)
    requires i < |ts| && j < |ts[i].products|
    ensures ProductCount(ts[..i]) + j < |Flatten(ts)|
    ensures var row := Flatten(ts)[ProductCount(ts[..i]) + j];
      var section := SectionOf(i, ts[i]);
      j < |section.rows| &&
      row.productName == section.rows[j].productName &&
      row.quantity == section.rows[j].quantity &&
      row.price == section.rows[j].price &&
      row.total == section.rows[j].total &&
      row.date == section.date
  {
    FlattenAt(ts, i, j);
  }
}
