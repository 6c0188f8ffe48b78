/** Line items and transactions of the point-of-sale register, and the
    transaction total that the PDF report, the on-screen list and the
    ticket all show. Prices and quantities are exact reals: the register
    computes with JavaScript numbers, whose rounding is not modelled. */
module Sale {

  /** A line item: `{productName, quantity, price, total}`. */
  datatype Product = Product(productName: string, quantity: real, price: real, total: real)

  /** A committed transaction: `{products, date}`; the date is the
      locale-formatted commit time, kept as an opaque string. */
  datatype Transaction = Transaction(products: seq<Product>, date: string)

  /** A numeric form field: either the empty string it starts and is reset
      to, or the number the operator typed into it. */
  datatype Field = Blank | Entered(value: real)

  /** `Number(field)`: the empty string converts to 0. */
  function ToNumber(f: Field): real
  {
    match f
    case Blank => 0.0
    case Entered(v) => v
  }

  /** The line total is the quantity times the unit price. */
  predicate WellFormed(p: Product)
  {
    p.total == p.quantity * p.price
  }

  predicate AllWellFormed(items: seq<Product>)
  {
    forall i :: 0 <= i < |items| ==> WellFormed(items[i])
  }

  /** `items.reduce((sum, product) => sum + product.total, 0)`: a left fold
      over the stored line totals, starting from 0. */
  function Total(items: seq<Product>): real
  {
    if items == [] then 0.0 else Total(items[..|items| - 1]) + items[|items| - 1].total
  }

  /** Independent reference for the amount charged: the sum, item by item,
      of quantity times price, without looking at the stored totals. */
  function Charged(items: seq<Product>): real
  {
    if items == [] then 0.0 else items[0].quantity * items[0].price + Charged(items[1..])
  }

  /** The total of a transaction without products is 0, the initial value
      of the reduce. */
  lemma TotalOfNothing()
    ensures Total([]) == 0.0
  {
  }

  /** The total of two item lists back to back is the sum of their totals. */
  lemma {:induction false} TotalAppend(s: seq<Product>, t: seq<Product>)
    ensures Total(s + t) == Total(s) + Total(t)
  {
    if t == [] {
      assert s + t == s;
    } else {
      var t' := t[..|t| - 1];
      assert (s + t)[..|s + t| - 1] == s + t';
      TotalAppend(s, t');
    }
  }

  /** When every stored total is quantity times price, the reduce sum is the
      amount charged for the items. */
  lemma {:induction false} TotalIsCharged(items: seq<Product>)
    requires AllWellFormed(items)
    ensures Total(items) == Charged(items)
  {
    if items != [] {
      var rest := items[1..];
      assert items == [items[0]] + rest;
      TotalAppend([items[0]], rest);
      assert [items[0]][..0] == [];
      assert Total([items[0]]) == items[0].total;
      assert AllWellFormed(rest) by {
        forall i | 0 <= i < |rest| ensures WellFormed(rest[i]) {
          assert rest[i] == items[i + 1];
        }
      }
      TotalIsCharged(rest);
      assert WellFormed(items[0]);
    }
  }
}
