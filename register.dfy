/** The state of the `POS` component: the transaction being assembled, the
    log of saved transactions, and the three entry-form fields. Each React
    state hook becomes a field; each handler that calls the setters becomes
    a method that assigns the fields. */
module Register {
  import opened Sale

  class Pos {
    var transactions: seq<Transaction>
    var currentTransaction: seq<Product>
    var productName: string
    var quantity: Field
    var price: Field

    /** Every line item, pending or saved, has total == quantity * price. */
    ghost predicate Valid()
      reads this
    {
      AllWellFormed(currentTransaction) &&
      forall i :: 0 <= i < |transactions| ==> AllWellFormed(transactions[i].products)
    }

    /** The initial hook values: two empty lists and three empty fields. */
    constructor ()
      ensures Valid()
      ensures transactions == [] && currentTransaction == []
      ensures productName == "" && quantity == Blank && price == Blank
    {
      transactions := [];
      currentTransaction := [];
      productName := "";
      quantity := Blank;
      price := Blank;
    }

    /** The name input's change handler. */
    method SetProductName(name: string)
      requires Valid()
      modifies this
      ensures Valid()
      ensures productName == name
      ensures quantity == old(quantity) && price == old(price)
      ensures currentTransaction == old(currentTransaction) && transactions == old(transactions)
    {
      productName := name;
    }

    /** The quantity input's change handler. */
    method SetQuantity(f: Field)
      requires Valid()
      modifies this
      ensures Valid()
      ensures quantity == f
      ensures productName == old(productName) && price == old(price)
      ensures currentTransaction == old(currentTransaction) && transactions == old(transactions)
    {
      quantity := f;
    }

    /** The price input's change handler. */
    method SetPrice(f: Field)
      requires Valid()
      modifies this
      ensures Valid()
      ensures price == f
      ensures productName == old(productName) && quantity == old(quantity)
      ensures currentTransaction == old(currentTransaction) && transactions == old(transactions)
    {
      price := f;
    }

    /** Builds a line item from the form, appends it to the current
        transaction and clears the form. Nothing is validated: an empty
        name or an empty field (read as 0) is accepted. */
    method AddProduct()
      requires Valid()
      modifies this
      ensures Valid()
      ensures |currentTransaction| == |old(currentTransaction)| + 1
      ensures currentTransaction[..|old(currentTransaction)|] == old(currentTransaction)
      ensures currentTransaction[|old(currentTransaction)|].productName == old(productName)
      ensures currentTransaction[|old(currentTransaction)|].quantity == ToNumber(old(quantity))
      ensures currentTransaction[|old(currentTransaction)|].price == ToNumber(old(price))
      ensures WellFormed(currentTransaction[|old(currentTransaction)|])
      ensures productName == "" && quantity == Blank && price == Blank
      ensures transactions == old(transactions)
    {
      var newProduct := Product(productName, ToNumber(quantity), ToNumber(price),
                                ToNumber(quantity) * ToNumber(price));
      currentTransaction := currentTransaction + [newProduct];
      productName := "";
      quantity := Blank;
      price := Blank;
    }

    /** Commits the current items under the given date and starts an empty
        transaction. There is no emptiness check: an empty transaction is
        saved like any other. */
    method SaveTransaction(date: string)
      requires Valid()
      modifies this
      ensures Valid()
      ensures transactions == old(transactions) + [Transaction(old(currentTransaction), date)]
      ensures currentTransaction == []
      ensures productName == old(productName) && quantity == old(quantity) && price == old(price)
    {
      var newTransaction := Transaction(currentTransaction, date);
      transactions := transactions + [newTransaction];
      currentTransaction := [];
    }
  }
}
