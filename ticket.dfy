/** The content of the purchase ticket printed for one saved transaction:
    one entry per product, the accumulated total, the date, and the name
    of the file it is saved under, "ticket_<date>.pdf" with every ':' and
    space of the date turned into '_'. */
module Tickets {
  import opened Sale
  import opened Report

  datatype Ticket = Ticket(entries: seq<Row>, totalAmount: real, date: string, fileName: string)

  /** A separator of a locale-formatted date that is not safe in a file name. */
  predicate IsSeparator(c: char)
  {
    c == ':' || c == ' '
  }

  function SafeChar(c: char): char
  {
    if IsSeparator(c) then '_' else c
  }

  /** `date.replace(/[: ]/g, '_')`. */
  function Sanitize(s: string): (r: string)
    ensures |r| == |s|
    ensures forall i :: 0 <= i < |s| ==> r[i] == SafeChar(s[i])
  {
    if s == [] then [] else [SafeChar(s[0])] + Sanitize(s[1..])
  }

  function FileName(date: string): string
  {
    "ticket_" + Sanitize(date) + ".pdf"
  }

  /** The sanitised date has no separator left, and every character that
      was not a separator is kept in place. */
  lemma SanitizeReplacesOnlySeparators(s: string)
    ensures forall i :: 0 <= i < |s| ==> !IsSeparator(Sanitize(s)[i])
    ensures forall i :: 0 <= i < |s| ==> (Sanitize(s)[i] == s[i] <==> !IsSeparator(s[i]))
  {
  }

  /** Sanitising an already sanitised date changes nothing. */
  lemma SanitizeIdempotent(s: string)
    ensures Sanitize(Sanitize(s)) == Sanitize(s)
  {
  }

  /** The ticket's file name holds no ':' and no space, whatever the date. */
  lemma FileNameIsSafe(date: string)
    ensures forall i :: 0 <= i < |FileName(date)| ==> !IsSeparator(FileName(date)[i])
  {
  }

  /** `handlePrintTicket`: one `forEach` over the products that prints each
      product's fields and adds its total to `totalAmount`. */
  method PrintTicket(transaction: Transaction) returns (ticket: Ticket)
    ensures ticket.entries == Rows(transaction.products)
    ensures ticket.totalAmount == Total(transaction.products)
    ensures ticket.date == transaction.date
    ensures ticket.fileName == FileName(transaction.date)
  {
    var products := transaction.products;
    var entries: seq<Row> := [];
    var totalAmount := 0.0;
    for index := 0 to |products|
      invariant |entries| == index
      invariant forall k :: 0 <= k < index ==> entries[k] == RowOf(products[k])
      invariant totalAmount == Total(products[..index])
    {
      var product := products[index];
      entries := entries + [RowOf(product)];
      assert products[..index + 1][..index] == products[..index];
      totalAmount := totalAmount + product.total;
    }
    assert products[..|products|] == products;
    ticket := Ticket(entries, totalAmount, transaction.date, FileName(transaction.date));
  }
}
