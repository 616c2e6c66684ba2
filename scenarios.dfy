/**
 * Worked examples: the one-line widget order whose invoice is split into
 * CGST and SGST or charged as IGST, and request sequences against a store.
 */
module Scenarios {
  import opened Wrappers
  import opened Models
  import opened Tax
  import opened Orders
  import opened Invoicing
  import opened Payments
  import opened Views

  /** The catalogue of the examples: one widget at 1000.00 with 18% tax; its seller is user 2. */
  function Catalogue(): map<ItemId, Item> {
    map[1 := Item("widget", 1000.0, 18.0, Some(2))]
  }

  /** Two widgets cost 2000.00 before tax and 2360.00 in total. */
  lemma WidgetOrderTotals()
    ensures Resolve(Catalogue(), [LineEntry(Some(1), Given(2))]) == Ok([OrderLine(1, 2)])
    ensures Resolve(Catalogue(), [LineEntry(Some(1), Null)]) == Ok([OrderLine(1, 1)])
    ensures Subtotal(Catalogue(), [OrderLine(1, 2)]) == 2000.0
    ensures Subtotal(Catalogue(), [OrderLine(1, 2)]) + TaxTotal(Catalogue(), [OrderLine(1, 2)]) == 2360.0
  {
    var two := [LineEntry(Some(1), Given(2))];
    assert 1 in Catalogue() && EntryResolves(Catalogue(), two[0]);
    var r := Resolve(Catalogue(), two);
    assert r.value[0] == OrderLine(1, 2) && r.value == [r.value[0]];
    var one := [LineEntry(Some(1), Null)];
    assert EntryResolves(Catalogue(), one[0]);
    var r' := Resolve(Catalogue(), one);
    assert r'.value[0] == OrderLine(1, 1) && r'.value == [r'.value[0]];
    SingleLineTotals(Catalogue(), OrderLine(1, 2));
  }

  /** Buyer and seller both in MH: CGST and SGST at 9% each, 180.00 each. */
  lemma IntraStateWidget()
    ensures LineTax(18.0, 1000.0, 2) == 360.0
    ensures AllocateTax("MH", Some("MH"), 18.0, 360.0) == ItemDetails(None, Some(9.0), Some(9.0), 0.0, 180.0, 180.0)
  {
  }

  /** Seller in KA, buyer in MH: IGST at 18%, 360.00, the same tax as the intra-state split. */
  lemma InterStateWidget()
    ensures AllocateTax("MH", Some("KA"), 18.0, 360.0) == ItemDetails(Some(18.0), None, None, 360.0, 0.0, 0.0)
  {
  }

  /** An order with an empty item list is refused with 417 and creates no row. */
  method EmptyOrderRejected(s: Store, buyer: UserId, today: Date) returns (r: Response)
    requires s.Valid()
    modifies s
    ensures r == ExpectationFailed && StatusCode(r) == 417
    ensures unchanged(s)
  {
    r := s.CreateOrder(OrderPayload(Some(buyer), Some([])), today);
  }

  /**
   * Paying twice with the same transaction id while the first is still
   * INITIATED: the first is accepted, the second is refused with 403.
   */
  method PayTwice(s: Store, txnId: string, orderId: OrderId, formatDecimal: real -> string, sha512: string -> string)
    returns (first: Response, second: Response)
    requires s.Valid() && orderId in s.orders && s.orders[orderId].paymentStatus != PAID
    requires s.orders[orderId].buyer.Some? && txnId !in s.transactions
    modifies s
    ensures first == Done && second == Forbidden && StatusCode(second) == 403
    ensures txnId in s.transactions && s.transactions[txnId].status == INITIATED
    ensures orderId in s.orders && s.orders[orderId].paymentStatus == IN_PROCESS
  {
    first := s.MakePayment(txnId, orderId, formatDecimal, sha512);
    second := s.MakePayment(txnId, orderId, formatDecimal, sha512);
  }

  /** A SUCCESS callback marks the order PAID; every later callback is refused with 417. */
  method CallbackAfterSuccess(s: Store, txnId: string, later: string) returns (first: Response, second: Response)
    requires s.Valid() && txnId in s.transactions && s.transactions[txnId].status == INITIATED
    modifies s
    ensures first == Redirect(SuccessPage) && second == ExpectationFailed
    ensures txnId in s.transactions && s.transactions[txnId].status == SUCCESS
    ensures s.transactions[txnId].order in s.orders && s.orders[s.transactions[txnId].order].paymentStatus == PAID
  {
    first := s.SaveTransactionStatus(txnId, SUCCESS);
    second := s.SaveTransactionStatus(txnId, later);
  }

  /** A "FAILED" callback is stored but does not settle the transaction: a second one is accepted again. */
  method RepeatedFailedCallback(s: Store, txnId: string) returns (first: Response, second: Response)
    requires s.Valid() && txnId in s.transactions && s.transactions[txnId].status == INITIATED
    modifies s
    ensures first == second == Redirect(FailurePage)
    ensures txnId in s.transactions && s.transactions[txnId].status == FAILED
  {
    first := s.SaveTransactionStatus(txnId, FAILED);
    second := s.SaveTransactionStatus(txnId, FAILED);
  }

  /** Generating an invoice twice for an order leaves exactly one of its invoices active. */
  method InvoiceTwice(s: Store, orderId: OrderId) returns (first: Response, second: Response)
    requires s.Valid()
    modifies s
    ensures second.Created? ==> ActiveInvoices(s.invoices, orderId) == {second.id}
    ensures first.Created? ==> second.Created?
  {
    first := s.CreateInvoice(orderId);
    second := s.CreateInvoice(orderId);
  }
}
