/**
 * Invoice generation: the buyer's and each seller's state, the invoice
 * lines of an order with their tax breakdowns, and how creating an invoice
 * retires the order's earlier invoices.
 */
module Invoicing {
  import opened Wrappers
  import opened Models
  import opened Tax
  import opened Orders

  /**
   * The buyer's state: following a null buyer raises AttributeError, a buyer
   * without an address raises DoesNotExist.
   */
  function BuyerState(addresses: map<UserId, Address>, buyer: Option<UserId>): (r: Result<string, Failure>)
    ensures buyer.None? ==> r == Err(AttributeError)
    ensures buyer.Some? && buyer.value !in addresses ==> r == Err(DoesNotExist)
    ensures buyer.Some? && buyer.value in addresses ==> r == Ok(addresses[buyer.value].state)
  {
    match buyer
    case None => Err(AttributeError)
    case Some(b) => if b in addresses then Ok(addresses[b].state) else Err(DoesNotExist)
  }

  /**
   * The state of an item's seller: none for an item without a seller;
   * a seller without an address raises DoesNotExist.
   */
  function SellerState(items: map<ItemId, Item>, addresses: map<UserId, Address>, id: ItemId)
    : (r: Result<Option<string>, Failure>)
    requires id in items
    ensures items[id].seller.None? ==> r == Ok(None)
    ensures items[id].seller.Some? && items[id].seller.value !in addresses ==> r == Err(DoesNotExist)
    ensures items[id].seller.Some? && items[id].seller.value in addresses ==>
              r == Ok(Some(addresses[items[id].seller.value].state))
  {
    match items[id].seller
    case None => Ok(None)
    case Some(s) => if s in addresses then Ok(Some(addresses[s].state)) else Err(DoesNotExist)
  }

  /** The seller's state of the item can be determined. */
  predicate SellerKnown(items: map<ItemId, Item>, addresses: map<UserId, Address>, id: ItemId)
    requires id in items
  {
    SellerState(items, addresses, id).Ok?
  }

  /** One order line as an invoice line carrying its tax breakdown. */
  function InvoiceLineFor(items: map<ItemId, Item>, addresses: map<UserId, Address>, buyerState: string, l: OrderLine)
    : Result<InvoiceLine, Failure>
    requires l.item in items
  {
    var it := items[l.item];
    match SellerState(items, addresses, l.item)
    case Err(f) => Err(f)
    case Ok(sellerState) =>
      Ok(InvoiceLine(l.item, l.qty,
                     AllocateTax(buyerState, sellerState, it.taxPercentage, LineTax(it.taxPercentage, it.price, l.qty))))
  }

  /**
   * The invoice lines of an order's lines, one per line in the same order;
   * the first line whose seller has no address stops it with DoesNotExist.
   */
  function InvoiceLines(items: map<ItemId, Item>, addresses: map<UserId, Address>, buyerState: string, lines: seq<OrderLine>)
    : (r: Result<seq<InvoiceLine>, Failure>)
    requires InCatalog(items, lines)
    ensures r.Ok? <==> forall k :: 0 <= k < |lines| ==> SellerKnown(items, addresses, lines[k].item)
    ensures r.Err? ==> r.error == DoesNotExist
    ensures r.Ok? ==> |r.value| == |lines|
    ensures r.Ok? ==> forall k :: 0 <= k < |lines| ==> InvoiceLineFor(items, addresses, buyerState, lines[k]) == Ok(r.value[k])
    decreases |lines|
  {
    if lines == [] then Ok([])
    else
      var prefix := lines[..|lines| - 1];
      assert forall k :: 0 <= k < |prefix| ==> lines[k] == prefix[k];
      match InvoiceLines(items, addresses, buyerState, prefix)
      case Err(f) => Err(f)
      case Ok(ls) =>
        match InvoiceLineFor(items, addresses, buyerState, lines[|lines| - 1])
        case Err(f) => Err(f)
        case Ok(l) => Ok(ls + [l])
  }

  /** Each invoice line keeps its order line's item and quantity; its breakdown allocates that line's tax. */
  lemma InvoiceLineShape(items: map<ItemId, Item>, addresses: map<UserId, Address>, buyerState: string,
                         lines: seq<OrderLine>, k: int)
    requires InCatalog(items, lines) && 0 <= k < |lines|
    requires InvoiceLines(items, addresses, buyerState, lines).Ok?
    ensures var il := InvoiceLines(items, addresses, buyerState, lines).value[k];
            var it := items[lines[k].item];
            && il.item == lines[k].item && il.qty == lines[k].qty
            && DetailsTax(il.details) == LineTax(it.taxPercentage, it.price, lines[k].qty)
            && (it.seller.None? ==> il.details.igstPercentage == Some(it.taxPercentage))
  {
  }

  /** The tax allocated over invoice lines. */
  function LinesTax(ls: seq<InvoiceLine>): real
    decreases |ls|
  {
    if ls == [] then 0.0 else LinesTax(ls[..|ls| - 1]) + DetailsTax(ls[|ls| - 1].details)
  }

  /** The breakdowns of an order's invoice lines add up to the order lines' total tax. */
  lemma {:induction false} InvoiceTaxMatchesLines(items: map<ItemId, Item>, addresses: map<UserId, Address>,
                                                 buyerState: string, lines: seq<OrderLine>)
    requires InCatalog(items, lines)
    requires InvoiceLines(items, addresses, buyerState, lines).Ok?
    ensures LinesTax(InvoiceLines(items, addresses, buyerState, lines).value) == TaxTotal(items, lines)
    decreases |lines|
  {
    if lines != [] {
      var prefix := lines[..|lines| - 1];
      assert forall k :: 0 <= k < |prefix| ==> lines[k] == prefix[k];
      var ls := InvoiceLines(items, addresses, buyerState, lines).value;
      InvoiceTaxMatchesLines(items, addresses, buyerState, prefix);
      assert ls[..|ls| - 1] == InvoiceLines(items, addresses, buyerState, prefix).value;
    }
  }

  /**
   * The loop of populateInvoice: for each order line accumulate its amount
   * and tax, find its seller's state and attach the breakdown.
   */
  method BuildInvoiceLines(items: map<ItemId, Item>, addresses: map<UserId, Address>, buyerState: string,
                           lines: seq<OrderLine>)
    returns (r: Result<Priced<InvoiceLine>, Failure>)
    requires InCatalog(items, lines)
    ensures InvoiceLines(items, addresses, buyerState, lines).Err? ==> r == Err(DoesNotExist)
    ensures InvoiceLines(items, addresses, buyerState, lines).Ok? ==>
              && r.Ok? && r.value.lines == InvoiceLines(items, addresses, buyerState, lines).value
              && r.value.totalAmount == Subtotal(items, lines)
              && r.value.totalTax == TaxTotal(items, lines)
              && r.value.grandTotal == r.value.totalAmount + r.value.totalTax
  {
    var built: seq<InvoiceLine> := [];
    var totalAmount := 0.0;
    var totalTax := 0.0;
    var i := 0;
    while i < |lines|
      invariant 0 <= i <= |lines|
      invariant InvoiceLines(items, addresses, buyerState, lines[..i]) == Ok(built)
      invariant totalAmount == Subtotal(items, lines[..i])
      invariant totalTax == TaxTotal(items, lines[..i])
    {
      var l := lines[i];
      assert lines[..i + 1][..i] == lines[..i];
      var it := items[l.item];
      var itemTax := LineTax(it.taxPercentage, it.price, l.qty);
      totalAmount := totalAmount + LineAmount(it.price, l.qty);
      totalTax := totalTax + itemTax;
      var sellerState: Option<string> := None;
      if it.seller.Some? {
        if it.seller.value !in addresses {
          assert !SellerKnown(items, addresses, lines[..i + 1][i].item);
          return Err(DoesNotExist);
        }
        sellerState := Some(addresses[it.seller.value].state);
      }
      built := built + [InvoiceLine(l.item, l.qty, AllocateTax(buyerState, sellerState, it.taxPercentage, itemTax))];
      i := i + 1;
    }
    assert lines[..i] == lines;
    r := Ok(Priced(built, totalAmount, totalTax, totalAmount + totalTax));
  }

  // ---------------------------------------------------------------------------
  // Superseding earlier invoices
  // ---------------------------------------------------------------------------

  /** The invoice belongs to the order and is not soft-deleted. */
  predicate ActiveFor(inv: Invoice, o: OrderId) {
    inv.order == Some(o) && !inv.isDeleted
  }

  /** The order's invoices that are not soft-deleted. */
  function ActiveInvoices(invoices: map<InvoiceId, Invoice>, o: OrderId): set<InvoiceId> {
    set n | n in invoices && ActiveFor(invoices[n], o)
  }

  /** A superseded invoice: soft-deleted, with its lines detached. */
  function Retired(inv: Invoice): Invoice {
    inv.(isDeleted := true, lines := [])
  }

  /** The invoice table once every active invoice of the order in `which` is retired. */
  function RetireAmong(invoices: map<InvoiceId, Invoice>, o: OrderId, which: set<InvoiceId>): map<InvoiceId, Invoice> {
    map n | n in invoices :: if n in which && ActiveFor(invoices[n], o) then Retired(invoices[n]) else invoices[n]
  }

  /** The invoice table after clearPreviousInvoices: every active invoice of the order retired. */
  function Superseded(invoices: map<InvoiceId, Invoice>, o: OrderId): (r: map<InvoiceId, Invoice>)
    ensures r.Keys == invoices.Keys
    ensures forall n :: n in invoices && ActiveFor(invoices[n], o) ==> r[n] == Retired(invoices[n])
    ensures forall n :: n in invoices && !ActiveFor(invoices[n], o) ==> r[n] == invoices[n]
  {
    RetireAmong(invoices, o, invoices.Keys)
  }

  /** After superseding, the order has no active invoice and every other order keeps its own. */
  lemma SupersededActive(invoices: map<InvoiceId, Invoice>, o: OrderId, other: OrderId)
    requires other != o
    ensures ActiveInvoices(Superseded(invoices, o), o) == {}
    ensures ActiveInvoices(Superseded(invoices, o), other) == ActiveInvoices(invoices, other)
  {
    var s := Superseded(invoices, o);
    forall n | n in s ensures !ActiveFor(s[n], o) {
      if ActiveFor(invoices[n], o) {
        assert s[n] == Retired(invoices[n]);
      }
    }
    assert forall n :: n in s ==> (ActiveFor(s[n], other) <==> ActiveFor(invoices[n], other));
  }

  /** Adding one active invoice to a superseded table leaves it as the order's only active invoice. */
  lemma OneActiveInvoice(invoices: map<InvoiceId, Invoice>, o: OrderId, id: InvoiceId, inv: Invoice)
    requires id !in invoices && ActiveFor(inv, o)
    ensures ActiveInvoices(Superseded(invoices, o)[id := inv], o) == {id}
  {
    var s := Superseded(invoices, o);
    forall n | n in s ensures !ActiveFor(s[n], o) {
      if ActiveFor(invoices[n], o) {
        assert s[n] == Retired(invoices[n]);
      }
    }
  }
}
