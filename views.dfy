/**
 * The view functions of the invoice application as operations on an
 * in-memory store of its tables. Each operation is one request: it reads
 * and writes the tables step by step, in the order the view does, and
 * answers with a Response. There is no enclosing database transaction, so
 * a write made before a later failure stays.
 */
module Views {
  import opened Wrappers
  import opened Models
  import opened Tax
  import opened Orders
  import opened Invoicing
  import opened Payments

  /** The user exists and is a buyer. */
  predicate IsBuyer(users: map<UserId, User>, id: UserId) {
    id in users && users[id].userType == BUYER
  }

  /** Foreign keys of an order row; its lines name catalogue items, each item once. */
  ghost predicate OrderRowValid(users: map<UserId, User>, items: map<ItemId, Item>, o: Order) {
    && (o.buyer.Some? ==> o.buyer.value in users)
    && InCatalog(items, o.lines)
    && DistinctItems(o.lines)
  }

  /** Foreign keys of an invoice row. */
  ghost predicate InvoiceRowValid(items: map<ItemId, Item>, orders: map<OrderId, Order>, inv: Invoice) {
    && (inv.order.Some? ==> inv.order.value in orders)
    && (forall k :: 0 <= k < |inv.lines| ==> inv.lines[k].item in items)
  }

  /** A transaction is stored under its own external id and points at an existing order and user. */
  ghost predicate TransactionRowValid(users: map<UserId, User>, orders: map<OrderId, Order>, key: string, t: Transaction) {
    t.externalId == key && t.order in orders && t.user in users
  }

  /** Both invoices belong to the same order and neither is soft-deleted. */
  predicate BothActive(a: Invoice, b: Invoice) {
    a.order.Some? && a.order == b.order && !a.isDeleted && !b.isDeleted
  }

  /** No order has two invoices that are both not soft-deleted. */
  ghost predicate AtMostOneActive(invoices: map<InvoiceId, Invoice>) {
    forall m, n :: m in invoices && n in invoices && BothActive(invoices[m], invoices[n]) ==> m == n
  }

  /** What the database keeps true of the tables: foreign keys, keys and the row-id counters. */
  ghost predicate TablesValid(
    users: map<UserId, User>, addresses: map<UserId, Address>, items: map<ItemId, Item>,
    orders: map<OrderId, Order>, invoices: map<InvoiceId, Invoice>, transactions: map<string, Transaction>,
    nextOrderId: int, nextInvoiceId: int)
  {
    && (forall u :: u in addresses ==> u in users)
    && (forall i :: i in items && items[i].seller.Some? ==> items[i].seller.value in users)
    && (forall o :: o in orders ==> o < nextOrderId && OrderRowValid(users, items, orders[o]))
    && (forall n :: n in invoices ==> n < nextInvoiceId && InvoiceRowValid(items, orders, invoices[n]))
    && (forall t :: t in transactions ==> TransactionRowValid(users, orders, t, transactions[t]))
    && AtMostOneActive(invoices)
  }

  /**
   * What create_order decides before it writes anything: the response of a
   * rejected request, or the buyer and the resolved lines.
   */
  function CreateOrderPlan(users: map<UserId, User>, items: map<ItemId, Item>, p: OrderPayload)
    : (r: Result<(UserId, seq<OrderLine>), Response>)
    ensures p.items.None? || p.items == Some([]) ==> r == Err(ExpectationFailed)
    ensures r.Ok? <==>
              && p.items.Some? && p.items.value != []
              && p.buyerId.Some? && IsBuyer(users, p.buyerId.value)
              && forall k :: 0 <= k < |p.items.value| ==> EntryResolves(items, p.items.value[k])
    ensures p.items.Some? && p.items.value != [] && p.buyerId.None? ==> r == Err(ServerError)
    ensures p.items.Some? && p.items.value != [] && p.buyerId.Some? && !IsBuyer(users, p.buyerId.value) ==>
              r == Err(NotFound)
    ensures p.items.Some? && p.items.value != [] && p.buyerId.Some? && IsBuyer(users, p.buyerId.value)
            && Resolve(items, p.items.value).Err? ==>
              r == Err(Raised(Resolve(items, p.items.value).error))
    ensures r.Ok? ==> r.value.0 == p.buyerId.value && Resolve(items, p.items.value) == Ok(r.value.1)
    ensures r.Ok? ==> InCatalog(items, r.value.1)
  {
    if p.items.None? || |p.items.value| == 0 then Err(ExpectationFailed)
    else if p.buyerId.None? then Err(ServerError)
    else if !IsBuyer(users, p.buyerId.value) then Err(NotFound)
    else
      match Resolve(items, p.items.value)
      case Err(f) => Err(Raised(f))
      case Ok(lines) =>
        assert forall k :: 0 <= k < |lines| ==> ResolveEntry(items, p.items.value[k]) == Ok(lines[k]);
        Ok((p.buyerId.value, lines))
  }

  /** A non-empty set of invoice ids has an element. */
  lemma NonEmptyHasElement(s: set<InvoiceId>)
    requires s != {}
    ensures exists n :: n in s
  {
    if forall n :: n !in s {
      assert false;
    }
  }

  /** Some element of a non-empty set of invoice ids. */
  method PickInvoice(s: set<InvoiceId>) returns (n: InvoiceId)
    requires s != {}
    ensures n in s
  {
    NonEmptyHasElement(s);
    n :| n in s;
  }

  class Store {
    var users: map<UserId, User>
    /** Keyed by the owning user: a user has at most one address. */
    var addresses: map<UserId, Address>
    var items: map<ItemId, Item>
    var orders: map<OrderId, Order>
    var invoices: map<InvoiceId, Invoice>
    /** Keyed by the external transaction id, which is unique. */
    var transactions: map<string, Transaction>
    /** The id the next created order receives. */
    var nextOrderId: int
    /** The id the next created invoice receives. */
    var nextInvoiceId: int

    ghost predicate Valid()
      reads this
    {
      TablesValid(users, addresses, items, orders, invoices, transactions, nextOrderId, nextInvoiceId)
    }

    /** A store holding the given tables, as left by the endpoints this model does not cover. */
    constructor (
      users: map<UserId, User>, addresses: map<UserId, Address>, items: map<ItemId, Item>,
      orders: map<OrderId, Order>, invoices: map<InvoiceId, Invoice>, transactions: map<string, Transaction>,
      nextOrderId: int, nextInvoiceId: int)
      requires TablesValid(users, addresses, items, orders, invoices, transactions, nextOrderId, nextInvoiceId)
      ensures Valid()
      ensures this.users == users && this.addresses == addresses && this.items == items
      ensures this.orders == orders && this.invoices == invoices && this.transactions == transactions
      ensures this.nextOrderId == nextOrderId && this.nextInvoiceId == nextInvoiceId
    {
      this.users := users;
      this.addresses := addresses;
      this.items := items;
      this.orders := orders;
      this.invoices := invoices;
      this.transactions := transactions;
      this.nextOrderId := nextOrderId;
      this.nextInvoiceId := nextInvoiceId;
    }

    // -------------------------------------------------------------------------
    // Orders
    // -------------------------------------------------------------------------

    /** createOrder: a new order row for the buyer with the given totals and no lines yet. */
    method CreateOrderRow(buyer: UserId, totalPrice: real, grandTotal: real, today: Date) returns (id: OrderId)
      requires Valid() && buyer in users
      modifies this
      ensures Valid()
      ensures id == old(nextOrderId) && id !in old(orders) && nextOrderId == id + 1
      ensures orders == old(orders)[id := NewOrder(buyer, today, totalPrice, grandTotal)]
      ensures users == old(users) && addresses == old(addresses) && items == old(items)
      ensures invoices == old(invoices) && transactions == old(transactions) && nextInvoiceId == old(nextInvoiceId)
    {
      id := nextOrderId;
      orders := orders[id := NewOrder(buyer, today, totalPrice, grandTotal)];
      nextOrderId := nextOrderId + 1;
    }

    /**
     * populateItems: add each line to the order's item set in turn; an item
     * that is already linked keeps its first quantity.
     */
    method PopulateItems(id: OrderId, lines: seq<OrderLine>)
      requires Valid() && id in orders && orders[id].lines == [] && InCatalog(items, lines)
      modifies this
      ensures Valid()
      ensures orders == old(orders)[id := old(orders)[id].(lines := Linked(lines))]
      ensures users == old(users) && addresses == old(addresses) && items == old(items)
      ensures invoices == old(invoices) && transactions == old(transactions)
      ensures nextOrderId == old(nextOrderId) && nextInvoiceId == old(nextInvoiceId)
    {
      var i := 0;
      while i < |lines|
        invariant 0 <= i <= |lines|
        invariant orders == old(orders)[id := old(orders)[id].(lines := Linked(lines[..i]))]
        invariant users == old(users) && addresses == old(addresses) && items == old(items)
        invariant invoices == old(invoices) && transactions == old(transactions)
        invariant nextOrderId == old(nextOrderId) && nextInvoiceId == old(nextInvoiceId)
      {
        assert lines[..i + 1][..i] == lines[..i] && lines[..i + 1][i] == lines[i];
        var o := orders[id];
        if !HasItem(o.lines, lines[i].item) {
          orders := orders[id := o.(lines := o.lines + [lines[i]])];
        }
        i := i + 1;
      }
      assert lines[..i] == lines;
      LinkedInCatalog(items, lines);
    }

    /**
     * create_order: 417 without items, 404 for an unknown buyer or item,
     * 500 for a missing key; otherwise one new order whose totals are
     * taken over every payload entry and whose lines are the linked ones.
     * A rejected request writes nothing.
     */
    method CreateOrder(p: OrderPayload, today: Date) returns (r: Response)
      requires Valid()
      modifies this
      ensures Valid()
      ensures CreateOrderPlan(old(users), old(items), p).Err? ==>
                r == CreateOrderPlan(old(users), old(items), p).error && unchanged(this)
      ensures CreateOrderPlan(old(users), old(items), p).Ok? ==>
                var (buyer, lines) := CreateOrderPlan(old(users), old(items), p).value;
                var total := Subtotal(old(items), lines);
                && r == Created(old(nextOrderId)) && old(nextOrderId) !in old(orders)
                && orders == old(orders)[old(nextOrderId) :=
                     NewOrder(buyer, today, total, total + TaxTotal(old(items), lines)).(lines := Linked(lines))]
                && nextOrderId == old(nextOrderId) + 1
                && users == old(users) && addresses == old(addresses) && items == old(items)
                && invoices == old(invoices) && transactions == old(transactions)
                && nextInvoiceId == old(nextInvoiceId)
    {
      if p.items.None? || |p.items.value| == 0 {
        return ExpectationFailed;
      }
      if p.buyerId.None? {
        return ServerError;
      }
      var buyer := p.buyerId.value;
      if !IsBuyer(users, buyer) {
        return NotFound;
      }
      var resolved := ResolveItems(items, p.items.value);
      if resolved.Err? {
        return Raised(resolved.error);
      }
      var id := CreateOrderRow(buyer, resolved.value.totalAmount, resolved.value.grandTotal, today);
      PopulateItems(id, resolved.value.lines);
      r := Created(id);
    }

    /**
     * update_order: 404 for an unknown order or item, 500 when 'items' or a
     * key of an entry is missing; otherwise the order's lines are cleared
     * and refilled from the payload and both totals are recomputed. Nothing
     * else of the order changes, so an empty list leaves no lines and zero
     * totals.
     */
    method UpdateOrder(orderId: OrderId, p: OrderPayload) returns (r: Response)
      requires Valid()
      modifies this
      ensures Valid()
      ensures orderId !in old(orders) ==> r == NotFound && unchanged(this)
      ensures orderId in old(orders) && p.items.None? ==> r == ServerError && unchanged(this)
      ensures orderId in old(orders) && p.items.Some? && Resolve(old(items), p.items.value).Err? ==>
                r == Raised(Resolve(old(items), p.items.value).error) && unchanged(this)
      ensures orderId in old(orders) && p.items.Some? && Resolve(old(items), p.items.value).Ok? ==>
                var lines := Resolve(old(items), p.items.value).value;
                && InCatalog(old(items), lines)
                && r == Done
                && orders == old(orders)[orderId := old(orders)[orderId].(
                     lines := Linked(lines),
                     totalPrice := Subtotal(old(items), lines),
                     grandTotal := Subtotal(old(items), lines) + TaxTotal(old(items), lines))]
                && users == old(users) && addresses == old(addresses) && items == old(items)
                && invoices == old(invoices) && transactions == old(transactions)
                && nextOrderId == old(nextOrderId) && nextInvoiceId == old(nextInvoiceId)
    {
      if orderId !in orders {
        return NotFound;
      }
      if p.items.None? {
        return ServerError;
      }
      var resolved := ResolveItems(items, p.items.value);
      if resolved.Err? {
        return Raised(resolved.error);
      }
      ReplaceOrderLines(orderId, resolved.value);
      r := Done;
    }

    /** The write part of update_order: clear the order's lines, link the new ones, save the new totals. */
    method ReplaceOrderLines(orderId: OrderId, totals: Priced<OrderLine>)
      requires Valid() && orderId in orders && InCatalog(items, totals.lines)
      modifies this
      ensures Valid()
      ensures orders == old(orders)[orderId := old(orders)[orderId].(
                lines := Linked(totals.lines), totalPrice := totals.totalAmount, grandTotal := totals.grandTotal)]
      ensures users == old(users) && addresses == old(addresses) && items == old(items)
      ensures invoices == old(invoices) && transactions == old(transactions)
      ensures nextOrderId == old(nextOrderId) && nextInvoiceId == old(nextInvoiceId)
    {
      ghost var before := orders[orderId];
      ClearOrderLines(orderId);
      PopulateItems(orderId, totals.lines);
      assert orders == old(orders)[orderId := before.(lines := Linked(totals.lines))];
      SaveOrderTotals(orderId, totals.totalAmount, totals.grandTotal);
    }

    /** order_item.items.clear(): the order keeps no line. */
    method ClearOrderLines(orderId: OrderId)
      requires Valid() && orderId in orders
      modifies this
      ensures Valid()
      ensures orders == old(orders)[orderId := old(orders)[orderId].(lines := [])]
      ensures users == old(users) && addresses == old(addresses) && items == old(items)
      ensures invoices == old(invoices) && transactions == old(transactions)
      ensures nextOrderId == old(nextOrderId) && nextInvoiceId == old(nextInvoiceId)
    {
      orders := orders[orderId := orders[orderId].(lines := [])];
    }

    /** order_item.save() after update_order set the recomputed totals. */
    method SaveOrderTotals(orderId: OrderId, totalPrice: real, grandTotal: real)
      requires Valid() && orderId in orders
      modifies this
      ensures Valid()
      ensures orders == old(orders)[orderId := old(orders)[orderId].(totalPrice := totalPrice, grandTotal := grandTotal)]
      ensures users == old(users) && addresses == old(addresses) && items == old(items)
      ensures invoices == old(invoices) && transactions == old(transactions)
      ensures nextOrderId == old(nextOrderId) && nextInvoiceId == old(nextInvoiceId)
    {
      orders := orders[orderId := orders[orderId].(totalPrice := totalPrice, grandTotal := grandTotal)];
    }

    /** delete_order: 404 for an unknown order; otherwise only its soft-delete flag is set. */
    method DeleteOrder(orderId: OrderId) returns (r: Response)
      requires Valid()
      modifies this
      ensures Valid()
      ensures orderId !in old(orders) ==> r == NotFound && unchanged(this)
      ensures orderId in old(orders) ==>
                && r == Done
                && orders == old(orders)[orderId := old(orders)[orderId].(isDeleted := true)]
                && users == old(users) && addresses == old(addresses) && items == old(items)
                && invoices == old(invoices) && transactions == old(transactions)
                && nextOrderId == old(nextOrderId) && nextInvoiceId == old(nextInvoiceId)
    {
      if orderId !in orders {
        return NotFound;
      }
      orders := orders[orderId := orders[orderId].(isDeleted := true)];
      r := Done;
    }

    // -------------------------------------------------------------------------
    // Invoices
    // -------------------------------------------------------------------------

    /** clearPreviousInvoices: soft-delete every active invoice of the order and detach its lines. */
    method ClearPreviousInvoices(orderId: OrderId)
      requires Valid()
      modifies this
      ensures Valid()
      ensures invoices == Superseded(old(invoices), orderId)
      ensures users == old(users) && addresses == old(addresses) && items == old(items)
      ensures orders == old(orders) && transactions == old(transactions)
      ensures nextOrderId == old(nextOrderId) && nextInvoiceId == old(nextInvoiceId)
    {
      var pending := ActiveInvoices(invoices, orderId);
      ghost var done: set<InvoiceId> := {};
      while pending != {}
        invariant pending !! done && pending + done == ActiveInvoices(old(invoices), orderId)
        invariant invoices.Keys == old(invoices).Keys
        invariant forall m :: m in invoices ==>
                    invoices[m] == if m in done then Retired(old(invoices)[m]) else old(invoices)[m]
        invariant users == old(users) && addresses == old(addresses) && items == old(items)
        invariant orders == old(orders) && transactions == old(transactions)
        invariant nextOrderId == old(nextOrderId) && nextInvoiceId == old(nextInvoiceId)
        decreases pending
      {
        var n := PickInvoice(pending);
        invoices := invoices[n := Retired(invoices[n])];
        pending := pending - {n};
        done := done + {n};
      }
      ghost var s := Superseded(old(invoices), orderId);
      assert forall m :: m in invoices ==> (m in done <==> ActiveFor(old(invoices)[m], orderId));
      assert forall m :: m in invoices ==> invoices[m] == s[m];
      assert invoices == s;
      assert AtMostOneActive(invoices) by {
        forall m, n | m in invoices && n in invoices && BothActive(invoices[m], invoices[n])
          ensures m == n
        {
          assert invoices[m] == old(invoices)[m] && invoices[n] == old(invoices)[n];
        }
      }
    }

    /** buildInvoice: a new, not deleted invoice row for the order with the given totals and no lines yet. */
    method BuildInvoice(orderId: OrderId, totalTax: real, totalPrice: real, grandTotal: real) returns (id: InvoiceId)
      requires Valid() && orderId in orders && ActiveInvoices(invoices, orderId) == {}
      modifies this
      ensures Valid()
      ensures id == old(nextInvoiceId) && id !in old(invoices) && nextInvoiceId == id + 1
      ensures invoices == old(invoices)[id := Invoice(Some(orderId), [], totalTax, totalPrice, grandTotal, false)]
      ensures users == old(users) && addresses == old(addresses) && items == old(items)
      ensures orders == old(orders) && transactions == old(transactions) && nextOrderId == old(nextOrderId)
    {
      id := nextInvoiceId;
      var inv := Invoice(Some(orderId), [], totalTax, totalPrice, grandTotal, false);
      invoices := invoices[id := inv];
      nextInvoiceId := nextInvoiceId + 1;
      assert forall k :: k in old(invoices) ==> k !in ActiveInvoices(old(invoices), orderId);
      assert forall k :: k in invoices && k != id ==>
               invoices[k] == old(invoices)[k] && !ActiveFor(invoices[k], orderId);
      assert AtMostOneActive(invoices);
    }

    /**
     * The add loop of populateInvoice: attach each invoice line, with its
     * breakdown, to the invoice. Adding an item that is already attached
     * would be skipped; the lines populateInvoice passes come from an
     * order's lines, which never repeat an item, so every add attaches.
     */
    method AttachInvoiceLines(id: InvoiceId, lines: seq<InvoiceLine>)
      requires Valid() && id in invoices && invoices[id].lines == []
      requires forall k :: 0 <= k < |lines| ==> lines[k].item in items
      requires forall j, k :: 0 <= j < k < |lines| ==> lines[j].item != lines[k].item
      modifies this
      ensures Valid()
      ensures invoices == old(invoices)[id := old(invoices)[id].(lines := lines)]
      ensures users == old(users) && addresses == old(addresses) && items == old(items)
      ensures orders == old(orders) && transactions == old(transactions)
      ensures nextOrderId == old(nextOrderId) && nextInvoiceId == old(nextInvoiceId)
    {
      var i := 0;
      while i < |lines|
        invariant 0 <= i <= |lines|
        invariant invoices == old(invoices)[id := old(invoices)[id].(lines := lines[..i])]
        invariant users == old(users) && addresses == old(addresses) && items == old(items)
        invariant orders == old(orders) && transactions == old(transactions)
        invariant nextOrderId == old(nextOrderId) && nextInvoiceId == old(nextInvoiceId)
      {
        assert lines[..i + 1] == lines[..i] + [lines[i]];
        invoices := invoices[id := invoices[id].(lines := invoices[id].lines + [lines[i]])];
        i := i + 1;
      }
      assert lines[..i] == lines;
      assert AtMostOneActive(invoices) by {
        forall m, n | m in invoices && n in invoices && BothActive(invoices[m], invoices[n])
          ensures m == n
        {
          assert old(invoices)[m].order == invoices[m].order && old(invoices)[m].isDeleted == invoices[m].isDeleted;
          assert old(invoices)[n].order == invoices[n].order && old(invoices)[n].isDeleted == invoices[n].isDeleted;
        }
      }
    }

    /**
     * populateInvoice: build the invoice lines and totals from the order's
     * current lines; a seller without an address stops it before the
     * invoice row is created.
     */
    method PopulateInvoice(orderId: OrderId, buyerState: string) returns (r: Response)
      requires Valid() && orderId in orders && ActiveInvoices(invoices, orderId) == {}
      modifies this
      ensures Valid()
      ensures var lines := old(orders)[orderId].lines;
              var built := InvoiceLines(old(items), old(addresses), buyerState, lines);
              && (built.Err? ==> r == NotFound && unchanged(this))
              && (built.Ok? ==>
                    && r == Created(old(nextInvoiceId)) && old(nextInvoiceId) !in old(invoices)
                    && invoices == old(invoices)[old(nextInvoiceId) := Invoice(Some(orderId), built.value,
                         TaxTotal(old(items), lines), Subtotal(old(items), lines),
                         Subtotal(old(items), lines) + TaxTotal(old(items), lines), false)]
                    && nextInvoiceId == old(nextInvoiceId) + 1
                    && users == old(users) && addresses == old(addresses) && items == old(items)
                    && orders == old(orders) && transactions == old(transactions)
                    && nextOrderId == old(nextOrderId))
    {
      var lines := orders[orderId].lines;
      var built := BuildInvoiceLines(items, addresses, buyerState, lines);
      if built.Err? {
        return Raised(built.error);
      }
      var draft := built.value;
      var id := BuildInvoice(orderId, draft.totalTax, draft.totalAmount, draft.grandTotal);
      forall k | 0 <= k < |draft.lines| ensures draft.lines[k].item == lines[k].item && draft.lines[k].item in items {
        assert InvoiceLineFor(items, addresses, buyerState, lines[k]) == Ok(draft.lines[k]);
      }
      assert DistinctItems(lines);
      AttachInvoiceLines(id, draft.lines);
      r := Created(id);
    }

    /**
     * create_invoice: 404 for an unknown order, 500 for an order without a
     * buyer, 404 for a buyer without an address; after that every earlier
     * active invoice of the order is retired, and then either one new
     * invoice is built from the order's current lines or, when a seller has
     * no address, the request fails with 404 leaving the order without any
     * active invoice.
     */
    method CreateInvoice(orderId: OrderId) returns (r: Response)
      requires Valid()
      modifies this
      ensures Valid()
      ensures orderId !in old(orders) ==> r == NotFound && unchanged(this)
      ensures orderId in old(orders) && BuyerState(old(addresses), old(orders)[orderId].buyer).Err? ==>
                r == Raised(BuyerState(old(addresses), old(orders)[orderId].buyer).error) && unchanged(this)
      ensures orderId in old(orders) && BuyerState(old(addresses), old(orders)[orderId].buyer).Ok? ==>
                var lines := old(orders)[orderId].lines;
                var built := InvoiceLines(old(items), old(addresses),
                                          BuyerState(old(addresses), old(orders)[orderId].buyer).value, lines);
                && (built.Err? ==>
                      && r == NotFound && invoices == Superseded(old(invoices), orderId)
                      && nextInvoiceId == old(nextInvoiceId))
                && (built.Ok? ==>
                      && r == Created(old(nextInvoiceId)) && old(nextInvoiceId) !in old(invoices)
                      && invoices == Superseded(old(invoices), orderId)[old(nextInvoiceId) := Invoice(Some(orderId),
                           built.value, TaxTotal(old(items), lines), Subtotal(old(items), lines),
                           Subtotal(old(items), lines) + TaxTotal(old(items), lines), false)]
                      && nextInvoiceId == old(nextInvoiceId) + 1)
      ensures users == old(users) && addresses == old(addresses) && items == old(items)
      ensures orders == old(orders) && transactions == old(transactions) && nextOrderId == old(nextOrderId)
      // What follows for the invoice table
      ensures r.Created? ==> ActiveInvoices(invoices, orderId) == {r.id}
      ensures r.Created? ==>
                && LinesTax(invoices[r.id].lines) == invoices[r.id].totalTax
                && invoices[r.id].grandTotal == invoices[r.id].totalPrice + invoices[r.id].totalTax
      ensures forall other :: other != orderId ==> ActiveInvoices(invoices, other) == ActiveInvoices(old(invoices), other)
    {
      if orderId !in orders {
        return NotFound;
      }
      var order := orders[orderId];
      var buyerState := BuyerState(addresses, order.buyer);
      if buyerState.Err? {
        return Raised(buyerState.error);
      }
      ghost var before := invoices;
      ClearPreviousInvoices(orderId);
      SupersededActive(before, orderId, orderId + 1);
      r := PopulateInvoice(orderId, buyerState.value);
      if r.Created? {
        OneActiveInvoice(before, orderId, r.id, invoices[r.id]);
        InvoiceTaxMatchesLines(items, addresses, buyerState.value, order.lines);
      }
      forall other | other != orderId
        ensures ActiveInvoices(invoices, other) == ActiveInvoices(before, other)
      {
        SupersededActive(before, orderId, other);
      }
    }

    /** delete_invoice: 404 for an unknown invoice; otherwise only its soft-delete flag is set, its lines stay. */
    method DeleteInvoice(invoiceId: InvoiceId) returns (r: Response)
      requires Valid()
      modifies this
      ensures Valid()
      ensures invoiceId !in old(invoices) ==> r == NotFound && unchanged(this)
      ensures invoiceId in old(invoices) ==>
                && r == Done
                && invoices == old(invoices)[invoiceId := old(invoices)[invoiceId].(isDeleted := true)]
                && users == old(users) && addresses == old(addresses) && items == old(items)
                && orders == old(orders) && transactions == old(transactions)
                && nextOrderId == old(nextOrderId) && nextInvoiceId == old(nextInvoiceId)
    {
      if invoiceId !in invoices {
        return NotFound;
      }
      invoices := invoices[invoiceId := invoices[invoiceId].(isDeleted := true)];
      r := Done;
      assert AtMostOneActive(invoices) by {
        forall m, n | m in invoices && n in invoices && BothActive(invoices[m], invoices[n])
          ensures m == n
        {
          assert m != invoiceId && n != invoiceId;
        }
      }
    }

    // -------------------------------------------------------------------------
    // Payments
    // -------------------------------------------------------------------------

    /**
     * make_payment: 404 for an unknown order, 417 when it is already PAID,
     * 403 when a transaction of this order with this id is INITIATED or
     * SUCCESS, 500 when the order has no buyer. Otherwise the order is set
     * IN_PROCESS and saved; then an INITIATED transaction is inserted under
     * the id, which fails with 500 (the order stays IN_PROCESS) when the id
     * is already taken. `formatDecimal` and `sha512` stand for str(Decimal)
     * and the hex SHA-512 digest.
     */
    method MakePayment(txnId: string, orderId: OrderId, formatDecimal: real -> string, sha512: string -> string)
      returns (r: Response)
      requires Valid()
      modifies this
      ensures Valid()
      ensures orderId !in old(orders) ==> r == NotFound && unchanged(this)
      ensures orderId in old(orders) && old(orders)[orderId].paymentStatus == PAID ==>
                r == ExpectationFailed && unchanged(this)
      ensures orderId in old(orders) && old(orders)[orderId].paymentStatus != PAID
              && txnId in old(transactions) && old(transactions)[txnId].order == orderId
              && BlocksPayment(old(transactions)[txnId].status) ==>
                r == Forbidden && unchanged(this)
      ensures orderId in old(orders) && old(orders)[orderId].paymentStatus != PAID
              && !(txnId in old(transactions) && old(transactions)[txnId].order == orderId
                   && BlocksPayment(old(transactions)[txnId].status)) ==>
                var o := old(orders)[orderId];
                && (o.buyer.None? ==> r == ServerError && unchanged(this))
                && (o.buyer.Some? ==>
                      && o.buyer.value in old(users)
                      && orders == old(orders)[orderId := o.(paymentStatus := IN_PROCESS)]
                      && (txnId in old(transactions) ==> r == ServerError && transactions == old(transactions))
                      && (txnId !in old(transactions) ==>
                            && r == Done
                            && transactions == old(transactions)[txnId := Transaction(orderId, o.buyer.value, txnId,
                                 sha512(HashString(txnId, formatDecimal(o.grandTotal),
                                                   old(users)[o.buyer.value].name, old(users)[o.buyer.value].email)),
                                 INITIATED)]))
      ensures users == old(users) && addresses == old(addresses) && items == old(items)
      ensures invoices == old(invoices) && nextOrderId == old(nextOrderId) && nextInvoiceId == old(nextInvoiceId)
    {
      if orderId !in orders {
        return NotFound;
      }
      var order := orders[orderId];
      if order.paymentStatus == PAID {
        return ExpectationFailed;
      }
      if txnId in transactions && transactions[txnId].order == orderId {
        if BlocksPayment(transactions[txnId].status) {
          return Forbidden;
        }
      }
      if order.buyer.None? {
        // buyer.name on a null buyer
        return ServerError;
      }
      var buyer := users[order.buyer.value];
      var hashFinal := sha512(HashString(txnId, formatDecimal(order.grandTotal), buyer.name, buyer.email));
      orders := orders[orderId := order.(paymentStatus := IN_PROCESS)];
      var created := CreateTransaction(orderId, order.buyer.value, txnId, hashFinal);
      if created.Err? {
        return Raised(created.error);
      }
      r := Done;
    }

    /** createTransaction: insert an INITIATED transaction; a taken external id violates its unique constraint. */
    method CreateTransaction(orderId: OrderId, buyer: UserId, txnId: string, hash: string)
      returns (r: Result<Transaction, Failure>)
      requires Valid() && orderId in orders && buyer in users
      modifies this
      ensures Valid()
      ensures txnId in old(transactions) ==> r == Err(IntegrityError) && unchanged(this)
      ensures txnId !in old(transactions) ==>
                && r == Ok(Transaction(orderId, buyer, txnId, hash, INITIATED))
                && transactions == old(transactions)[txnId := r.value]
                && users == old(users) && addresses == old(addresses) && items == old(items)
                && orders == old(orders) && invoices == old(invoices)
                && nextOrderId == old(nextOrderId) && nextInvoiceId == old(nextInvoiceId)
    {
      if txnId in transactions {
        return Err(IntegrityError);
      }
      var t := Transaction(orderId, buyer, txnId, hash, INITIATED);
      transactions := transactions[txnId := t];
      r := Ok(t);
    }

    /**
     * save_transaction_status: 404 for an unknown id, 417 once the
     * transaction is SUCCESS or FAILURE; otherwise the received status is
     * stored as it is. SUCCESS also marks the order PAID and redirects to
     * the success page; "FAILED" redirects to the failure page; any other
     * status gets no response.
     */
    method SaveTransactionStatus(txnId: string, txnStatus: string) returns (r: Response)
      requires Valid()
      modifies this
      ensures Valid()
      ensures txnId !in old(transactions) ==> r == NotFound && unchanged(this)
      ensures txnId in old(transactions) && Settled(old(transactions)[txnId].status) ==>
                r == ExpectationFailed && unchanged(this)
      ensures txnId in old(transactions) && !Settled(old(transactions)[txnId].status) ==>
                var t := old(transactions)[txnId];
                && t.order in old(orders)
                && transactions == old(transactions)[txnId := t.(status := txnStatus)]
                && (txnStatus == SUCCESS ==>
                      && r == Redirect(SuccessPage)
                      && orders == old(orders)[t.order := old(orders)[t.order].(paymentStatus := PAID)])
                && (txnStatus != SUCCESS ==>
                      && orders == old(orders)
                      && r == (if txnStatus == FAILED then Redirect(FailurePage) else NoResponse))
      ensures users == old(users) && addresses == old(addresses) && items == old(items)
      ensures invoices == old(invoices) && nextOrderId == old(nextOrderId) && nextInvoiceId == old(nextInvoiceId)
    {
      if txnId !in transactions {
        return NotFound;
      }
      var t := transactions[txnId];
      if Settled(t.status) {
        return ExpectationFailed;
      }
      transactions := transactions[txnId := t.(status := txnStatus)];
      if txnStatus == SUCCESS {
        orders := orders[t.order := orders[t.order].(paymentStatus := PAID)];
        return Redirect(SuccessPage);
      } else if txnStatus == FAILED {
        return Redirect(FailurePage);
      }
      r := NoResponse;
    }
  }
}
