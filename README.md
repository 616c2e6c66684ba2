# Billing app: orders, GST invoices and payments

This project models the request handlers of a small Django billing
application (`django-react/invoice/views.py`) over the tables declared in
`django-react/invoice/models.py`, and proves properties of that model.

The application keeps users, their addresses, a catalogue of items, orders,
invoices and payment transactions. Its handlers do the following:

- create and update an order from a JSON list of item ids and quantities,
  with a tax-exclusive total and a grand total;
- soft-delete orders and invoices;
- generate an invoice for an order. Every earlier active invoice of the
  order is superseded first. Each line's tax is then split by Indian GST
  rules: IGST when the seller's state differs from the buyer's, otherwise
  equal CGST and SGST halves;
- start a payment by recording an INITIATED transaction, hashed for the
  payment gateway;
- record the gateway's status callback.

Module layout:

| file | module | contents |
|---|---|---|
| `wrappers.dfy` | `Wrappers` | `Option` and `Result` |
| `models.dfy` | `Models` | the entities as datatypes, the exceptions and responses |
| `tax.dfy` | `Tax` | quantity defaulting, line amounts, the GST allocation |
| `orders.dfy` | `Orders` | resolving a payload into lines, order totals, linking lines to an order |
| `invoicing.dfy` | `Invoicing` | buyer and seller states, invoice lines, superseding invoices |
| `payments.dfy` | `Payments` | payment guards and the gateway hash string |
| `views.dfy` | `Views` | the `Store` class: the tables as fields, one method per handler |
| `scenarios.dfy` | `Scenarios` | worked examples and request sequences |

The handlers change the database step by step, so they are methods of the
class `Views.Store`. The class's fields are the tables: maps from row id
to row value, transactions keyed by their unique external id, addresses
keyed by their owning user. The loops inside the handlers are methods with
loop invariants. Each one is proved against a function that specifies it:
`Orders.ResolveItems` against `Orders.Resolve`, `Subtotal` and `TaxTotal`;
`Invoicing.BuildInvoiceLines` against `Invoicing.InvoiceLines`;
`Store.PopulateItems` against `Orders.Linked`;
`Store.ClearPreviousInvoices` against `Invoicing.Superseded`. The class
invariant `Store.Valid` holds across every method. It covers:

- foreign keys;
- row ids below the id counters;
- order lines that name catalogue items, each item at most once;
- at most one active (not soft-deleted) invoice per order.

Every response is a `Models.Response`. Exceptions are `Models.Failure`
values. `Models.Raised` maps them the way the handlers' `except` clauses
do: a missing row gives 404, anything else gives 500.

The model follows the code as written, including where its behaviour is surprising:

- Nothing is wrapped in a database transaction. A write made before a later
  failure stays. Examples: an invoice generation whose seller has no
  address leaves the order with no active invoice. A payment whose
  transaction insert fails leaves the order IN_PROCESS.
- A missing 'qty' key raises KeyError (500). Only a null or zero quantity
  defaults to 1.
- `update_order` without an 'items' key fails with 500, because its `or`
  guard indexes the missing key.
- The callback compares against the status "FAILED", while the terminal set
  and the enumeration use "FAILURE". A "FAILED" transaction is therefore
  never terminal (`Payments.FailedIsNotSettled`,
  `Scenarios.RepeatedFailedCallback`).
- A repeated item in an order payload counts in the totals once per entry.
  The order keeps only its first line, because adding an item that is
  already in a many-to-many set does nothing
  (`Orders.LinkedKeepsFirst`, `Orders.RepeatedItemCountedOnceAsLine`).

## Model

| member | source | states |
|---|---|---|
| Models.NewOrder | django-react/invoice/models.py:51-61 | a new order is PENDING, not deleted and has no lines; it holds the buyer, the date and the two totals it was given |
| Models.Raised | django-react/invoice/views.py:110-115 | a caught exception answers 404 exactly when it is DoesNotExist and 500 otherwise |
| Tax.GetQty | django-react/invoice/views.py:130-135 | a missing 'qty' key fails with KeyError; a null or zero quantity becomes 1; any other quantity is kept; a returned quantity is never 0 |
| Tax.AllocateTax | django-react/invoice/views.py:302-315 | different states (an unknown seller state counts as different): IGST percentage and amount are the whole rate and tax, and CGST/SGST keep the new-row defaults; equal states: CGST and SGST each get half the rate and half the tax, and IGST keeps its defaults; exactly one of the two heads is set; the amounts always add up to the line tax |
| Tax.AllocationKeepsTax | django-react/invoice/views.py:302-315 | for the same line, the intra-state CGST + SGST equals the inter-state IGST, and both equal the line tax |
| Tax.UnassignedSellerIsInterState | django-react/invoice/views.py:317-327 | an item without a seller is always charged IGST at its full rate |
| Orders.ResolveEntry | django-react/invoice/views.py:88-99 | one payload entry: a missing 'id' gives KeyError, an unknown item gives DoesNotExist, a missing 'qty' gives KeyError; otherwise the line is the item with its defaulted quantity; success happens exactly when the entry resolves |
| Orders.Resolve | django-react/invoice/views.py:88-99 | resolving succeeds exactly when every entry resolves; it then yields one line per entry, in order, each the entry's own line |
| Orders.ResolveFailsAtFirstBadEntry | django-react/invoice/views.py:88-99 | when entry k is the first that does not resolve, resolving fails with entry k's error |
| Orders.ResolveItems | django-react/invoice/views.py:83-101 | the loop's result equals Resolve on the same entries; on success its amount is Subtotal over the resolved lines, its tax is TaxTotal, and its grand total is their sum |
| Orders.TotalsAppend | django-react/invoice/views.py:95-97 | the totals of a concatenation are the sums of the totals of its parts |
| Orders.SingleLineTotals | django-react/invoice/views.py:95-97 | a single line's total is price × qty and its tax is rate/100 × price × qty |
| Orders.TotalsNonNegative | django-react/invoice/views.py:95-101 | with non-negative prices, quantities and rates, neither total is negative |
| Orders.Linked | django-react/invoice/views.py:117-119 | the lines an order receives never link one item twice, and each is one of the given lines |
| Orders.LinkedInCatalog | django-react/invoice/views.py:117-119 | linked lines name catalogue items when the given lines do |
| Orders.LinkedCovers | django-react/invoice/views.py:117-119 | every item of the given lines is linked |
| Orders.LinkedDistinct | django-react/invoice/views.py:117-119 | lines with distinct items are linked exactly as given |
| Orders.LinkedKeepsFirst | django-react/invoice/views.py:117-119 | the first line of every item is linked, with its own quantity, whatever later lines repeat that item |
| Orders.LinkedPreservesTotalsWhenDistinct | django-react/invoice/views.py:95-119 | for distinct items, the linked lines have the same totals as the payload |
| Orders.RepeatedItemCountedOnceAsLine | django-react/invoice/views.py:95-119 | an item given twice (qty 1, then 2) counts 30.00 in the total, but only its first line (10.00) is linked |
| Invoicing.BuyerState | django-react/invoice/views.py:336-343 | a null buyer raises AttributeError; a buyer without an address raises DoesNotExist; otherwise it is the state of the buyer's address |
| Invoicing.SellerState | django-react/invoice/views.py:317-327 | an item without a seller has no state; a seller without an address raises DoesNotExist; otherwise it is the state of the seller's address |
| Invoicing.InvoiceLines | django-react/invoice/views.py:265-280 | succeeds exactly when every line's seller state is known, and fails only with DoesNotExist; on success there is one invoice line per order line, in order, each carrying that line's tax allocation |
| Invoicing.InvoiceLineShape | django-react/invoice/views.py:269-280 | every invoice line keeps its order line's item and quantity; its breakdown adds up to the line tax; a line without a seller is IGST |
| Invoicing.InvoiceTaxMatchesLines | django-react/invoice/views.py:272-287 | the breakdown amounts of the invoice lines add up to the order lines' total tax |
| Invoicing.BuildInvoiceLines | django-react/invoice/views.py:259-282 | the loop fails with DoesNotExist exactly when InvoiceLines fails; otherwise it returns InvoiceLines' lines, the Subtotal and the TaxTotal, and a grand total that is their sum |
| Invoicing.Superseded | django-react/invoice/views.py:329-334 | same invoice ids; every active invoice of the order is soft-deleted and has no lines; every other invoice is unchanged |
| Invoicing.SupersededActive | django-react/invoice/views.py:329-334 | after superseding, the order has no active invoice, and every other order keeps exactly its active invoices |
| Invoicing.OneActiveInvoice | django-react/invoice/views.py:240-247 | a new active invoice added after superseding is the order's only active invoice |
| Payments.FailedIsNotSettled | django-react/invoice/views.py:429-441 | "FAILED" neither settles a transaction nor blocks a payment; "FAILURE" settles it |
| Payments.HashString | django-react/invoice/views.py:389 | the hashed string is the pipe-join of merchant key, transaction id, grand total, buyer name, buyer email, ten empty fields and merchant salt |
| Views.CreateOrderPlan | django-react/invoice/views.py:78-115 | a missing or empty items list gives 417; a missing 'buyer_id' gives 500; a buyer id that is not a BUYER gives 404; an entry that does not resolve answers as its exception does (404 for an unknown item, 500 for a missing 'id' or 'qty'); the request is accepted exactly when the items are non-empty, the buyer is a BUYER and every entry resolves; it then yields the buyer and Resolve's lines |
| Views.Store.constructor | django-react/invoice/models.py:7-94 | a store over tables that satisfy the foreign keys, counters and one-active-invoice rule |
| Views.Store.CreateOrderRow | django-react/invoice/views.py:121-128 | one new order under a fresh id: PENDING, not deleted, without lines; no other table changes |
| Views.Store.PopulateItems | django-react/invoice/views.py:117-119 | the order's lines become Linked of the given lines; nothing else changes |
| Views.Store.CreateOrder | django-react/invoice/views.py:72-115 | a rejected request writes nothing and answers as CreateOrderPlan says; otherwise it answers 201 with a fresh order holding Subtotal, Subtotal + TaxTotal and the linked lines |
| Views.Store.UpdateOrder | django-react/invoice/views.py:140-184 | 404 for an unknown order or item, 500 without 'items' or for a missing key, and no write in those cases; otherwise the order's lines become the linked new lines and both totals are recomputed from them, with nothing else changed |
| Views.Store.ReplaceOrderLines | django-react/invoice/views.py:167-174 | the order's lines, total price and grand total are replaced; nothing else changes |
| Views.Store.ClearOrderLines | django-react/invoice/views.py:170 | the order has no lines; nothing else changes |
| Views.Store.SaveOrderTotals | django-react/invoice/views.py:167-174 | only the order's two totals change |
| Views.Store.DeleteOrder | django-react/invoice/views.py:186-205 | 404 for an unknown order; otherwise only the order's soft-delete flag is set |
| Views.Store.ClearPreviousInvoices | django-react/invoice/views.py:329-334 | the invoice table becomes Superseded of the old one; nothing else changes |
| Views.Store.BuildInvoice | django-react/invoice/views.py:291-300 | one new invoice under a fresh id: the order, the three totals, no lines, not deleted |
| Views.Store.AttachInvoiceLines | django-react/invoice/views.py:286-287 | for lines whose items are distinct, as populateInvoice passes them, the invoice's lines become the given lines; nothing else changes |
| Views.Store.PopulateInvoice | django-react/invoice/views.py:259-289 | when a seller's state is unknown: 404 and no write; otherwise 201 with a new active invoice holding InvoiceLines' lines, TaxTotal, Subtotal and their sum |
| Views.Store.CreateInvoice | django-react/invoice/views.py:234-257 | unknown order: 404, no write; null buyer: 500, no write; buyer without address: 404, no write; otherwise the old invoices are superseded and then either one new invoice is created (201) or, when a seller has no address, 404 with the order left without an active invoice; on 201 the new invoice is the order's only active one, its lines' tax equals its total tax, and grand total = total price + total tax; other orders' active invoices are unchanged |
| Views.Store.DeleteInvoice | django-react/invoice/views.py:345-364 | 404 for an unknown invoice; otherwise only the soft-delete flag is set and the lines stay |
| Views.Store.MakePayment | django-react/invoice/views.py:366-405 | 404 for an unknown order; 417 when it is PAID; 403 when this order already has an INITIATED or SUCCESS transaction with this id; 500 for a null buyer; these write nothing. Otherwise the order becomes IN_PROCESS; then a taken transaction id answers 500, or an INITIATED transaction carrying the digest of HashString is stored (200) |
| Views.Store.CreateTransaction | django-react/invoice/views.py:407-415 | a taken external id fails with IntegrityError and writes nothing; otherwise one INITIATED transaction under that id is stored |
| Views.Store.SaveTransactionStatus | django-react/invoice/views.py:417-448 | 404 for an unknown id and 417 for a SUCCESS or FAILURE transaction, without a write; otherwise the received status is stored verbatim. SUCCESS also marks the order PAID and redirects to the success page; "FAILED" redirects to the failure page; any other status gets no response |
| Scenarios.WidgetOrderTotals | django-react/invoice/views.py:88-101 | two widgets at 1000.00 with 18% tax total 2000.00 before tax and 2360.00 in all; a null quantity resolves to 1 |
| Scenarios.IntraStateWidget | django-react/invoice/views.py:308-314 | buyer and seller both in MH: CGST and SGST at 9% each, 180.00 each, out of a line tax of 360.00 |
| Scenarios.InterStateWidget | django-react/invoice/views.py:303-307 | seller in KA, buyer in MH: IGST at 18%, 360.00 |
| Scenarios.EmptyOrderRejected | django-react/invoice/views.py:78-79 | an empty items list answers 417 and leaves the store unchanged |
| Scenarios.PayTwice | django-react/invoice/views.py:382-395 | paying twice with one transaction id: the first call succeeds and leaves the order IN_PROCESS with an INITIATED transaction; the second call is refused with 403 |
| Scenarios.CallbackAfterSuccess | django-react/invoice/views.py:429-439 | after a SUCCESS callback the order is PAID, and every later callback answers 417 |
| Scenarios.RepeatedFailedCallback | django-react/invoice/views.py:429-441 | two "FAILED" callbacks are both accepted and both redirect to the failure page |
| Scenarios.InvoiceTwice | django-react/invoice/views.py:237-247 | when the first invoice generation succeeds, a second one succeeds too, and it leaves exactly one active invoice for the order |

## Left out

- HTTP and framework plumbing. This covers request parsing, JSON responses,
  serializers, URL routing, and the CSRF and authentication decorators.
  Responses are `Models.Response` values; a redirect is its target string.
- The generic list/create views and the read-only `get_*` views
  (django-react/invoice/views.py:25-70, 207-232). The read-only views
  render tables. On POST the list/create views insert rows; since the
  serializers mark an order's buyer and items and an invoice's order as
  read-only (django-react/invoice/serializers.py:59-60, 72-73), such rows
  can be an order without buyer or lines, or an invoice without an order.
- Creating users, items, addresses and such rows. These go through the
  generic views. `Views.Store.constructor` takes any tables that satisfy
  the store invariant instead; the invariant admits an order without a
  buyer and an invoice without an order.
- Money arithmetic. Decimal and float values are exact `real`s, so the
  model has no float conversion of tax rates and no rounding to two
  decimal places.
- Save-time column bounds are not modelled. The money columns hold at most
  ten digits (django-react/invoice/models.py:56-57, 72-75), and the
  transaction's external id and status have maximum lengths
  (django-react/invoice/models.py:90, 92). Depending on the database, a
  save that exceeds them fails; the model stores any value.
- `str(Decimal)` and SHA-512. `MakePayment` takes both as function
  parameters.
- `date.today()` is a parameter. The `auto_now` timestamps are not modelled.
- Logging is not modelled.
- Payload values of the wrong JSON type are not modelled. This covers a
  non-integer or fractional 'qty', an 'items' value that is not a list,
  and a txn_id that is not a string. A missing key is modelled for
  'items', 'buyer_id' and each entry's 'id' and 'qty' in create_order and
  update_order.
- The missing 'txn_id'/'order_id'/'txnStatus' keys in `make_payment` and
  `save_transaction_status` are left out. The model takes these values as
  parameters.
- A null item price, which would raise during summation, is not modelled:
  item prices are always present.
- The order of rows returned by `order.items.all()` and by the
  invoice-filter query is not modelled. The model processes lines in the
  order they were linked and retires invoices as a set.
- Transaction ordering and concurrency: every request runs alone. The
  state before and after a request is modelled; nothing runs between
  requests.
- The `Item_details` rows are embedded in their invoice lines. A failed
  invoice generation leaves orphan breakdown rows behind; these are not
  modelled.
- The `Item.item_details` and `Item.qty` columns are left out. So are the
  GSTIN/PAN fields and the tax-type columns; the handlers never read
  them.
- The GST allocation compares states as exact strings, as the handler
  does.
