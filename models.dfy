/**
 * The tables of the invoice application: users with their one address,
 * catalogue items, orders with their order lines, invoices with their
 * invoice lines and tax breakdowns, and payment transactions.
 *
 * Every table is a map from a row id to a row value; the one-to-one
 * Address is a map keyed by its user, and transactions are keyed by their
 * unique external transaction id (see Views.Store).
 */
module Models {
  import opened Wrappers

  type UserId = int
  type ItemId = int
  type OrderId = int
  type InvoiceId = int

  datatype UserType = BUYER | SELLER | BROKER | GUEST

  /** A buyer, seller, broker or guest; the GSTIN and PAN columns are not modelled. */
  datatype User = User(name: string, email: string, userType: UserType)

  datatype AddressType = HOME | WORK

  /** The (single) address of a user; its state decides the GST jurisdiction. */
  datatype Address = Address(
    line1: string,
    line2: string,
    addressType: AddressType,
    isPrimary: bool,
    city: string,
    state: string,
    zipcode: string,
    country: string)

  /** A catalogue item. The seller is an optional foreign key. */
  datatype Item = Item(name: string, price: real, taxPercentage: real, seller: Option<UserId>)

  /** The calendar day an order was placed; supplied by the caller, there is no clock. */
  datatype Date = Date(year: int, month: int, day: int)

  datatype PaymentStatus = PENDING | IN_PROCESS | PAID | COD

  /** A row of the order/item relationship: which item, how many. */
  datatype OrderLine = OrderLine(item: ItemId, qty: int)

  datatype Order = Order(
    orderDate: Date,
    lines: seq<OrderLine>,
    buyer: Option<UserId>,
    totalPrice: real,
    grandTotal: real,
    paymentStatus: PaymentStatus,
    isDeleted: bool)

  /**
   * The tax breakdown attached to one invoice line. Percentages are
   * nullable and default to null; amounts default to 0.
   */
  datatype ItemDetails = ItemDetails(
    igstPercentage: Option<real>,
    sgstPercentage: Option<real>,
    cgstPercentage: Option<real>,
    igstAmount: real,
    sgstAmount: real,
    cgstAmount: real)

  /** A freshly created breakdown row: no percentages, all amounts 0. */
  const BlankDetails: ItemDetails := ItemDetails(None, None, None, 0.0, 0.0, 0.0)

  /** The whole tax a breakdown allocates, over the three GST heads. */
  function DetailsTax(d: ItemDetails): real {
    d.igstAmount + d.cgstAmount + d.sgstAmount
  }

  /** A row of the invoice/item relationship with its own breakdown row. */
  datatype InvoiceLine = InvoiceLine(item: ItemId, qty: int, details: ItemDetails)

  datatype Invoice = Invoice(
    order: Option<OrderId>,
    lines: seq<InvoiceLine>,
    totalTax: real,
    totalPrice: real,
    grandTotal: real,
    isDeleted: bool)

  /**
   * A payment transaction. Its status is a plain string: the enumeration
   * declares INITIATED, SUCCESS and FAILURE, but the status written by the
   * payment callback is stored as received.
   */
  datatype Transaction = Transaction(
    order: OrderId,
    user: UserId,
    externalId: string,
    hash: string,
    status: string)

  const INITIATED: string := "INITIATED"
  const SUCCESS: string := "SUCCESS"
  const FAILURE: string := "FAILURE"

  /** What a new order row holds before its lines are added. */
  function NewOrder(buyer: UserId, today: Date, totalPrice: real, grandTotal: real): (o: Order)
    ensures o.paymentStatus == PENDING && !o.isDeleted && o.lines == []
    ensures o.buyer == Some(buyer) && o.orderDate == today
    ensures o.totalPrice == totalPrice && o.grandTotal == grandTotal
  {
    Order(today, [], Some(buyer), totalPrice, grandTotal, PENDING, false)
  }

  /** The exceptions the views raise and catch. */
  datatype Failure =
    | DoesNotExist     // a lookup by id found no row
    | KeyError         // a JSON key the view indexes is missing
    | AttributeError   // a nullable foreign key is followed while null
    | IntegrityError   // a unique constraint rejects an insert

  /** What a view answers; each constructor stands for one HTTP status or a redirect. */
  datatype Response =
    | Created(id: int)      // 201 with the new row
    | Done                  // 200
    | Redirect(url: string) // 302 to a payment landing page
    | Forbidden             // 403
    | NotFound              // 404
    | ExpectationFailed     // 417
    | ServerError           // 500
    | NoResponse            // the view returns nothing

  /** The HTTP status code of a response (0 when the view returns nothing). */
  function StatusCode(r: Response): int {
    match r
    case Created(_) => 201
    case Done => 200
    case Redirect(_) => 302
    case Forbidden => 403
    case NotFound => 404
    case ExpectationFailed => 417
    case ServerError => 500
    case NoResponse => 0
  }

  /** A missing row answers 404; every other caught exception answers 500. */
  function Raised(f: Failure): (r: Response)
    ensures StatusCode(r) == 404 <==> f == DoesNotExist
    ensures StatusCode(r) == 500 <==> f != DoesNotExist
  {
    if f == DoesNotExist then NotFound else ServerError
  }
}
