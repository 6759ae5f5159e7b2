/** The rows of the storefront's tables and the values its handlers exchange
    with callers and with the payment gateway. Prices and totals are whole
    cents; identities are the integers the database hands out. */
module Records {

  datatype Option<+T> = None | Some(value: T)

  /** The identity carried by a valid session token: the user's id and admin flag. */
  datatype Claims = Claims(id: int, isAdmin: bool)

  /** A row of the `products` table (its id is the key of the catalog map). */
  datatype Product = Product(title: string, description: string, price: int, image: string)

  /** The contact fields a checkout request carries. */
  datatype Contact = Contact(name: string, email: string, phone: string, address: string, landmark: string)

  datatype OrderStatus = Pending | Paid

  /** A row of the `orders` table (its id is the key of the order map). */
  datatype Order = Order(userId: int, contact: Contact, total: int, status: OrderStatus)

  /** A row of the `order_items` table. */
  datatype OrderItem = OrderItem(orderId: nat, productId: int, quantity: int, price: int)

  /** One row of the cart joined with the live catalog, as checkout reads it. */
  datatype SnapshotRow = SnapshotRow(productId: int, quantity: int, title: string, price: int)

  /** One entry of the payment session's `line_items`. */
  datatype LineItem = LineItem(currency: string, name: string, unitAmount: int, quantity: int)

  /** What checkout asks the payment gateway to create. */
  datatype SessionRequest = SessionRequest(
    paymentMethodTypes: seq<string>,
    lineItems: seq<LineItem>,
    mode: string,
    successUrl: string,
    cancelUrl: string,
    orderRef: string)

  /** The gateway's answer to a session request: a redirect url, or an error. */
  datatype GatewayReply = SessionCreated(url: string) | SessionFailed

  /** A gateway event whose signature checked out: its type and `metadata.orderId`. */
  datatype Event = Event(kind: string, orderRef: string)

  /** Why a request was turned down (the error responses of the handlers). */
  datatype Failure =
    | Unauthenticated    // no token, or a token that does not verify
    | AdminsOnly         // a valid token without the admin flag
    | EmptyCart          // checkout found no joined cart rows
    | CheckoutFailed     // a query or the gateway call threw inside checkout
    | SignatureRejected  // the webhook event did not verify

  datatype Reply<+T> = Ok(value: T) | Err(failure: Failure)

  /** What a successful checkout answers: the gateway's url and the new order row. */
  datatype CheckoutReply = CheckoutReply(url: string, orderId: nat, order: Order)

  /** Which database statement of a checkout request throws, if any. */
  datatype Fault =
    | NoFault
    | SnapshotFails
    | OrderInsertFails
    | ItemInsertFails(index: nat)  // the insert of the order item for row `index`
    | CartClearFails

  /** True when, with `rows` snapshotted, the fault leaves the order row written. */
  predicate OrderWritten(fault: Fault, rows: seq<SnapshotRow>)
  {
    rows != [] && fault != SnapshotFails && fault != OrderInsertFails
  }

  /** True when, with `rows` snapshotted, every order item insert succeeds. */
  predicate ItemsWritten(fault: Fault, rows: seq<SnapshotRow>)
  {
    OrderWritten(fault, rows) && !(fault.ItemInsertFails? && fault.index < |rows|)
  }

  /** True when, with `rows` snapshotted, the cart delete runs and succeeds. */
  predicate CartCleared(fault: Fault, rows: seq<SnapshotRow>)
  {
    ItemsWritten(fault, rows) && fault != CartClearFails
  }
}
