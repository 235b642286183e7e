/** The rows of the shop's database that the checkout protocol reads and writes.

    Rows that are only ever inserted (sessions, orders, payments) live in sequences and are named
    by their index, so a fresh id is the length of the table.  The reservation rows of a session
    are a map from variant to row, which is the UNIQUE (checkout_session_id, variant_id)
    constraint.  Time is one integer clock, in seconds.
 */
module Tables {
  datatype Option<+T> = None | Some(value: T)

  /** CHECK (quantity > 0) on cart items, order items and reservations. */
  type Qty = n: int | 0 < n witness 1

  type VariantId = nat
  type ProductId = nat
  type UserId = nat
  type SessionId = nat
  type OrderId = nat
  type PaymentId = nat
  type EventId = nat

  const RESERVATION_TTL: int := 180
  const PAYMENT_TTL: int := 900

  // Inventory

  datatype Stock = Stock(stock: int, reserved: int, sold: int) {
    /** The CHECK constraints of the inventory table. */
    predicate Checked() {
      0 <= reserved <= stock && 0 <= sold
    }
  }

  datatype Movement = Movement(variant: VariantId, delta: int, order: Option<OrderId>)

  datatype Line = Line(variant: VariantId, qty: Qty)

  datatype Book = Book(rows: map<VariantId, Stock>, ledger: seq<Movement>)

  predicate AllChecked(rows: map<VariantId, Stock>) {
    forall v <- rows :: rows[v].Checked()
  }

  // Catalog

  datatype ProductStatus = Draft | Published | Unavailable | Archived

  datatype Item = Item(product: ProductId, active: bool)

  // Checkout

  datatype SessionStatus = Active | Processing | Completed | Expired | Cancelled

  predicate Live(status: SessionStatus) {
    status == Active || status == Processing
  }

  /** One reservation row.  A row's Active is the source's RESERVED. */
  datatype Hold = Hold(qty: Qty, status: SessionStatus, expires: int)

  datatype Session = Session(user: UserId, status: SessionStatus, expires: int, rows: map<VariantId, Hold>)

  datatype OrderStatus = Placed | Packed | Shipped | Delivered | OrderCancelled

  datatype PaymentStatus = Pending | Paid | Failed | CodPending

  /** session links a reservation-backed order to its hold; cod is the payment method. */
  datatype Order = Order(session: Option<SessionId>, cod: bool, lines: seq<Line>, status: OrderStatus,
                         paid: PaymentStatus)

  datatype GatewayStatus = Created | Captured | GatewayFailed

  datatype Payment = Payment(order: OrderId, status: GatewayStatus, event: Option<EventId>, refundDue: bool)

  datatype Shop = Shop(
    now: int,
    book: Book,
    items: map<VariantId, Item>,
    products: map<ProductId, ProductStatus>,
    sessions: seq<Session>,
    orders: seq<Order>,
    payments: seq<Payment>)

  predicate Buyable(items: map<VariantId, Item>, products: map<ProductId, ProductStatus>, v: VariantId) {
    v in items && items[v].active && items[v].product in products && products[items[v].product] == Published
  }

  function StockOf(rows: map<VariantId, Stock>, v: VariantId): int {
    if v in rows then rows[v].stock else 0
  }

  function Max(a: int, b: int): int {
    if a < b then b else a
  }

  function Min(a: int, b: int): int {
    if a < b then a else b
  }
}
