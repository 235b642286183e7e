/** The whole protocol as one state machine: every committed service call, the sweeper, the clock
    and the writers outside the checkout flow are events on one shop. */
module Protocol {
  import opened Tables
  import opened Inventory
  import opened CheckoutSessions
  import opened CheckoutPayments
  import opened Lifecycle
  import opened Payments
  import opened AdminOrders
  import opened AdminInventory
  import opened LegacyCheckout

  datatype Event =
    | Tick(seconds: nat)
    | Checkout(user: UserId, cart: seq<Line>)
    | Cancel(session: SessionId, user: UserId)
    | Pay(session: SessionId, user: UserId, gatewayOk: bool)
    | Hook(webhook: Webhook, signatureOk: bool)
    | SweepTick
    | Adjust(variant: VariantId, mode: Mode, value: nat, reasonOk: bool)
    | MoveOrder(order: OrderId, move: Move)
    | CodPaid(order: OrderId)
    | CancelOrder(order: OrderId)
    | PlaceLegacy(lines: seq<Line>, cod: bool, gatewayOk: bool)
    | ImportCsv(skus: map<Sku, VariantId>, rows: seq<CsvRow>)
    | EditCatalog(items: map<VariantId, Item>, products: map<ProductId, ProductStatus>)

  /** CHECK constraints, and the foreign key from payments to orders. */
  predicate Sound(s: Shop) {
    AllChecked(s.book.rows) && PaymentsResolve(s)
  }

  /** A cart line is unique per variant; other events are unrestricted. */
  predicate Legal(e: Event) {
    e.Checkout? ==> Distinct(e.cart)
  }

  function Step(s: Shop, e: Event): Shop
    requires Sound(s)
  {
    match e
    case Tick(seconds) => s.(now := s.now + seconds)
    case Checkout(user, cart) => StartCheckout(s, user, cart).1
    case Cancel(session, user) => CancelCheckout(s, session, user).1
    case Pay(session, user, gatewayOk) => PaymentStarted(s, session, user, gatewayOk).1
    case Hook(webhook, signatureOk) => WebhookHandled(s, webhook, signatureOk).1
    case SweepTick => Sweep(s)
    case Adjust(v, mode, value, reasonOk) => StockAdjusted(s, v, mode, value, reasonOk).1
    case MoveOrder(order, move) => OrderMoved(s, order, move).1
    case CodPaid(order) => CodMarkedPaid(s, order).1
    case CancelOrder(order) => OrderCancelledBy(s, order).1
    case PlaceLegacy(lines, cod, gatewayOk) => OrderPlacedBy(s, lines, cod, gatewayOk).1
    case ImportCsv(skus, rows) => CsvImported(s, skus, rows)
    case EditCatalog(items, products) => s.(items := items, products := products)
  }

  // The ledger and the CHECK constraints hold over every run of every event

  /** Stock not explained by the ledger: constant, so equal to the initial stock of a fresh ledger. */
  function Unrecorded(b: Book, v: VariantId): int {
    StockOf(b.rows, v) - NetMoved(b.ledger, v)
  }

  predicate Balanced(b: Book, c: Book) {
    c.rows.Keys == b.rows.Keys && forall v <- b.rows :: Unrecorded(c, v) == Unrecorded(b, v)
  }

  lemma PostIsBalanced(op: Op, b: Book, lines: seq<Line>, o: OrderId)
    requires AllChecked(b.rows) && Post(op, b, lines, o).Some?
    ensures AllChecked(Post(op, b, lines, o).value.rows) && Balanced(b, Post(op, b, lines, o).value)
  {
    PostKeepsChecks(op, b, lines, o);
    forall v <- b.rows
      ensures Unrecorded(Post(op, b, lines, o).value, v) == Unrecorded(b, v)
    {
      PostBalances(op, b, lines, o, v);
    }
  }

  lemma CaptureIsBalanced(s: Shop, p: PaymentId, event: Option<EventId>)
    requires Sound(s) && p < |s.payments|
    ensures Sound(CaptureHandled(s, p, event).1) && Balanced(s.book, CaptureHandled(s, p, event).1.book)
  {
    var o := s.payments[p].order;
    var op := if s.orders[o].session.Some? then Op.CommitSale else Consume;
    if Post(op, s.book, s.orders[o].lines, o).Some? {
      PostIsBalanced(op, s.book, s.orders[o].lines, o);
    }
  }

  lemma FailureIsBalanced(s: Shop, p: PaymentId, event: Option<EventId>)
    requires Sound(s) && p < |s.payments|
    ensures Sound(MarkedFailed(s, p, event)) && Balanced(s.book, MarkedFailed(s, p, event).book)
  {
    var o := s.payments[p].order;
    if Post(Release, s.book, s.orders[o].lines, o).Some? {
      PostIsBalanced(Release, s.book, s.orders[o].lines, o);
    }
  }

  lemma HookIsBalanced(s: Shop, w: Webhook, signatureOk: bool)
    requires Sound(s)
    ensures var t := WebhookHandled(s, w, signatureOk).1; Sound(t) && Balanced(s.book, t.book)
  {
    var found := FindPayment(s.payments, w.gatewayOrder);
    if found.Some? {
      CaptureIsBalanced(s, found.value, w.event);
      FailureIsBalanced(s, found.value, w.event);
    }
  }

  lemma StockSetIsBalanced(b: Book, v: VariantId, target: int)
    requires AllChecked(b.rows) && v in b.rows && b.rows[v].reserved <= target
    ensures AllChecked(StockSet(b, v, target).rows) && Balanced(b, StockSet(b, v, target))
  {
    forall w <- b.rows
      ensures Unrecorded(StockSet(b, v, target), w) == Unrecorded(b, w)
    {
      StockSetBalances(b, v, target, w, 0);
    }
  }

  lemma AdjustIsBalanced(s: Shop, v: VariantId, mode: Mode, value: nat, reasonOk: bool)
    requires Sound(s)
    ensures var t := StockAdjusted(s, v, mode, value, reasonOk).1; Sound(t) && Balanced(s.book, t.book)
  {
    if StockAdjusted(s, v, mode, value, reasonOk).0.Adjusted? {
      StockSetIsBalanced(s.book, v, TargetStock(mode, value, s.book.rows[v].stock));
    }
  }

  lemma OrderCancelIsBalanced(s: Shop, o: OrderId)
    requires Sound(s)
    ensures var t := OrderCancelledBy(s, o).1; Sound(t) && Balanced(s.book, t.book)
  {
    if o < |s.orders| && Post(Op.Restock, s.book, s.orders[o].lines, o).Some? {
      PostIsBalanced(Op.Restock, s.book, s.orders[o].lines, o);
    }
  }

  lemma PlacementIsBalanced(s: Shop, lines: seq<Line>, cod: bool, gatewayOk: bool)
    requires Sound(s)
    ensures var t := OrderPlacedBy(s, lines, cod, gatewayOk).1; Sound(t) && Balanced(s.book, t.book)
  {
    var op := if cod then Op.Decrement else Op.Reserve;
    if Post(op, s.book, lines, |s.orders|).Some? {
      PostIsBalanced(op, s.book, lines, |s.orders|);
    }
  }

  /** The checkout-side events leave the stock table alone. */
  predicate LeavesStockAlone(e: Event) {
    !e.Hook? && !e.Adjust? && !e.CancelOrder? && !e.PlaceLegacy? && !e.ImportCsv?
  }

  lemma StockLeftAlone(s: Shop, e: Event)
    requires Sound(s) && LeavesStockAlone(e)
    ensures Step(s, e).book == s.book && PaymentsResolve(Step(s, e))
  {
    if e.Pay? {
      PayLeavesStock(s, e.session, e.user, e.gatewayOk);
    } else if e.Checkout? || e.Cancel? {
      HoldsLeaveStock(s, e);
    }
  }

  lemma PayLeavesStock(s: Shop, i: SessionId, user: UserId, gatewayOk: bool)
    requires PaymentsResolve(s)
    ensures var t := PaymentStarted(s, i, user, gatewayOk).1; t.book == s.book && PaymentsResolve(t)
  {
  }

  lemma HoldsLeaveStock(s: Shop, e: Event)
    requires Sound(s) && (e.Checkout? || e.Cancel?)
    ensures Step(s, e).book == s.book && PaymentsResolve(Step(s, e))
  {
  }

  lemma ImportIsBalanced(s: Shop, skus: map<Sku, VariantId>, rows: seq<CsvRow>)
    requires Sound(s)
    ensures var t := CsvImported(s, skus, rows); Sound(t) && Balanced(s.book, t.book)
  {
    ChunkBalances(s.book, skus, rows, 0, 0);
    forall w <- s.book.rows
      ensures Unrecorded(ChunkApplied(s.book, skus, rows), w) == Unrecorded(s.book, w)
    {
      ChunkBalances(s.book, skus, rows, w, 0);
    }
  }

  lemma StepIsBalanced(s: Shop, e: Event)
    requires Sound(s)
    ensures Sound(Step(s, e)) && Balanced(s.book, Step(s, e).book)
  {
    match e
    case Hook(w, signatureOk) => HookIsBalanced(s, w, signatureOk);
    case Adjust(v, mode, value, reasonOk) => AdjustIsBalanced(s, v, mode, value, reasonOk);
    case CancelOrder(o) => OrderCancelIsBalanced(s, o);
    case PlaceLegacy(lines, cod, gatewayOk) => PlacementIsBalanced(s, lines, cod, gatewayOk);
    case ImportCsv(skus, rows) => ImportIsBalanced(s, skus, rows);
    case _ => StockLeftAlone(s, e);
  }

  function Run(s: Shop, es: seq<Event>): (t: Shop)
    requires Sound(s)
    ensures Sound(t)
    decreases |es|
  {
    if es == [] then s
    else
      StepIsBalanced(s, es[0]);
      Run(Step(s, es[0]), es[1..])
  }

  /** After any sequence of events, CSV rows, legacy orders and short reservations included, each
      variant's stock is its initial stock plus the sum of its movements, and the CHECK constraints
      0 <= reserved <= stock hold. */
  lemma {:induction false} LedgerExplainsStock(s: Shop, es: seq<Event>)
    requires Sound(s) && s.book.ledger == []
    ensures AllChecked(Run(s, es).book.rows)
    ensures Run(s, es).book.rows.Keys == s.book.rows.Keys
    ensures forall v <- s.book.rows ::
            Run(s, es).book.rows[v].stock == s.book.rows[v].stock + NetMoved(Run(s, es).book.ledger, v)
  {
    RunIsBalanced(s, es);
    assert forall v <- s.book.rows :: Unrecorded(Run(s, es).book, v) == s.book.rows[v].stock;
  }

  lemma {:induction false} RunIsBalanced(s: Shop, es: seq<Event>)
    requires Sound(s)
    ensures Balanced(s.book, Run(s, es).book)
    decreases |es|
  {
    if es != [] {
      StepIsBalanced(s, es[0]);
      RunIsBalanced(Step(s, es[0]), es[1..]);
    }
  }
}
