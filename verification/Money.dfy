/** Payments, orders and stock agree over every run: stock leaves at most once per order and comes
    back only if it left, PAID never regresses, and a captured payment is either a paid order or a
    refund that is due, never both. */
module Money {
  import opened Tables
  import opened Inventory
  import opened CheckoutSessions
  import opened CheckoutPayments
  import opened Lifecycle
  import opened Payments
  import opened AdminOrders
  import opened AdminInventory
  import opened LegacyCheckout
  import opened Protocol
  import opened Linkage

  /** What must have left stock for order o: its lines, once it is paid or COD. */
  function Taken(s: Shop, o: OrderId, v: VariantId): nat {
    if o < |s.orders| && StockWasDecremented(s.orders[o]) && v in s.book.rows then Total(s.orders[o].lines, v) else 0
  }

  /** What must have come back: what left, once the order is cancelled. */
  function Returned(s: Shop, o: OrderId, v: VariantId): nat {
    if o < |s.orders| && s.orders[o].status == OrderCancelled then Taken(s, o, v) else 0
  }

  ghost predicate FlowsOk(s: Shop) {
    forall o: OrderId, v: VariantId ::
      Out(s.book.ledger, o, v) == Taken(s, o, v) && In(s.book.ledger, o, v) == Returned(s, o, v)
  }

  /** Captured means the order is paid or a refund is due, not both; otherwise neither. */
  predicate SettledOk(s: Shop)
    requires PaymentsResolve(s)
  {
    forall p | 0 <= p < |s.payments| ::
      var paid := s.orders[s.payments[p].order].paid == Paid;
      if s.payments[p].status == GatewayStatus.Captured then paid != s.payments[p].refundDue
      else !paid && !s.payments[p].refundDue
  }

  ghost predicate MoneyOk(s: Shop) {
    Linked(s) && PaymentsResolve(s) && FlowsOk(s) && SettledOk(s)
  }

  // Frames

  /** The orders move stock in t exactly as in s. */
  predicate SameFlows(s: Shop, t: Shop) {
    |s.orders| <= |t.orders| &&
    (forall o | 0 <= o < |s.orders| ::
       && t.orders[o].lines == s.orders[o].lines
       && StockWasDecremented(t.orders[o]) == StockWasDecremented(s.orders[o])
       && (StockWasDecremented(s.orders[o]) ==>
           (t.orders[o].status == OrderCancelled <==> s.orders[o].status == OrderCancelled))) &&
    (forall o | |s.orders| <= o < |t.orders| :: !StockWasDecremented(t.orders[o]))
  }

  lemma FlowsFrame(s: Shop, t: Shop)
    requires FlowsOk(s) && SameFlows(s, t)
    requires t.book.rows.Keys == s.book.rows.Keys
    requires forall o: OrderId, v: VariantId ::
               Out(t.book.ledger, o, v) == Out(s.book.ledger, o, v) &&
                 In(t.book.ledger, o, v) == In(s.book.ledger, o, v)
    ensures FlowsOk(t)
  {
    forall o: OrderId, v: VariantId
      ensures Taken(t, o, v) == Taken(s, o, v) && Returned(t, o, v) == Returned(s, o, v)
    {
    }
  }

  /** Payments and orders settle in t as they did in s. */
  predicate SameSettling(s: Shop, t: Shop) {
    |s.orders| <= |t.orders| && |s.payments| <= |t.payments| && t.payments[..|s.payments|] == s.payments &&
    (forall o | 0 <= o < |s.orders| :: t.orders[o].paid == Paid <==> s.orders[o].paid == Paid)
  }

  lemma QuietFrame(s: Shop, t: Shop)
    requires PaymentsResolve(s) && FlowsOk(s) && SettledOk(s)
    requires t.book == s.book && SameFlows(s, t) && SameSettling(s, t)
    requires |t.payments| == |s.payments| ||
               (|t.payments| == |s.payments| + 1 &&
                t.payments[|s.payments|] == Payment(|s.orders|, Created, None, false)
                && |s.orders| < |t.orders| && t.orders[|s.orders|].paid != Paid)
    ensures PaymentsResolve(t) && FlowsOk(t) && SettledOk(t)
  {
    FlowsFrame(s, t);
    forall p | 0 <= p < |s.payments|
      ensures t.payments[p] == s.payments[p]
    {
      assert t.payments[..|s.payments|][p] == s.payments[p];
    }
  }

  /** An operation on the lines of order o, which then counts (or is cancelled), keeps the flows. */
  lemma FlowsPosted(s: Shop, t: Shop, op: Op, o: OrderId)
    requires FlowsOk(s) && AllChecked(s.book.rows)
    requires o < |t.orders| && Post(op, s.book, t.orders[o].lines, o) == Some(t.book)
    requires |s.orders| <= |t.orders| <= |s.orders| + 1
    requires forall q | 0 <= q < |s.orders| && q != o :: t.orders[q] == s.orders[q]
    requires o == |t.orders| - 1 || o < |s.orders| == |t.orders|
    requires o < |s.orders| ==> t.orders[o].lines == s.orders[o].lines
    requires StockWasDecremented(t.orders[o])
    requires Sign(op) == -1 ==>
               (o < |s.orders| ==> !StockWasDecremented(s.orders[o])) && t.orders[o].status != OrderCancelled
    requires Sign(op) == 1 ==>
               o < |s.orders| && StockWasDecremented(s.orders[o]) && s.orders[o].status != OrderCancelled
               && t.orders[o].status == OrderCancelled
    requires Sign(op) != 0
    ensures FlowsOk(t)
  {
    forall q: OrderId, v: VariantId
      ensures Out(t.book.ledger, q, v) == Taken(t, q, v) && In(t.book.ledger, q, v) == Returned(t, q, v)
    {
      LoopRecords(op, s.book, t.orders[o].lines, o, q, v);
      assert Out(s.book.ledger, q, v) == Taken(s, q, v);
    }
  }

  // Steps

  lemma HookKeepsMoney(s: Shop, w: Webhook, signatureOk: bool)
    requires MoneyOk(s)
    ensures MoneyOk(WebhookHandled(s, w, signatureOk).1)
  {
    HookKeepsLinks(s, w, signatureOk);
    HookIsBalanced(s, w, signatureOk);
    var found := FindPayment(s.payments, w.gatewayOrder);
    if found.Some? {
      CaptureKeepsMoney(s, found.value, w.event);
      FailureKeepsMoney(s, found.value, w.event);
    }
  }

  lemma CaptureKeepsMoney(s: Shop, p: PaymentId, event: Option<EventId>)
    requires MoneyOk(s) && p < |s.payments|
    ensures var t := CaptureHandled(s, p, event).1; PaymentsResolve(t) && FlowsOk(t) && SettledOk(t)
  {
    var (r, t) := CaptureHandled(s, p, event);
    var o := s.payments[p].order;
    assert OrderOk(s.orders[o], s.sessions);
    if r == CapturedPaid {
      FlowsPosted(s, t, Op.CommitSale, o);
    } else {
      FlowsFrame(s, t);
    }
  }

  lemma FailureKeepsMoney(s: Shop, p: PaymentId, event: Option<EventId>)
    requires MoneyOk(s) && p < |s.payments|
    ensures var t := MarkedFailed(s, p, event); PaymentsResolve(t) && FlowsOk(t) && SettledOk(t)
  {
    assert OrderOk(s.orders[s.payments[p].order], s.sessions);
    FlowsFrame(s, MarkedFailed(s, p, event));
  }

  lemma OrderCancelKeepsMoney(s: Shop, o: OrderId)
    requires MoneyOk(s)
    ensures MoneyOk(OrderCancelledBy(s, o).1)
  {
    OrderCancelKeepsLinks(s, o);
    var (r, t) := OrderCancelledBy(s, o);
    if r == Moved {
      var order := s.orders[o];
      if StockWasDecremented(order) && order.lines != [] {
        PostsIff(Op.Restock, s.book, order.lines, o);
        FlowsPosted(s, t, Op.Restock, o);
      } else if StockWasDecremented(order) {
        forall q: OrderId, v: VariantId
          ensures Out(t.book.ledger, q, v) == Taken(t, q, v) && In(t.book.ledger, q, v) == Returned(t, q, v)
        {
          assert Out(s.book.ledger, q, v) == Taken(s, q, v);
        }
      } else {
        FlowsFrame(s, t);
      }
    }
  }

  lemma CodKeepsMoney(s: Shop, lines: seq<Line>, gatewayOk: bool)
    requires MoneyOk(s)
    ensures MoneyOk(OrderPlacedBy(s, lines, true, gatewayOk).1)
  {
    CodKeepsLinks(s, lines, gatewayOk);
    var (r, t) := OrderPlacedBy(s, lines, true, gatewayOk);
    if r.OrderPlaced? {
      FlowsPosted(s, t, Op.Decrement, |s.orders|);
    }
  }

  /** Adjustments and CSV rows move stock under no order. */
  lemma StockWritersMoveForNoOrder(s: Shop, e: Event, o: OrderId, v: VariantId)
    requires Sound(s) && (e.Adjust? || e.ImportCsv?)
    ensures var l := Step(s, e).book.ledger;
            Out(l, o, v) == Out(s.book.ledger, o, v) && In(l, o, v) == In(s.book.ledger, o, v)
  {
    if e.ImportCsv? {
      ChunkBalances(s.book, e.skus, e.rows, v, o);
    } else if e.variant in s.book.rows {
      var target := TargetStock(e.mode, e.value, s.book.rows[e.variant].stock);
      Appended(s.book.ledger, Movement(e.variant, target - s.book.rows[e.variant].stock, None), o, v);
    }
  }

  lemma StockWritersKeepMoney(s: Shop, e: Event)
    requires MoneyOk(s) && (e.Adjust? || e.ImportCsv?)
    ensures MoneyOk(Step(s, e))
  {
    BookChangesOnly(s, e);
    StepIsBalanced(s, e);
    var t := Step(s, e);
    forall o: OrderId, v: VariantId
      ensures Out(t.book.ledger, o, v) == Out(s.book.ledger, o, v) && In(t.book.ledger, o, v) == In(s.book.ledger, o, v)
    {
      StockWritersMoveForNoOrder(s, e, o, v);
    }
    FlowsFrame(s, t);
  }

  /** Events that move no stock for any order. */
  lemma QuietStepKeepsMoney(s: Shop, e: Event)
    requires MoneyOk(s) && Current(e) && LeavesStockAlone(e)
    ensures MoneyOk(Step(s, e))
  {
    StepKeepsLinks(s, e);
    StockLeftAlone(s, e);
    if e.Pay? {
      PayIsQuiet(s, e.session, e.user, e.gatewayOk);
    } else if e.Cancel? {
      CancelIsQuiet(s, e.session, e.user);
    } else if e.SweepTick? {
      SweepIsQuiet(s);
    } else if e.MoveOrder? {
      MoveIsQuiet(s, e.order, e.move);
    } else if e.CodPaid? {
      CodPaidIsQuiet(s, e.order);
    } else {
      assert Step(s, e).orders == s.orders && Step(s, e).payments == s.payments;
      QuietFrame(s, Step(s, e));
    }
  }

  lemma PayIsQuiet(s: Shop, i: SessionId, user: UserId, gatewayOk: bool)
    requires MoneyOk(s)
    ensures var t := PaymentStarted(s, i, user, gatewayOk).1; PaymentsResolve(t) && FlowsOk(t) && SettledOk(t)
  {
    PayEffect(s, i, user, gatewayOk);
    if PaymentStarted(s, i, user, gatewayOk).0.Paying? {
      BeginningIsQuiet(s, i, Processed(s.sessions[i], s.now + PAYMENT_TTL),
                       OrderLines(s.sessions[i], ReservedVariants(s.sessions[i])));
    }
  }

  lemma BeginningIsQuiet(s: Shop, i: SessionId, sess: Session, lines: seq<Line>)
    requires MoneyOk(s) && i < |s.sessions|
    ensures var t := Begun(s, i, sess, lines); PaymentsResolve(t) && FlowsOk(t) && SettledOk(t)
  {
    QuietFrame(s, Begun(s, i, sess, lines));
  }

  lemma CancelIsQuiet(s: Shop, i: SessionId, user: UserId)
    requires MoneyOk(s)
    ensures var t := CancelCheckout(s, i, user).1; PaymentsResolve(t) && FlowsOk(t) && SettledOk(t)
  {
    var pending := PendingOrder(s.orders, i);
    if pending.Some? {
      assert OrderOk(s.orders[pending.value], s.sessions);
    }
    QuietFrame(s, CancelCheckout(s, i, user).1);
  }

  lemma SweepIsQuiet(s: Shop)
    requires MoneyOk(s)
    ensures PaymentsResolve(Sweep(s)) && FlowsOk(Sweep(s)) && SettledOk(Sweep(s))
  {
    forall o | 0 <= o < |s.orders|
      ensures StockWasDecremented(Sweep(s).orders[o]) == StockWasDecremented(s.orders[o])
      ensures Sweep(s).orders[o].paid == Paid <==> s.orders[o].paid == Paid
    {
      assert OrderOk(s.orders[o], s.sessions);
    }
    QuietFrame(s, Sweep(s));
  }

  lemma MoveIsQuiet(s: Shop, o: OrderId, m: Move)
    requires MoneyOk(s)
    ensures var t := OrderMoved(s, o, m).1; PaymentsResolve(t) && FlowsOk(t) && SettledOk(t)
  {
    var t := OrderMoved(s, o, m).1;
    if t != s {
      assert OrderOk(s.orders[o], s.sessions);
      PaymentFreeChange(s, o, t.orders[o]);
    }
  }

  lemma CodPaidIsQuiet(s: Shop, o: OrderId)
    requires MoneyOk(s)
    ensures var t := CodMarkedPaid(s, o).1; PaymentsResolve(t) && FlowsOk(t) && SettledOk(t)
  {
    var t := CodMarkedPaid(s, o).1;
    if t != s {
      assert OrderOk(s.orders[o], s.sessions);
      PaymentFreeChange(s, o, t.orders[o]);
    }
  }

  /** Moving an order along, or marking a COD order paid, settles nothing: COD orders have no payment. */
  lemma PaymentFreeChange(s: Shop, o: OrderId, order: Order)
    requires MoneyOk(s) && o < |s.orders|
    requires order.lines == s.orders[o].lines && order.cod == s.orders[o].cod
    requires order.cod || order.paid == s.orders[o].paid
    requires order.cod ==> s.orders[o].session.None?
    requires order.status == OrderCancelled <==> s.orders[o].status == OrderCancelled
    ensures var t := s.(orders := s.orders[o := order]); PaymentsResolve(t) && FlowsOk(t) && SettledOk(t)
  {
    FlowsFrame(s, s.(orders := s.orders[o := order]));
  }

  lemma StepKeepsMoney(s: Shop, e: Event)
    requires MoneyOk(s) && Current(e)
    ensures MoneyOk(Step(s, e))
  {
    if e.Hook? {
      HookKeepsMoney(s, e.webhook, e.signatureOk);
    } else if e.CancelOrder? {
      OrderCancelKeepsMoney(s, e.order);
    } else if e.PlaceLegacy? {
      CodKeepsMoney(s, e.lines, e.gatewayOk);
    } else if e.Adjust? || e.ImportCsv? {
      StockWritersKeepMoney(s, e);
    } else {
      QuietStepKeepsMoney(s, e);
    }
  }

  lemma {:induction false} RunKeepsMoney(s: Shop, es: seq<Event>)
    requires MoneyOk(s)
    requires forall e <- es :: Current(e)
    ensures MoneyOk(Run(s, es))
    decreases |es|
  {
    if es != [] {
      StepKeepsMoney(s, es[0]);
      StepIsBalanced(s, es[0]);
      RunKeepsMoney(Step(s, es[0]), es[1..]);
    }
  }

  // What no event undoes

  /** A paid order stays paid with the same lines; a captured payment stays captured, and what it
      owes does not change. */
  predicate Remembers(s: Shop, t: Shop) {
    |s.orders| <= |t.orders| && |s.payments| <= |t.payments| &&
    (forall o | 0 <= o < |s.orders| ::
       t.orders[o].lines == s.orders[o].lines && (s.orders[o].paid == Paid ==> t.orders[o].paid == Paid)) &&
    (forall p | 0 <= p < |s.payments| ::
       t.payments[p].order == s.payments[p].order &&
       (s.payments[p].status == GatewayStatus.Captured ==>
          t.payments[p].status == GatewayStatus.Captured && t.payments[p].refundDue == s.payments[p].refundDue))
  }

  lemma CaptureRemembers(s: Shop, p: PaymentId, event: Option<EventId>)
    requires MoneyOk(s) && p < |s.payments|
    ensures Remembers(s, CaptureHandled(s, p, event).1)
  {
  }

  lemma FailureRemembers(s: Shop, p: PaymentId, event: Option<EventId>)
    requires MoneyOk(s) && p < |s.payments|
    ensures Remembers(s, MarkedFailed(s, p, event))
  {
  }

  lemma HookRemembers(s: Shop, w: Webhook, signatureOk: bool)
    requires MoneyOk(s)
    ensures Remembers(s, WebhookHandled(s, w, signatureOk).1)
  {
    var found := FindPayment(s.payments, w.gatewayOrder);
    if found.Some? {
      CaptureRemembers(s, found.value, w.event);
      FailureRemembers(s, found.value, w.event);
    }
  }

  lemma PayRemembers(s: Shop, i: SessionId, user: UserId, gatewayOk: bool)
    ensures Remembers(s, PaymentStarted(s, i, user, gatewayOk).1)
  {
    PayEffect(s, i, user, gatewayOk);
  }

  lemma MoveRemembers(s: Shop, o: OrderId, m: Move)
    ensures Remembers(s, OrderMoved(s, o, m).1)
  {
  }

  lemma OrderCancelRemembers(s: Shop, o: OrderId)
    ensures Remembers(s, OrderCancelledBy(s, o).1)
  {
  }

  lemma StepRemembers(s: Shop, e: Event)
    requires MoneyOk(s)
    ensures Remembers(s, Step(s, e))
  {
    if e.Hook? {
      HookRemembers(s, e.webhook, e.signatureOk);
    } else if e.Pay? {
      PayRemembers(s, e.session, e.user, e.gatewayOk);
    } else if e.MoveOrder? {
      MoveRemembers(s, e.order, e.move);
    } else if e.CancelOrder? {
      OrderCancelRemembers(s, e.order);
    } else {
      OtherRemembers(s, e);
    }
  }

  lemma OtherRemembers(s: Shop, e: Event)
    requires MoneyOk(s) && !e.Hook? && !e.Pay? && !e.MoveOrder? && !e.CancelOrder?
    ensures Remembers(s, Step(s, e))
  {
  }

  /** PAID never regresses, over any sequence of duplicated or reordered webhooks, cancels, sweeps
      and admin moves; neither does a capture or the refund it owes. */
  lemma {:induction false} RunRemembers(s: Shop, es: seq<Event>)
    requires MoneyOk(s)
    requires forall e <- es :: Current(e)
    ensures Remembers(s, Run(s, es))
    decreases |es|
  {
    if es != [] {
      StepKeepsMoney(s, es[0]);
      StepRemembers(s, es[0]);
      RunRemembers(Step(s, es[0]), es[1..]);
    }
  }

  // From an empty shop

  predicate Fresh(s: Shop) {
    AllChecked(s.book.rows) && s.book.ledger == [] && s.sessions == [] && s.orders == [] && s.payments == []
  }

  lemma FreshIsOk(s: Shop)
    requires Fresh(s)
    ensures MoneyOk(s)
  {
  }

  /** In every run from an empty shop, a reservation-backed or COD order's movements net to minus its
      quantities exactly when it is (paid or COD) and not cancelled, and to zero otherwise; and what
      ever left for it is its quantities at most once. */
  lemma OrderNetsOut(s: Shop, es: seq<Event>, o: OrderId, v: VariantId)
    requires Fresh(s)
    requires forall e <- es :: Current(e)
    requires o < |Run(s, es).orders| && v in s.book.rows
    ensures var t := Run(s, es);
            var order := t.orders[o];
            && In(t.book.ledger, o, v) - Out(t.book.ledger, o, v) ==
               (if (order.paid == Paid || order.cod) && order.status != OrderCancelled then 0 - Total(order.lines, v)
                else 0)
            && Out(t.book.ledger, o, v) <= Total(order.lines, v)
            && In(t.book.ledger, o, v) <= Out(t.book.ledger, o, v)
  {
    FreshIsOk(s);
    RunKeepsMoney(s, es);
    RunIsBalanced(s, es);
    var t := Run(s, es);
    assert Out(t.book.ledger, o, v) == Taken(t, o, v);
  }

  /** In every run from an empty shop, a captured payment's order is paid, its stock taken, or the
      payment is flagged for refund and took nothing: never both, never neither. */
  lemma CapturesAreAnswered(s: Shop, es: seq<Event>, p: PaymentId)
    requires Fresh(s)
    requires forall e <- es :: Current(e)
    requires p < |Run(s, es).payments|
    ensures var t := Run(s, es);
            t.payments[p].order < |t.orders| &&
            var o := t.payments[p].order;
            && (t.payments[p].status == GatewayStatus.Captured <==>
                (t.orders[o].paid == Paid || t.payments[p].refundDue))
            && !(t.orders[o].paid == Paid && t.payments[p].refundDue)
            && forall v <- t.book.rows ::
                 Out(t.book.ledger, o, v) == if t.orders[o].paid == Paid then Total(t.orders[o].lines, v) else 0
  {
    FreshIsOk(s);
    RunKeepsMoney(s, es);
    var t := Run(s, es);
    var o := t.payments[p].order;
    assert OrderOk(t.orders[o], t.sessions);
    forall v <- t.book.rows
      ensures Out(t.book.ledger, o, v) == if t.orders[o].paid == Paid then Total(t.orders[o].lines, v) else 0
    {
      assert Out(t.book.ledger, o, v) == Taken(t, o, v);
    }
  }
}
