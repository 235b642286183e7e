/** Sessions, rows, orders and payments stay linked over every run: rows of a live session share its
    status and expiry, a user has one live session, and while a payment is processed the one pending
    order's lines equal the held quantities. */
module Linkage {
  import opened Tables
  import opened Ordering
  import opened Inventory
  import opened CheckoutSessions
  import opened CheckoutPayments
  import opened Lifecycle
  import opened Payments
  import opened AdminOrders
  import opened LegacyCheckout
  import opened Protocol

  predicate SessionOk(sess: Session) {
    if Live(sess.status) then
      && sess.rows != map[]
      && forall v <- sess.rows :: sess.rows[v].status == sess.status && sess.rows[v].expires == sess.expires
    else
      forall v <- sess.rows :: !Live(sess.rows[v].status)
  }

  predicate OneLivePerUser(ss: seq<Session>) {
    forall i, j | 0 <= i < j < |ss| && Live(ss[i].status) && Live(ss[j].status) :: ss[i].user != ss[j].user
  }

  /** Variant by variant, the lines ask for what the rows hold. */
  ghost predicate SameQuantities(lines: seq<Line>, rows: map<VariantId, Hold>) {
    forall v: VariantId :: Total(lines, v) == if v in rows then rows[v].qty else 0
  }

  ghost predicate OrderOk(order: Order, ss: seq<Session>) {
    order.cod == order.session.None? &&
    (order.cod ==> order.paid == CodPending || order.paid == Paid) &&
    (order.session.Some? ==>
       && order.session.value < |ss|
       && order.paid != CodPending
       && ss[order.session.value].status != Active
       && (ss[order.session.value].status == Processing ==>
             order.status == Placed && order.paid == Pending &&
               SameQuantities(order.lines, ss[order.session.value].rows)))
  }

  predicate OneOrderPerSession(orders: seq<Order>) {
    forall o, q | 0 <= o < q < |orders| && orders[o].session.Some? && orders[q].session.Some? ::
      orders[o].session != orders[q].session
  }

  predicate HasOrder(orders: seq<Order>, i: SessionId) {
    exists o | 0 <= o < |orders| :: orders[o].session == Some(i)
  }

  /** Every payment belongs to a reservation-backed order. */
  predicate PaymentsOk(payments: seq<Payment>, orders: seq<Order>) {
    forall p | 0 <= p < |payments| :: payments[p].order < |orders| && orders[payments[p].order].session.Some?
  }

  predicate OnePaymentPerOrder(payments: seq<Payment>) {
    forall p, q | 0 <= p < q < |payments| :: payments[p].order != payments[q].order
  }

  ghost predicate Linked(s: Shop) {
    && AllChecked(s.book.rows)
    && (forall i | 0 <= i < |s.sessions| :: SessionOk(s.sessions[i]))
    && OneLivePerUser(s.sessions)
    && (forall o | 0 <= o < |s.orders| :: OrderOk(s.orders[o], s.sessions))
    && OneOrderPerSession(s.orders)
    && (forall i | 0 <= i < |s.sessions| && s.sessions[i].status == Processing :: HasOrder(s.orders, i))
    && PaymentsOk(s.payments, s.orders)
    && OnePaymentPerOrder(s.payments)
  }

  lemma LinkedIsSound(s: Shop)
    requires Linked(s)
    ensures Sound(s)
  {
  }

  /** Legal calls outside the switched-off online legacy path. */
  predicate Current(e: Event) {
    Legal(e) && (e.PlaceLegacy? ==> e.cod)
  }

  lemma CheckoutKeepsLinks(s: Shop, user: UserId, cart: seq<Line>)
    requires Linked(s) && Distinct(cart)
    ensures Linked(StartCheckout(s, user, cart).1)
  {
    var i := Target(s, user);
    var (r, t) := StartCheckout(s, user, cart);
    if r.Reserved? {
      var expires := s.now + RESERVATION_TTL;
      FreshHoldIsOk(user, cart, expires);
      HoldKeepsLinks(s, user, i, Session(user, Active, expires, RowsFor(cart, expires)));
    }
  }

  lemma FreshHoldIsOk(user: UserId, cart: seq<Line>, expires: int)
    requires cart != []
    ensures SessionOk(Session(user, Active, expires, RowsFor(cart, expires)))
  {
    assert cart[0].variant in RowsFor(cart, expires);
  }

  /** A fresh hold, on the user's live session or a new one, breaks no link. */
  lemma HoldKeepsLinks(s: Shop, user: UserId, i: SessionId, sess: Session)
    requires Linked(s) && SessionOk(sess) && sess.user == user && sess.status == Active
    requires if i < |s.sessions| then s.sessions[i].user == user && s.sessions[i].status == Active
             else i == |s.sessions| &&
                  forall j | 0 <= j < i :: s.sessions[j].user == user ==> !Live(s.sessions[j].status)
    ensures Linked(s.(sessions := WithSession(s.sessions, i, sess)))
  {
    var t := s.(sessions := WithSession(s.sessions, i, sess));
    forall o | 0 <= o < |t.orders|
      ensures OrderOk(t.orders[o], t.sessions)
    {
      assert OrderOk(s.orders[o], s.sessions);
    }
    forall j | 0 <= j < |t.sessions| && t.sessions[j].status == Processing
      ensures HasOrder(t.orders, j)
    {
      assert j < |s.sessions| && s.sessions[j].status == Processing;
    }
  }

  /** Ending a live session, with its rows, breaks no link. */
  lemma EndingKeepsLinks(s: Shop, i: SessionId, sess: Session)
    requires Linked(s) && i < |s.sessions|
    requires SessionOk(sess) && !Live(sess.status)
    ensures Linked(s.(sessions := s.sessions[i := sess]))
  {
    var t := s.(sessions := s.sessions[i := sess]);
    forall o | 0 <= o < |t.orders|
      ensures OrderOk(t.orders[o], t.sessions)
    {
      assert OrderOk(s.orders[o], s.sessions);
    }
    forall j | 0 <= j < |t.sessions| && t.sessions[j].status == Processing
      ensures HasOrder(t.orders, j)
    {
      assert s.sessions[j].status == Processing;
    }
  }

  /** Changing an order whose session is no longer processing breaks no link. */
  lemma OrderChangeKeepsLinks(s: Shop, o: OrderId, order: Order)
    requires Linked(s) && o < |s.orders|
    requires order.session == s.orders[o].session && order.cod == s.orders[o].cod
    requires OrderOk(order, s.sessions)
    ensures Linked(s.(orders := s.orders[o := order]))
  {
    var t := s.(orders := s.orders[o := order]);
    forall j | 0 <= j < |t.sessions| && t.sessions[j].status == Processing
      ensures HasOrder(t.orders, j)
    {
      var q :| 0 <= q < |s.orders| && s.orders[q].session == Some(j);
      assert t.orders[q].session == Some(j);
    }
  }

  lemma CancelKeepsLinks(s: Shop, i: SessionId, user: UserId)
    requires Linked(s)
    ensures Linked(CancelCheckout(s, i, user).1)
  {
    if CancelCheckout(s, i, user).0 == CheckoutCancelled {
      var sess := s.sessions[i].(status := Cancelled, rows := CancelRows(s.sessions[i].rows));
      EndingKeepsLinks(s, i, sess);
      var t := s.(sessions := s.sessions[i := sess]);
      var pending := PendingOrder(s.orders, i);
      if pending.Some? {
        assert OrderOk(t.orders[pending.value], t.sessions);
        OrderChangeKeepsLinks(t, pending.value, t.orders[pending.value].(status := OrderCancelled, paid := Failed));
      }
    }
  }

  lemma {:induction false} OrderLinesTotal(sess: Session, vs: seq<VariantId>, v: VariantId)
    requires Increasing(vs)
    requires forall k | 0 <= k < |vs| :: vs[k] in sess.rows
    ensures Total(OrderLines(sess, vs), v) == if v in vs then sess.rows[v].qty else 0
  {
    if vs != [] {
      var n := |vs| - 1;
      assert OrderLines(sess, vs)[..n] == OrderLines(sess, vs[..n]);
      OrderLinesTotal(sess, vs[..n], v);
    }
  }

  lemma PayKeepsLinks(s: Shop, i: SessionId, user: UserId, gatewayOk: bool)
    requires Linked(s)
    ensures Linked(PaymentStarted(s, i, user, gatewayOk).1)
  {
    PayEffect(s, i, user, gatewayOk);
    if PaymentStarted(s, i, user, gatewayOk).0.Paying? {
      var sess, expires := s.sessions[i], s.now + PAYMENT_TTL;
      RowsBecomeLines(sess, expires);
      BeginningKeepsLinks(s, i, Processed(sess, expires), OrderLines(sess, ReservedVariants(sess)));
    }
  }

  lemma PayEffect(s: Shop, i: SessionId, user: UserId, gatewayOk: bool)
    ensures var (r, t) := PaymentStarted(s, i, user, gatewayOk);
            if r.Paying? then
              i < |s.sessions| && s.sessions[i].status == Active && s.now < s.sessions[i].expires &&
              r == Paying(|s.orders|, |s.payments|) &&
              t == Begun(s, i, Processed(s.sessions[i], s.now + PAYMENT_TTL),
                         OrderLines(s.sessions[i], ReservedVariants(s.sessions[i])))
            else t == s
  {
    if i < |s.sessions| && s.sessions[i].user == user && s.sessions[i].status == Active &&
       s.now < s.sessions[i].expires
    {
      PayOfActive(s, i, gatewayOk);
    }
  }

  lemma PayOfActive(s: Shop, i: SessionId, gatewayOk: bool)
    requires i < |s.sessions| && s.sessions[i].status == Active && s.now < s.sessions[i].expires
    ensures var r := PaymentStarted(s, i, s.sessions[i].user, gatewayOk);
            var sess := s.sessions[i];
            if r.0.Paying? then
              r == (Paying(|s.orders|, |s.payments|),
                    Begun(s, i, Processed(sess, s.now + PAYMENT_TTL), OrderLines(sess, ReservedVariants(sess))))
            else r.1 == s
  {
    PaidOrRefused(s, s.sessions[i], i, gatewayOk, ReservedVariants(s.sessions[i]));
  }

  lemma PaidOrRefused(s: Shop, sess: Session, i: SessionId, gatewayOk: bool, vs: seq<VariantId>)
    requires i < |s.sessions| && sess == s.sessions[i] && sess.status == Active && s.now < sess.expires
    requires vs == ReservedVariants(sess)
    ensures PaymentStarted(s, i, sess.user, gatewayOk) ==
            if vs == [] then (NothingReserved, s)
            else if Failures(s, sess, vs) != [] then (BecameUnavailable(Failures(s, sess, vs)), s)
            else if !gatewayOk then (GatewayError, s)
            else (Paying(|s.orders|, |s.payments|),
                  Begun(s, i, Processed(sess, s.now + PAYMENT_TTL), OrderLines(sess, vs)))
  {
  }

  /** The order snapshot taken at pay time asks for exactly what the rows hold. */
  lemma RowsBecomeLines(sess: Session, expires: int)
    requires SessionOk(sess) && sess.status == Active
    ensures SessionOk(Processed(sess, expires))
    ensures SameQuantities(OrderLines(sess, ReservedVariants(sess)), Processed(sess, expires).rows)
    ensures ReservedVariants(sess) != []
  {
    var vs := ReservedVariants(sess);
    var w :| w in sess.rows;
    assert w in vs;
    var rows := Processed(sess, expires).rows;
    assert rows != map[] by { assert w in rows; }
    forall v: VariantId
      ensures Total(OrderLines(sess, vs), v) == if v in rows then rows[v].qty else 0
    {
      OrderLinesTotal(sess, vs, v);
    }
  }

  /** An active session that starts processing together with its first order. */
  lemma BeginningKeepsLinks(s: Shop, i: SessionId, sess: Session, lines: seq<Line>)
    requires Linked(s) && i < |s.sessions| && s.sessions[i].status == Active
    requires SessionOk(sess) && sess.status == Processing && sess.user == s.sessions[i].user
    requires SameQuantities(lines, sess.rows)
    ensures Linked(Begun(s, i, sess, lines))
  {
    var t := Begun(s, i, sess, lines);
    forall o | 0 <= o < |s.orders|
      ensures OrderOk(t.orders[o], t.sessions) && t.orders[o].session != Some(i)
    {
      assert OrderOk(s.orders[o], s.sessions);
    }
    assert OrderOk(t.orders[|s.orders|], t.sessions);
    forall j | 0 <= j < |t.sessions| && t.sessions[j].status == Processing
      ensures HasOrder(t.orders, j)
    {
      if j == i {
        assert t.orders[|s.orders|].session == Some(i);
      } else {
        var q :| 0 <= q < |s.orders| && s.orders[q].session == Some(j);
        assert t.orders[q].session == Some(j);
      }
    }
  }

  /** Touching only the payment's own columns breaks no link. */
  lemma PaymentChangeKeepsLinks(s: Shop, p: PaymentId, payment: Payment)
    requires Linked(s) && p < |s.payments| && payment.order == s.payments[p].order
    ensures Linked(s.(payments := s.payments[p := payment]))
  {
    var t := s.(payments := s.payments[p := payment]);
  }

  lemma ClosingKeepsLinks(s: Shop, o: OrderId, status: SessionStatus)
    requires Linked(s) && o < |s.orders| && !Live(status)
    ensures Linked(s.(sessions := Transitioned(s.sessions, s.orders[o].session, status)))
    ensures s.orders[o].session.Some? ==>
              s.orders[o].session.value < |s.sessions| &&
              Transitioned(s.sessions, s.orders[o].session, status)[s.orders[o].session.value].status == status
  {
    assert OrderOk(s.orders[o], s.sessions);
    if s.orders[o].session.Some? {
      EndingKeepsLinks(s, s.orders[o].session.value, Closed(s.sessions[s.orders[o].session.value], status));
    }
  }

  lemma BookChangeKeepsLinks(s: Shop, b: Book)
    requires Linked(s) && AllChecked(b.rows)
    ensures Linked(s.(book := b))
  {
  }

  lemma CaptureKeepsLinks(s: Shop, p: PaymentId, event: Option<EventId>)
    requires Linked(s) && p < |s.payments|
    ensures s.payments[p].order < |s.orders| && Linked(CaptureHandled(s, p, event).1)
  {
    var o := s.payments[p].order;
    var (r, t) := CaptureHandled(s, p, event);
    if r == CapturedPaid {
      PostKeepsChecks(Op.CommitSale, s.book, s.orders[o].lines, o);
      BookChangeKeepsLinks(s, Post(Op.CommitSale, s.book, s.orders[o].lines, o).value);
      var s1 := s.(book := Post(Op.CommitSale, s.book, s.orders[o].lines, o).value);
      ClosingKeepsLinks(s1, o, Completed);
      var s2 := s1.(sessions := Transitioned(s1.sessions, s1.orders[o].session, Completed));
      assert OrderOk(s2.orders[o], s2.sessions);
      OrderChangeKeepsLinks(s2, o, s2.orders[o].(paid := Paid));
      var s3 := s2.(orders := s2.orders[o := s2.orders[o].(paid := Paid)]);
      PaymentChangeKeepsLinks(s3, p, t.payments[p]);
    } else {
      PaymentChangeKeepsLinks(s, p, t.payments[p]);
    }
  }

  lemma FailureKeepsLinks(s: Shop, p: PaymentId, event: Option<EventId>)
    requires Linked(s) && p < |s.payments|
    ensures s.payments[p].order < |s.orders| && Linked(MarkedFailed(s, p, event))
  {
    var o := s.payments[p].order;
    var t := MarkedFailed(s, p, event);
    if t != s {
      ClosingKeepsLinks(s, o, Cancelled);
      var s1 := HoldCancelled(s, o);
      assert OrderOk(s1.orders[o], s1.sessions);
      OrderChangeKeepsLinks(s1, o, s1.orders[o].(paid := Failed));
      var s2 := s1.(orders := s1.orders[o := s1.orders[o].(paid := Failed)]);
      PaymentChangeKeepsLinks(s2, p, s.payments[p].(status := GatewayFailed, event := Stamp(event, s.payments[p])));
    }
  }

  lemma HookKeepsLinks(s: Shop, w: Webhook, signatureOk: bool)
    requires Linked(s) && Sound(s)
    ensures Linked(WebhookHandled(s, w, signatureOk).1)
  {
    var found := FindPayment(s.payments, w.gatewayOrder);
    if found.Some? {
      CaptureKeepsLinks(s, found.value, w.event);
      FailureKeepsLinks(s, found.value, w.event);
    }
  }

  lemma SweepKeepsLinks(s: Shop)
    requires Linked(s)
    ensures Linked(Sweep(s))
  {
    var ss := LapseAll(s.sessions, s.now, Active, Expired);
    var t := Sweep(s);
    forall i | 0 <= i < |s.sessions|
      ensures SessionOk(t.sessions[i]) && t.sessions[i].user == s.sessions[i].user
      ensures t.sessions[i] == s.sessions[i] || !Live(t.sessions[i].status)
      ensures t.sessions[i].status == Active ==> s.sessions[i].status == Active
      ensures Overdue(ss[i], s.now, Processing) ==> t.sessions[i].status == Cancelled
    {
      SweptSession(s.sessions[i], s.now);
    }
    forall o | 0 <= o < |t.orders|
      ensures OrderOk(t.orders[o], t.sessions) && t.orders[o].session == s.orders[o].session
    {
      assert OrderOk(s.orders[o], s.sessions);
    }
    forall j | 0 <= j < |t.sessions| && t.sessions[j].status == Processing
      ensures HasOrder(t.orders, j)
    {
      var q :| 0 <= q < |s.orders| && s.orders[q].session == Some(j);
      assert t.orders[q].session == Some(j);
    }
  }

  /** A session is swept as a whole or not at all. */
  lemma SweptSession(sess: Session, now: int)
    requires SessionOk(sess)
    ensures var one := Lapsed(sess, now, Active, Expired);
            var two := Lapsed(one, now, Processing, Cancelled);
            && SessionOk(two) && two.user == sess.user
            && (if Overdue(sess, now, Active) then two.status == Expired
                else if Overdue(sess, now, Processing) then two.status == Cancelled
                else two == sess)
            && (Overdue(one, now, Processing) <==> Overdue(sess, now, Processing))
  {
    var one := Lapsed(sess, now, Active, Expired);
    var two := Lapsed(one, now, Processing, Cancelled);
    if !Overdue(sess, now, Active) {
      assert one.rows == sess.rows;
      if !Overdue(sess, now, Processing) {
        assert two.rows == sess.rows;
      }
    }
  }

  lemma AdminMoveKeepsLinks(s: Shop, o: OrderId, m: Move)
    requires Linked(s)
    ensures Linked(OrderMoved(s, o, m).1) && Linked(CodMarkedPaid(s, o).1)
  {
    if o < |s.orders| {
      assert OrderOk(s.orders[o], s.sessions);
      if OrderMoved(s, o, m).0 == Moved {
        OrderChangeKeepsLinks(s, o, OrderMoved(s, o, m).1.orders[o]);
      }
      if CodMarkedPaid(s, o).0 == Moved {
        OrderChangeKeepsLinks(s, o, CodMarkedPaid(s, o).1.orders[o]);
      }
    }
  }

  lemma OrderCancelKeepsLinks(s: Shop, o: OrderId)
    requires Linked(s)
    ensures Linked(OrderCancelledBy(s, o).1)
  {
    var (r, t) := OrderCancelledBy(s, o);
    if r == Moved {
      var order := s.orders[o];
      assert OrderOk(order, s.sessions);
      var cancelled := order.(status := OrderCancelled);
      if StockWasDecremented(order) && order.lines != [] {
        PostsIff(Op.Restock, s.book, order.lines, o);
        PostKeepsChecks(Op.Restock, s.book, order.lines, o);
        BookChangeKeepsLinks(s, t.book);
        OrderChangeKeepsLinks(s.(book := t.book), o, cancelled);
      } else {
        ClosingKeepsLinks(s, o, Cancelled);
        var s1 := HoldCancelled(s, o);
        assert OrderOk(s1.orders[o], s1.sessions);
        OrderChangeKeepsLinks(s1, o, cancelled);
      }
    }
  }

  lemma CodKeepsLinks(s: Shop, lines: seq<Line>, gatewayOk: bool)
    requires Linked(s)
    ensures Linked(OrderPlacedBy(s, lines, true, gatewayOk).1)
  {
    var (r, t) := OrderPlacedBy(s, lines, true, gatewayOk);
    if r.OrderPlaced? {
      PostKeepsChecks(Op.Decrement, s.book, lines, |s.orders|);
      forall o | 0 <= o < |t.orders|
        ensures OrderOk(t.orders[o], t.sessions)
      {
        if o < |s.orders| {
          assert OrderOk(s.orders[o], s.sessions);
        }
      }
      forall j | 0 <= j < |t.sessions| && t.sessions[j].status == Processing
        ensures HasOrder(t.orders, j)
      {
        var q :| 0 <= q < |s.orders| && s.orders[q].session == Some(j);
        assert t.orders[q].session == Some(j);
      }
    }
  }

  lemma StepKeepsLinks(s: Shop, e: Event)
    requires Linked(s) && Sound(s) && Current(e)
    ensures Linked(Step(s, e))
  {
    match e
    case Checkout(user, cart) => CheckoutKeepsLinks(s, user, cart);
    case Cancel(i, user) => CancelKeepsLinks(s, i, user);
    case Pay(i, user, gatewayOk) => PayKeepsLinks(s, i, user, gatewayOk);
    case Hook(w, signatureOk) => HookKeepsLinks(s, w, signatureOk);
    case SweepTick => SweepKeepsLinks(s);
    case MoveOrder(o, m) => AdminMoveKeepsLinks(s, o, m);
    case CodPaid(o) => AdminMoveKeepsLinks(s, o, Pack);
    case CancelOrder(o) => OrderCancelKeepsLinks(s, o);
    case PlaceLegacy(lines, _, gatewayOk) => CodKeepsLinks(s, lines, gatewayOk);
    case Adjust(v, mode, value, reasonOk) => BookChangesOnly(s, e);
    case ImportCsv(skus, rows) => BookChangesOnly(s, e);
    case _ =>
  }

  lemma BookChangesOnly(s: Shop, e: Event)
    requires Linked(s) && Sound(s) && (e.Adjust? || e.ImportCsv?)
    ensures Linked(Step(s, e))
  {
    StepIsBalanced(s, e);
    BookChangeKeepsLinks(s, Step(s, e).book);
    assert Step(s, e) == s.(book := Step(s, e).book, products := Step(s, e).products);
  }

  /** Over every run, late captures and admin races included. */
  lemma {:induction false} RunKeepsLinks(s: Shop, es: seq<Event>)
    requires Linked(s) && Sound(s)
    requires forall e <- es :: Current(e)
    ensures Linked(Run(s, es))
    decreases |es|
  {
    if es != [] {
      StepKeepsLinks(s, es[0]);
      StepIsBalanced(s, es[0]);
      RunKeepsLinks(Step(s, es[0]), es[1..]);
    }
  }
}
