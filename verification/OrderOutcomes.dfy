/** What the admin's moves on an order answer and leave, and that an order can get all the way. */
module OrderOutcomes {
  import opened Tables
  import opened Inventory
  import opened AdminOrders
  import opened StockOutcomes
  import opened HoldOutcomes

  /** Packing moves a placed order that is paid, or COD and pending or paid. */
  lemma PackAnswers(s: Shop, o: OrderId)
    requires o < |s.orders|
    ensures var r, order := OrderMoved(s, o, Pack).0, s.orders[o];
            && (r == Moved <==>
                order.status == Placed && (order.paid == Paid || (order.cod && order.paid == CodPending)))
            && (r == Unchanged <==> order.status == Packed)
            && (r == InvalidTransition <==> order.status != Placed && order.status != Packed)
            && (r == PaymentNotCaptured <==> order.status == Placed && !order.cod && order.paid != Paid)
            && (r == InvalidPaymentState <==>
                order.status == Placed && order.cod && order.paid != CodPending && order.paid != Paid)
  {
  }

  /** Shipping moves a packed order that has a courier and a tracking id. */
  lemma ShipAnswers(s: Shop, o: OrderId, hasMetadata: bool)
    requires o < |s.orders|
    ensures var r, status := OrderMoved(s, o, Ship(hasMetadata)).0, s.orders[o].status;
            && (r == Moved <==> status == Packed && hasMetadata)
            && (r == Unchanged <==> status == Shipped)
            && (r == InvalidTransition <==> status != Packed && status != Shipped)
            && (r == MetadataRequired <==> status == Packed && !hasMetadata)
  {
  }

  /** Delivering moves a shipped order. */
  lemma DeliverAnswers(s: Shop, o: OrderId)
    requires o < |s.orders|
    ensures var r, status := OrderMoved(s, o, Deliver).0, s.orders[o].status;
            && (r == Moved <==> status == Shipped)
            && (r == Unchanged <==> status == Delivered)
            && (r == InvalidTransition <==> status != Shipped && status != Delivered)
  {
  }

  /** A move changes the status, and delivery pays a pending COD order; everything else stays. */
  lemma MoveLeaves(s: Shop, o: OrderId, m: Move)
    ensures o >= |s.orders| <==> OrderMoved(s, o, m).0 == OrderNotFound
    ensures var (r, t) := OrderMoved(s, o, m);
            if r == Moved then
              var order := s.orders[o];
              t == s.(orders := s.orders[o :=
                Order(order.session, order.cod, order.lines,
                      match m case Pack => Packed case Ship(_) => Shipped case Deliver => Delivered,
                      if m == Deliver && order.cod && order.paid == CodPending then Paid else order.paid)])
            else t == s
  {
  }

  function ThreeMoves(s: Shop, o: OrderId): Shop {
    OrderMoved(OrderMoved(OrderMoved(s, o, Pack).1, o, Ship(true)).1, o, Deliver).1
  }

  /** Every placed order that is paid, or COD and pending, gets delivered, and is paid by then. */
  lemma OrdersGetDelivered(s: Shop, o: OrderId)
    requires o < |s.orders| && s.orders[o].status == Placed
    requires s.orders[o].paid == Paid || (s.orders[o].cod && s.orders[o].paid == CodPending)
    ensures ThreeMoves(s, o) == s.(orders := s.orders[o := s.orders[o].(status := Delivered, paid := Paid)])
  {
    var a := OrderMoved(s, o, Pack).1;
    var b := OrderMoved(a, o, Ship(true)).1;
    PackAnswers(s, o);
    MoveLeaves(s, o, Pack);
    ShipAnswers(a, o, true);
    MoveLeaves(a, o, Ship(true));
    DeliverAnswers(b, o);
    MoveLeaves(b, o, Deliver);
    assert s.orders[o := s.orders[o].(status := Packed)][o := s.orders[o].(status := Shipped)]
        == s.orders[o := s.orders[o].(status := Shipped)];
  }

  /** An admin may cancel any order that is neither cancelled nor delivered. */
  lemma CancelAnswersAdmin(s: Shop, o: OrderId)
    ensures var r := OrderCancelledBy(s, o).0;
            && (r == OrderNotFound <==> o >= |s.orders|)
            && (r == Unchanged <==> o < |s.orders| && s.orders[o].status == OrderCancelled)
            && (r == CannotCancelDelivered <==> o < |s.orders| && s.orders[o].status == Delivered)
            && (r == Moved <==>
                o < |s.orders| && s.orders[o].status != OrderCancelled && s.orders[o].status != Delivered)
    ensures OrderCancelledBy(s, o).0 != Moved ==> OrderCancelledBy(s, o).1 == s
  {
  }

  /** Cancelling changes the order's status only, and puts back exactly what has left: the units of a paid or
      COD order. */
  lemma CancelPutsBack(s: Shop, o: OrderId, v: VariantId)
    requires OrderCancelledBy(s, o).0 == Moved && AllChecked(s.book.rows) && v in s.book.rows
    ensures o < |s.orders|
    ensures var t, order := OrderCancelledBy(s, o).1, s.orders[o];
            && t.orders == s.orders[o := Order(order.session, order.cod, order.lines, OrderCancelled, order.paid)]
            && t.payments == s.payments && v in t.book.rows
            && t.book.rows[v].reserved == s.book.rows[v].reserved && t.book.rows[v].sold == s.book.rows[v].sold
            && t.book.rows[v].stock ==
               s.book.rows[v].stock + if order.paid == Paid || order.cod then Total(order.lines, v) else 0
  {
    var order := s.orders[o];
    if (order.paid == Paid || order.cod) && order.lines != [] {
      GoesThroughIff(Op.Restock, s.book, order.lines, o);
      RowAfter(Op.Restock, s.book, order.lines, o, v);
    }
  }

  /** An order that has taken nothing gives up its hold instead. */
  lemma CancelEndsTheHold(s: Shop, o: OrderId, i: SessionId)
    requires OrderCancelledBy(s, o).0 == Moved && s.orders[o].session == Some(i) && i < |s.sessions|
    ensures var t := OrderCancelledBy(s, o).1;
            |t.sessions| == |s.sessions| &&
            if (s.orders[o].paid == Paid || s.orders[o].cod) && s.orders[o].lines != [] then t.sessions == s.sessions
            else EndedAs(s.sessions[i], t.sessions[i], Cancelled)
  {
    HoldEnds(s, o, i);
  }

  /** Marking paid moves a COD order whose payment is pending, and changes nothing else. */
  lemma CodPaidAnswers(s: Shop, o: OrderId)
    ensures var (r, t) := CodMarkedPaid(s, o);
            && (r == OrderNotFound <==> o >= |s.orders|)
            && (r == NotCod <==> o < |s.orders| && !s.orders[o].cod)
            && (r == Unchanged <==> o < |s.orders| && s.orders[o].cod && s.orders[o].paid == Paid)
            && (r == Moved <==> o < |s.orders| && s.orders[o].cod && s.orders[o].paid == CodPending)
            && (r == InvalidPaymentState <==>
                o < |s.orders| && s.orders[o].cod && s.orders[o].paid != Paid && s.orders[o].paid != CodPending)
            && t == if r == Moved then s.(orders := s.orders[o := s.orders[o].(paid := Paid)]) else s
  {
  }
}
