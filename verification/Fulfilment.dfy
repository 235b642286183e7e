/** What the order status means over whole runs: nothing moves that is not paid for, and nothing moves
    back. */
module Fulfilment {
  import opened Tables
  import opened CheckoutPayments
  import opened Payments
  import opened AdminOrders
  import opened LegacyCheckout
  import opened Protocol
  import opened Linkage
  import opened Money

  predicate LeftTheShop(status: OrderStatus) {
    status == Packed || status == Shipped || status == Delivered
  }

  /** Packed, shipped and delivered orders are paid, or COD; delivered ones are paid. */
  predicate OrderEarned(order: Order) {
    && (LeftTheShop(order.status) ==> order.paid == Paid || (order.cod && order.paid == CodPending))
    && (order.status == Delivered ==> order.paid == Paid)
  }

  predicate AllEarned(s: Shop) {
    forall o | 0 <= o < |s.orders| :: OrderEarned(s.orders[o])
  }

  function Stage(status: OrderStatus): nat {
    match status
    case Placed => 0
    case Packed => 1
    case Shipped => 2
    case Delivered => 3
    case OrderCancelled => 4
  }

  /** On to a later stage or to cancelled, but not out of delivered or cancelled. */
  predicate Forward(from: OrderStatus, to: OrderStatus) {
    from == to || (Stage(from) < Stage(to) && from != Delivered)
  }

  predicate OnlyForward(s: Shop, t: Shop) {
    |s.orders| <= |t.orders| && forall o | 0 <= o < |s.orders| :: Forward(s.orders[o].status, t.orders[o].status)
  }

  lemma HookEarns(s: Shop, w: Webhook, signatureOk: bool)
    requires MoneyOk(s) && AllEarned(s)
    ensures var t := WebhookHandled(s, w, signatureOk).1; AllEarned(t) && OnlyForward(s, t)
  {
  }

  lemma MoveEarns(s: Shop, o: OrderId, m: Move)
    requires Linked(s) && AllEarned(s)
    ensures var t := OrderMoved(s, o, m).1; AllEarned(t) && OnlyForward(s, t)
  {
    if o < |s.orders| {
      assert OrderOk(s.orders[o], s.sessions);
    }
  }

  lemma PayEarns(s: Shop, i: SessionId, user: UserId, gatewayOk: bool)
    requires AllEarned(s)
    ensures var t := PaymentStarted(s, i, user, gatewayOk).1; AllEarned(t) && OnlyForward(s, t)
  {
    PayEffect(s, i, user, gatewayOk);
  }

  lemma CancelEarns(s: Shop, o: OrderId)
    requires AllEarned(s)
    ensures var t := OrderCancelledBy(s, o).1; AllEarned(t) && OnlyForward(s, t)
  {
  }

  lemma PlacementEarns(s: Shop, lines: seq<Line>, cod: bool, gatewayOk: bool)
    requires AllEarned(s)
    ensures var t := OrderPlacedBy(s, lines, cod, gatewayOk).1; AllEarned(t) && OnlyForward(s, t)
  {
  }

  lemma StepEarns(s: Shop, e: Event)
    requires MoneyOk(s) && AllEarned(s) && Current(e)
    ensures AllEarned(Step(s, e)) && OnlyForward(s, Step(s, e))
  {
    if e.Hook? {
      HookEarns(s, e.webhook, e.signatureOk);
    } else if e.MoveOrder? {
      MoveEarns(s, e.order, e.move);
    } else if e.Pay? {
      PayEarns(s, e.session, e.user, e.gatewayOk);
    } else if e.CancelOrder? {
      CancelEarns(s, e.order);
    } else if e.PlaceLegacy? {
      PlacementEarns(s, e.lines, e.cod, e.gatewayOk);
    } else {
      OtherEarns(s, e);
    }
  }

  lemma OtherEarns(s: Shop, e: Event)
    requires MoneyOk(s) && AllEarned(s) && Current(e)
    requires !e.Hook? && !e.MoveOrder? && !e.Pay? && !e.CancelOrder? && !e.PlaceLegacy?
    ensures AllEarned(Step(s, e)) && OnlyForward(s, Step(s, e))
  {
  }

  /** Marking paid looks at the payment only: a cancelled order is paid iff it is COD and still pending. */
  lemma CancelledIsPaidIff(s: Shop, o: OrderId)
    requires o < |s.orders| && s.orders[o].status == OrderCancelled && s.orders[o].paid != Paid
    ensures CodMarkedPaid(s, o).1.orders[o].paid == Paid <==> s.orders[o].cod && s.orders[o].paid == CodPending
    ensures CodMarkedPaid(s, o).1.orders[o].status == OrderCancelled
  {
  }

  lemma OneByOne(s: Shop, a: Event, b: Event, c: Event) returns (t: Shop)
    requires Sound(s)
    ensures Sound(Step(s, a)) && Sound(Step(Step(s, a), b))
    ensures t == Run(s, [a, b, c]) == Step(Step(Step(s, a), b), c)
  {
    var x := Step(s, a);
    StepIsBalanced(s, a);
    var y := Step(x, b);
    StepIsBalanced(x, b);
    t := Step(y, c);
    StepIsBalanced(y, c);
    assert [c][1..] == [] && Run(t, [c][1..]) == t;
    assert Run(y, [c]) == t;
    assert [b, c][1..] == [c] && [a, b, c][1..] == [b, c];
    assert Run(x, [b, c]) == t;
  }

  lemma CodPlacement(s: Shop, lines: seq<Line>)
    requires Sound(s) && OrderPlacedBy(s, lines, true, true).0.OrderPlaced?
    ensures var t := Step(s, PlaceLegacy(lines, true, true));
            |t.orders| == |s.orders| + 1 && t.orders[|s.orders|] == Order(None, true, lines, Placed, CodPending)
  {
  }

  lemma CodCancel(s: Shop, o: OrderId)
    requires Sound(s) && o < |s.orders| && s.orders[o].cod && s.orders[o].status == Placed
    ensures var t := Step(s, CancelOrder(o));
            |t.orders| == |s.orders| && t.orders[o] == s.orders[o].(status := OrderCancelled)
  {
  }

  /** Every COD order can come to that: place it, cancel it, mark it paid. */
  lemma CancelledCodGetsPaid(s: Shop, lines: seq<Line>) returns (t: Shop)
    requires Sound(s) && OrderPlacedBy(s, lines, true, true).0.OrderPlaced?
    ensures t == Run(s, [PlaceLegacy(lines, true, true), CancelOrder(|s.orders|), CodPaid(|s.orders|)])
    ensures |s.orders| < |t.orders| && t.orders[|s.orders|].status == OrderCancelled &&
            t.orders[|s.orders|].paid == Paid
  {
    var o := |s.orders|;
    t := OneByOne(s, PlaceLegacy(lines, true, true), CancelOrder(o), CodPaid(o));
    CodPlacement(s, lines);
    CodCancel(Step(s, PlaceLegacy(lines, true, true)), o);
  }

  lemma ForwardTwice(s: Shop, m: Shop, t: Shop)
    requires OnlyForward(s, m) && OnlyForward(m, t)
    ensures OnlyForward(s, t)
  {
    forall o | 0 <= o < |s.orders|
      ensures Forward(s.orders[o].status, t.orders[o].status)
    {
      assert Forward(s.orders[o].status, m.orders[o].status) && Forward(m.orders[o].status, t.orders[o].status);
    }
  }

  /** Over every run, with duplicated and late webhooks, cancels, sweeps and admin moves in any order: an
      order is packed, shipped or delivered only if it is paid or COD, is delivered only if it is paid, and
      never goes back a stage or out of a terminal one. */
  lemma {:induction false} RunEarns(s: Shop, es: seq<Event>)
    requires MoneyOk(s) && AllEarned(s) && forall e <- es :: Current(e)
    ensures AllEarned(Run(s, es)) && OnlyForward(s, Run(s, es))
    decreases |es|
  {
    if es != [] {
      var m := Step(s, es[0]);
      StepKeepsMoney(s, es[0]);
      StepEarns(s, es[0]);
      RunEarns(m, es[1..]);
      ForwardTwice(s, m, Run(m, es[1..]));
    }
  }
}
