/** Active holds never exceed stock over runs of the checkout flow, and a held item stays buyable until
    somebody edits the catalog under it. */
module NoOversell {
  import opened Tables
  import opened Inventory
  import opened InventoryServices
  import opened Holds
  import opened CheckoutSessions
  import opened CheckoutPayments
  import opened Lifecycle
  import opened Payments
  import opened AdminOrders
  import opened AdminInventory
  import opened Protocol
  import opened Linkage

  /** For every variant, the sum of active unexpired holds is at most its stock. */
  ghost predicate HoldsFit(s: Shop) {
    forall v: VariantId :: Held(s.sessions, v, s.now) <= StockOf(s.book.rows, v)
  }

  ghost predicate HeldIsBuyable(s: Shop) {
    forall v: VariantId :: Held(s.sessions, v, s.now) > 0 ==> Buyable(s.items, s.products, v)
  }

  /** The order's hold is still standing. */
  predicate HoldStands(s: Shop, o: OrderId) {
    o < |s.orders| && s.orders[o].session.Some? && s.orders[o].session.value < |s.sessions| &&
    var sess := s.sessions[s.orders[o].session.value];
    sess.status == Processing && s.now < sess.expires
  }

  /** The writers that bypass the derived holds are out: late captures, the order-at-checkout path and
      CSV stock rows. */
  predicate Guarded(s: Shop, e: Event)
    requires Sound(s)
  {
    Current(e) && !e.PlaceLegacy? && !e.ImportCsv? &&
    (e.Hook? && WebhookHandled(s, e.webhook, e.signatureOk).0 == CapturedPaid ==>
       HoldStands(s, s.payments[e.webhook.gatewayOrder.value].order))
  }

  /** An edit leaves every variant with a live hold active, in a published product. */
  ghost predicate Spares(s: Shop, e: Event) {
    e.EditCatalog? ==> forall v: VariantId | Held(s.sessions, v, s.now) > 0 :: Buyable(e.items, e.products, v)
  }

  // Shrinking holds

  /** No session holds more in t than in s. */
  ghost predicate HoldsShrink(s: Shop, t: Shop) {
    |t.sessions| == |s.sessions| &&
    forall i, v: VariantId | 0 <= i < |s.sessions| :: HeldBy(t.sessions[i], v, t.now) <= HeldBy(s.sessions[i], v, s.now)
  }

  lemma ShrinkingFits(s: Shop, t: Shop)
    requires HoldsFit(s) && HoldsShrink(s, t)
    requires forall v: VariantId :: StockOf(s.book.rows, v) <= StockOf(t.book.rows, v)
    ensures HoldsFit(t)
    ensures forall v: VariantId :: Held(t.sessions, v, t.now) <= Held(s.sessions, v, s.now)
  {
    forall v: VariantId
      ensures Held(t.sessions, v, t.now) <= Held(s.sessions, v, s.now)
    {
      HeldShrinks(s.sessions, t.sessions, v, s.now, t.now);
    }
  }

  lemma EndedHoldsNothing(s: Shop, t: Shop, i: SessionId)
    requires i < |s.sessions| && t.now == s.now
    requires |t.sessions| == |s.sessions| && t.sessions == s.sessions[i := t.sessions[i]]
    requires SessionOk(t.sessions[i]) && !Live(t.sessions[i].status)
    ensures HoldsShrink(s, t)
  {
  }

  // Steps

  lemma CheckoutFits(s: Shop, user: UserId, cart: seq<Line>)
    requires Linked(s) && HoldsFit(s) && Distinct(cart)
    ensures HoldsFit(StartCheckout(s, user, cart).1)
    ensures HeldIsBuyable(s) ==> HeldIsBuyable(StartCheckout(s, user, cart).1)
  {
    var (r, t) := StartCheckout(s, user, cart);
    if r.Reserved? {
      var i := Target(s, user);
      var sess := t.sessions[i];
      forall v: VariantId
        ensures Held(t.sessions, v, t.now) <= StockOf(t.book.rows, v)
        ensures HeldIsBuyable(s) && Held(t.sessions, v, t.now) > 0 ==> Buyable(t.items, t.products, v)
      {
        assert Held(t.sessions, v, t.now) == HeldByOthers(s.sessions, v, s.now, i) + HeldBy(sess, v, s.now) by {
          OwnAndOthers(s.sessions, v, s.now, i);
          if i < |s.sessions| {
            HeldReplaced(s.sessions, v, s.now, i, sess);
          } else {
            HeldAppended(s.sessions, v, s.now, sess);
          }
        }
        OwnAndOthers(s.sessions, v, s.now, i);
        if v in sess.rows {
          CartLineHeld(s, cart, i, v);
        }
      }
    }
  }

  /** A line the check accepted fits beside what the others hold. */
  lemma CartLineHeld(s: Shop, cart: seq<Line>, i: SessionId, v: VariantId)
    requires Distinct(cart) && AllReserved(LineResults(s, cart, i))
    requires exists k | 0 <= k < |cart| :: cart[k].variant == v
    ensures QtyOf(cart, v) + HeldByOthers(s.sessions, v, s.now, i) <= StockOf(s.book.rows, v)
    ensures Buyable(s.items, s.products, v)
  {
    var k :| 0 <= k < |cart| && cart[k].variant == v;
    QtyOfLine(cart, k);
    assert LineResults(s, cart, i)[k].reserved;
  }

  lemma {:induction false} QtyOfLine(cart: seq<Line>, k: nat)
    requires Distinct(cart) && k < |cart|
    ensures QtyOf(cart, cart[k].variant) == cart[k].qty
  {
    if k < |cart| - 1 {
      QtyOfLine(cart[..|cart| - 1], k);
    }
  }

  lemma PayFits(s: Shop, i: SessionId, user: UserId, gatewayOk: bool)
    requires Linked(s) && HoldsFit(s)
    ensures HoldsFit(PaymentStarted(s, i, user, gatewayOk).1)
    ensures HeldIsBuyable(s) ==> HeldIsBuyable(PaymentStarted(s, i, user, gatewayOk).1)
  {
    PayEffect(s, i, user, gatewayOk);
    var (r, t) := PaymentStarted(s, i, user, gatewayOk);
    if r.Paying? {
      var sess := Processed(s.sessions[i], s.now + PAYMENT_TTL);
      assert SessionOk(s.sessions[i]);
      forall v: VariantId
        ensures Held(t.sessions, v, t.now) == Held(s.sessions, v, s.now)
      {
        assert HeldBy(sess, v, s.now) == HeldBy(s.sessions[i], v, s.now);
        HeldReplaced(s.sessions, v, s.now, i, sess);
      }
    }
  }

  lemma CancelFits(s: Shop, i: SessionId, user: UserId)
    requires Linked(s) && HoldsFit(s)
    ensures HoldsFit(CancelCheckout(s, i, user).1)
    ensures HeldIsBuyable(s) ==> HeldIsBuyable(CancelCheckout(s, i, user).1)
  {
    var (r, t) := CancelCheckout(s, i, user);
    if r == CheckoutCancelled {
      EndedHoldsNothing(s, t, i);
      ShrinkingFits(s, t);
    }
  }

  lemma SweepFits(s: Shop)
    requires Linked(s) && HoldsFit(s)
    ensures HoldsFit(Sweep(s)) && (HeldIsBuyable(s) ==> HeldIsBuyable(Sweep(s)))
  {
    forall i, v: VariantId | 0 <= i < |s.sessions|
      ensures HeldBy(Sweep(s).sessions[i], v, s.now) <= HeldBy(s.sessions[i], v, s.now)
    {
      SweptSession(s.sessions[i], s.now);
    }
    ShrinkingFits(s, Sweep(s));
  }

  lemma ClosingShrinks(s: Shop, o: OrderId, status: SessionStatus)
    requires o < |s.orders| && !Live(status)
    ensures HoldsShrink(s, s.(sessions := Transitioned(s.sessions, s.orders[o].session, status)))
  {
  }

  /** An on-time sale takes from stock exactly what its hold gives back. */
  lemma SaleFits(s: Shop, p: PaymentId, event: Option<EventId>)
    requires Linked(s) && HoldsFit(s) && p < |s.payments|
    requires CaptureHandled(s, p, event).0 == CapturedPaid && HoldStands(s, s.payments[p].order)
    ensures HoldsFit(CaptureHandled(s, p, event).1)
    ensures HeldIsBuyable(s) ==> HeldIsBuyable(CaptureHandled(s, p, event).1)
  {
    var o := s.payments[p].order;
    var t := CaptureHandled(s, p, event).1;
    var i := s.orders[o].session.value;
    assert OrderOk(s.orders[o], s.sessions) && SessionOk(s.sessions[i]);
    forall v: VariantId
      ensures Held(t.sessions, v, t.now) + Total(s.orders[o].lines, v) == Held(s.sessions, v, s.now)
      ensures StockOf(t.book.rows, v) == StockOf(s.book.rows, v) - Total(s.orders[o].lines, v)
    {
      HeldReplaced(s.sessions, v, s.now, i, Closed(s.sessions[i], Completed));
      assert HeldBy(s.sessions[i], v, s.now) == Total(s.orders[o].lines, v);
      SaleTakes(s.book, s.orders[o].lines, o, v);
    }
  }

  /** A sale takes from each variant exactly its lines' total. */
  lemma SaleTakes(b: Book, lines: seq<Line>, o: OrderId, v: VariantId)
    requires AllChecked(b.rows) && Post(Op.CommitSale, b, lines, o).Some?
    ensures StockOf(Post(Op.CommitSale, b, lines, o).value.rows, v) == StockOf(b.rows, v) - Total(lines, v)
  {
    PostKeepsChecks(Op.CommitSale, b, lines, o);
    PostsIff(Op.CommitSale, b, lines, o);
    if v !in b.rows {
      TotalOfAbsent(lines, v);
    }
  }

  lemma HookFits(s: Shop, w: Webhook, signatureOk: bool)
    requires Linked(s) && Sound(s) && HoldsFit(s)
    requires Guarded(s, Hook(w, signatureOk))
    ensures var t := WebhookHandled(s, w, signatureOk).1; HoldsFit(t) && (HeldIsBuyable(s) ==> HeldIsBuyable(t))
  {
    var (r, t) := WebhookHandled(s, w, signatureOk);
    if r == CapturedPaid {
      SaleFits(s, w.gatewayOrder.value, w.event);
    } else if r == FailedRecorded {
      var p := w.gatewayOrder.value;
      ClosingShrinks(s, s.payments[p].order, Cancelled);
      if t != s {
        ShrinkingFits(s, t);
      }
    }
  }

  lemma OrderCancelFits(s: Shop, o: OrderId)
    requires Linked(s) && HoldsFit(s)
    ensures HoldsFit(OrderCancelledBy(s, o).1)
    ensures HeldIsBuyable(s) ==> HeldIsBuyable(OrderCancelledBy(s, o).1)
  {
    var (r, t) := OrderCancelledBy(s, o);
    if r == Moved {
      var order := s.orders[o];
      if StockWasDecremented(order) && order.lines != [] {
        PostsIff(Op.Restock, s.book, order.lines, o);
        PostKeepsChecks(Op.Restock, s.book, order.lines, o);
        ShrinkingFits(s, t);
      } else {
        ClosingShrinks(s, o, Cancelled);
        ShrinkingFits(s, t);
      }
      if HeldIsBuyable(s) {
        HiddenOnlyWhenEmpty(s, t, Products(s.items, order.lines));
      }
    }
  }

  /** Recomputing availability never hides a product with a held item: its stock covers the hold. */
  lemma HiddenOnlyWhenEmpty(s: Shop, t: Shop, ids: set<ProductId>)
    requires HoldsFit(t) && HeldIsBuyable(s) && t.items == s.items
    requires forall v: VariantId :: Held(t.sessions, v, t.now) <= Held(s.sessions, v, s.now)
    requires t.products == RecomputedAll(t.book.rows, s.items, s.products, ids)
    ensures HeldIsBuyable(t)
  {
    forall v: VariantId | Held(t.sessions, v, t.now) > 0
      ensures Buyable(t.items, t.products, v)
    {
      assert Buyable(s.items, s.products, v);
      assert v in t.book.rows && t.book.rows[v].stock > 0;
      StockKeepsBuyable(t.book.rows, s.items, s.products, s.items[v].product, v);
    }
  }

  lemma AdjustFits(s: Shop, v: VariantId, mode: Mode, value: nat, reasonOk: bool)
    requires Linked(s) && HoldsFit(s)
    ensures var t := StockAdjusted(s, v, mode, value, reasonOk).1;
            HoldsFit(t) && (HeldIsBuyable(s) ==> HeldIsBuyable(t))
  {
    var (r, t) := StockAdjusted(s, v, mode, value, reasonOk);
    if r.Adjusted? {
      forall w: VariantId
        ensures Held(t.sessions, w, t.now) <= StockOf(t.book.rows, w)
        ensures HeldIsBuyable(s) && Held(t.sessions, w, t.now) > 0 ==> Buyable(t.items, t.products, w)
      {
        if HeldIsBuyable(s) && Held(t.sessions, w, t.now) > 0 {
          StockKeepsBuyable(t.book.rows, s.items, s.products, s.items[v].product, w);
        }
      }
    }
  }

  /** Everything the runs keep but for what the catalog says. */
  ghost predicate Stocked(s: Shop) {
    Linked(s) && Sound(s) && HoldsFit(s)
  }

  lemma GuardedStepFits(s: Shop, e: Event)
    requires Stocked(s) && Guarded(s, e)
    ensures HoldsFit(Step(s, e))
    ensures HeldIsBuyable(s) && Spares(s, e) ==> HeldIsBuyable(Step(s, e))
  {
    if e.Checkout? {
      CheckoutFits(s, e.user, e.cart);
    } else if e.Pay? {
      PayFits(s, e.session, e.user, e.gatewayOk);
    } else if e.Cancel? {
      CancelFits(s, e.session, e.user);
    } else if e.Hook? {
      HookFits(s, e.webhook, e.signatureOk);
    } else if e.SweepTick? {
      SweepFits(s);
    } else if e.Adjust? {
      AdjustFits(s, e.variant, e.mode, e.value, e.reasonOk);
    } else if e.CancelOrder? {
      OrderCancelFits(s, e.order);
    } else if e.Tick? {
      ShrinkingFits(s, Step(s, e));
    }
  }

  // Runs

  ghost predicate Healthy(s: Shop) {
    Stocked(s) && HeldIsBuyable(s)
  }

  /** Each event is guarded in the state it meets. */
  ghost predicate GuardedRun(s: Shop, es: seq<Event>)
    decreases |es|
  {
    Sound(s) && (es == [] || (Guarded(s, es[0]) && GuardedRun(Step(s, es[0]), es[1..])))
  }

  /** And no edit of the catalog takes a held item off sale. */
  ghost predicate SparingRun(s: Shop, es: seq<Event>)
    decreases |es|
  {
    Sound(s) && (es == [] || (Guarded(s, es[0]) && Spares(s, es[0]) && SparingRun(Step(s, es[0]), es[1..])))
  }

  /** No oversell: after every guarded run, edits of the catalog included, and so at every point of one,
      holds fit in stock. */
  lemma {:induction false} NeverOversold(s: Shop, es: seq<Event>)
    requires Stocked(s) && GuardedRun(s, es)
    ensures Stocked(Run(s, es))
    decreases |es|
  {
    if es != [] {
      StepKeepsLinks(s, es[0]);
      StepIsBalanced(s, es[0]);
      GuardedStepFits(s, es[0]);
      NeverOversold(Step(s, es[0]), es[1..]);
    }
  }

  /** And as long as no edit takes one off sale, every held item can still be bought. */
  lemma {:induction false} HeldStaysBuyable(s: Shop, es: seq<Event>)
    requires Healthy(s) && SparingRun(s, es)
    ensures Healthy(Run(s, es)) && GuardedRun(s, es)
    decreases |es|
  {
    if es != [] {
      StepKeepsLinks(s, es[0]);
      StepIsBalanced(s, es[0]);
      GuardedStepFits(s, es[0]);
      HeldStaysBuyable(Step(s, es[0]), es[1..]);
    }
  }

  /** Nothing sold, held or ordered yet. */
  predicate Opening(s: Shop) {
    AllChecked(s.book.rows) && s.sessions == [] && s.orders == [] && s.payments == []
  }

  lemma OpeningIsHealthy(s: Shop)
    requires Opening(s)
    ensures Healthy(s)
  {
  }

  /** From the opening of the shop on. */
  lemma NeverOversoldFromOpening(s: Shop, es: seq<Event>, v: VariantId)
    requires Opening(s) && GuardedRun(s, es)
    ensures Held(Run(s, es).sessions, v, Run(s, es).now) <= StockOf(Run(s, es).book.rows, v)
    ensures SparingRun(s, es) && Held(Run(s, es).sessions, v, Run(s, es).now) > 0 ==>
              Buyable(Run(s, es).items, Run(s, es).products, v)
  {
    OpeningIsHealthy(s);
    NeverOversold(s, es);
    if SparingRun(s, es) {
      HeldStaysBuyable(s, es);
    }
  }
}
