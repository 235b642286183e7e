/** A live hold is a promise: between the checkout that took it and its expiry, nothing that other
    users, the sweeper, the gateway or the admin's adjustments do can make paying or the on-time
    capture fail for lack of stock. */
module Promise {
  import opened Tables
  import opened Inventory
  import opened Holds
  import opened CheckoutSessions
  import opened CheckoutPayments
  import opened Lifecycle
  import opened Payments
  import opened AdminOrders
  import opened LegacyCheckout
  import opened Protocol
  import opened Linkage
  import opened NoOversell
  import opened PaymentOutcomes

  // One call

  /** Reloading an unchanged cart on a live hold succeeds and keeps the session. */
  lemma ReloadHonoured(s: Shop, user: UserId, cart: seq<Line>, i: SessionId)
    requires Healthy(s) && Distinct(cart) && cart != []
    requires LiveSession(s.sessions, user) == Some(i) && s.sessions[i].status == Active && s.now < s.sessions[i].expires
    requires s.sessions[i].rows == RowsFor(cart, s.sessions[i].expires)
    ensures StartCheckout(s, user, cart).0.Reserved? && StartCheckout(s, user, cart).0.session == i
  {
    forall k | 0 <= k < |cart|
      ensures LineResults(s, cart, i)[k].reserved
    {
      var v := cart[k].variant;
      QtyOfLine(cart, k);
      assert v in s.sessions[i].rows;
      OwnAndOthers(s.sessions, v, s.now, i);
    }
  }

  /** Paying an unexpired session succeeds. */
  lemma PayHonoured(s: Shop, i: SessionId)
    requires Healthy(s)
    requires i < |s.sessions| && s.sessions[i].status == Active && s.now < s.sessions[i].expires
    ensures PaymentStarted(s, i, s.sessions[i].user, true).0 == Paying(|s.orders|, |s.payments|)
  {
    var sess := s.sessions[i];
    assert SessionOk(sess);
    RowsBecomeLines(sess, s.now + PAYMENT_TTL);
    var vs := ReservedVariants(sess);
    forall k | 0 <= k < |vs|
      ensures Payable(s, sess, vs[k])
    {
      HeldIsPayable(s, i, vs[k]);
    }
    NoFailuresIff(s, sess, vs);
    PaySucceeds(s, i);
  }

  lemma HeldIsPayable(s: Shop, i: SessionId, v: VariantId)
    requires HoldsFit(s) && HeldIsBuyable(s)
    requires i < |s.sessions| && v in s.sessions[i].rows && HeldBy(s.sessions[i], v, s.now) == s.sessions[i].rows[v].qty
    ensures Payable(s, s.sessions[i], v)
  {
    OwnAndOthers(s.sessions, v, s.now, i);
    assert Held(s.sessions, v, s.now) <= StockOf(s.book.rows, v);
  }

  lemma PaySucceeds(s: Shop, i: SessionId)
    requires i < |s.sessions| && s.sessions[i].status == Active && s.now < s.sessions[i].expires
    requires ReservedVariants(s.sessions[i]) != [] && Failures(s, s.sessions[i], ReservedVariants(s.sessions[i])) == []
    ensures PaymentStarted(s, i, s.sessions[i].user, true).0 == Paying(|s.orders|, |s.payments|)
  {
  }

  /** An on-time capture is fulfilled. */
  lemma CaptureHonoured(s: Shop, p: PaymentId, event: Option<EventId>)
    requires Stocked(s)
    requires p < |s.payments| && s.payments[p].status != GatewayStatus.Captured
    requires HoldStands(s, s.payments[p].order)
    ensures CaptureHandled(s, p, event).0 == CapturedPaid
  {
    var o := s.payments[p].order;
    var i := s.orders[o].session.value;
    var lines := s.orders[o].lines;
    assert OrderOk(s.orders[o], s.sessions) && SessionOk(s.sessions[i]);
    forall v: VariantId
      ensures Total(lines, v) <= StockOf(s.book.rows, v)
    {
      OwnAndOthers(s.sessions, v, s.now, i);
      assert HeldBy(s.sessions[i], v, s.now) == Total(lines, v);
    }
    forall k | 0 <= k < |lines|
      ensures lines[k].variant in s.book.rows
    {
      LineWithinTotal(lines, k);
      assert Total(lines, lines[k].variant) <= StockOf(s.book.rows, lines[k].variant);
    }
    PostsIff(Op.CommitSale, s.book, lines, o);
  }

  // Surviving the rest of the world

  function Elapsed(es: seq<Event>): nat {
    if es == [] then 0 else (if es[0].Tick? then es[0].seconds else 0) + Elapsed(es[1..])
  }

  lemma StepTime(s: Shop, e: Event)
    requires Sound(s)
    ensures Step(s, e).now == s.now + if e.Tick? then e.seconds else 0
  {
  }

  /** The owner of an active session leaves it alone. */
  predicate LeavesSession(e: Event, i: SessionId, user: UserId) {
    && (e.Checkout? ==> e.user != user)
    && (e.Cancel? ==> e.session != i)
    && (e.Pay? ==> e.session != i)
  }

  lemma ActiveUntouched(s: Shop, e: Event, i: SessionId)
    requires Stocked(s) && Guarded(s, e)
    requires i < |s.sessions| && s.sessions[i].status == Active && s.now < s.sessions[i].expires
    requires LeavesSession(e, i, s.sessions[i].user)
    ensures i < |Step(s, e).sessions| && Step(s, e).sessions[i] == s.sessions[i]
  {
    forall o | 0 <= o < |s.orders|
      ensures s.orders[o].session != Some(i)
    {
      assert OrderOk(s.orders[o], s.sessions);
    }
    if e.SweepTick? {
      SweptSession(s.sessions[i], s.now);
    } else if e.Pay? {
      PayEffect(s, e.session, e.user, e.gatewayOk);
    } else if e.Hook? {
      HookSparesOthers(s, e.webhook, e.signatureOk, i);
    } else if e.CancelOrder? {
      OrderCancelSparesOthers(s, e.order, i);
    }
  }

  lemma HookSparesOthers(s: Shop, w: Webhook, signatureOk: bool, i: SessionId)
    requires Linked(s) && Sound(s) && i < |s.sessions|
    requires w.gatewayOrder.Some? && w.gatewayOrder.value < |s.payments| ==>
               s.orders[s.payments[w.gatewayOrder.value].order].session != Some(i)
    ensures var t := WebhookHandled(s, w, signatureOk).1;
            |t.sessions| == |s.sessions| && t.sessions[i] == s.sessions[i]
  {
  }

  lemma OrderCancelSparesOthers(s: Shop, o: OrderId, i: SessionId)
    requires i < |s.sessions|
    requires o < |s.orders| ==> s.orders[o].session != Some(i)
    ensures var t := OrderCancelledBy(s, o).1;
            |t.sessions| == |s.sessions| && t.sessions[i] == s.sessions[i]
  {
  }

  lemma {:induction false} ActiveSurvives(s: Shop, es: seq<Event>, i: SessionId)
    requires Stocked(s) && GuardedRun(s, es)
    requires i < |s.sessions| && s.sessions[i].status == Active && s.now + Elapsed(es) < s.sessions[i].expires
    requires forall e <- es :: LeavesSession(e, i, s.sessions[i].user)
    ensures Run(s, es).now == s.now + Elapsed(es)
    ensures i < |Run(s, es).sessions| && Run(s, es).sessions[i] == s.sessions[i]
    decreases |es|
  {
    if es != [] {
      StepTime(s, es[0]);
      ActiveUntouched(s, es[0], i);
      StepKeepsLinks(s, es[0]);
      StepIsBalanced(s, es[0]);
      GuardedStepFits(s, es[0]);
      ActiveSurvives(Step(s, es[0]), es[1..], i);
    }
  }

  /** Nobody cancels the checkout or the order, and the gateway says nothing about this payment yet. */
  predicate LeavesPayment(e: Event, i: SessionId, o: OrderId, p: PaymentId) {
    && (e.Cancel? ==> e.session != i)
    && (e.CancelOrder? ==> e.order != o)
    && (e.Hook? ==> e.webhook.gatewayOrder != Some(p))
  }

  predicate InFlight(s: Shop, i: SessionId, o: OrderId, p: PaymentId) {
    i < |s.sessions| && o < |s.orders| && p < |s.payments| &&
    s.orders[o].session == Some(i) && s.payments[p].order == o &&
    s.sessions[i].status == Processing && s.now < s.sessions[i].expires
  }

  predicate SameFlight(s: Shop, t: Shop, i: SessionId, o: OrderId, p: PaymentId)
    requires i < |s.sessions| && o < |s.orders| && p < |s.payments|
  {
    i < |t.sessions| && o < |t.orders| && p < |t.payments| &&
    t.sessions[i] == s.sessions[i] && t.orders[o] == s.orders[o] && t.payments[p] == s.payments[p]
  }

  lemma FlightUntouched(s: Shop, e: Event, i: SessionId, o: OrderId, p: PaymentId)
    requires Linked(s) && Sound(s)
    requires InFlight(s, i, o, p) && LeavesPayment(e, i, o, p)
    ensures SameFlight(s, Step(s, e), i, o, p)
  {
    assert OrderOk(s.orders[o], s.sessions);
    if e.SweepTick? {
      SweepSparesFlight(s, i, o, p);
    } else if e.Pay? {
      PayEffect(s, e.session, e.user, e.gatewayOk);
    } else if e.Hook? {
      HookSparesFlight(s, e.webhook, e.signatureOk, i, o, p);
    } else if e.CancelOrder? {
      OrderCancelSparesFlight(s, e.order, i, o, p);
    } else if e.Checkout? {
      CheckoutSparesProcessing(s, e.user, e.cart, i);
    } else if e.Cancel? {
      CancelSparesOthers(s, e.session, e.user, i, o);
    } else {
      OtherSparesFlight(s, e, i, o, p);
    }
  }

  lemma OtherSparesFlight(s: Shop, e: Event, i: SessionId, o: OrderId, p: PaymentId)
    requires Linked(s) && Sound(s) && InFlight(s, i, o, p) && LeavesPayment(e, i, o, p)
    requires !e.SweepTick? && !e.Pay? && !e.Hook? && !e.CancelOrder? && !e.Checkout? && !e.Cancel?
    ensures SameFlight(s, Step(s, e), i, o, p)
  {
  }

  lemma SweepSparesFlight(s: Shop, i: SessionId, o: OrderId, p: PaymentId)
    requires Linked(s) && InFlight(s, i, o, p)
    ensures SameFlight(s, Sweep(s), i, o, p)
  {
    SweptSession(s.sessions[i], s.now);
  }

  lemma OrderCancelSparesFlight(s: Shop, q: OrderId, i: SessionId, o: OrderId, p: PaymentId)
    requires Linked(s) && InFlight(s, i, o, p) && q != o
    ensures SameFlight(s, OrderCancelledBy(s, q).1, i, o, p)
  {
    if q < |s.orders| {
      assert s.orders[q].session != Some(i);
    }
    OrderCancelSparesOthers(s, q, i);
  }

  lemma HookSparesFlight(s: Shop, w: Webhook, signatureOk: bool, i: SessionId, o: OrderId, p: PaymentId)
    requires Linked(s) && Sound(s) && InFlight(s, i, o, p) && w.gatewayOrder != Some(p)
    ensures SameFlight(s, WebhookHandled(s, w, signatureOk).1, i, o, p)
  {
    if w.gatewayOrder.Some? && w.gatewayOrder.value < |s.payments| {
      assert s.payments[w.gatewayOrder.value].order != o;
      assert s.orders[s.payments[w.gatewayOrder.value].order].session != Some(i);
    }
    HookSparesOthers(s, w, signatureOk, i);
    HookSparesOtherOrders(s, w, signatureOk, o, p);
  }

  lemma CancelSparesOthers(s: Shop, j: SessionId, user: UserId, i: SessionId, o: OrderId)
    requires j != i && i < |s.sessions| && o < |s.orders| && s.orders[o].session == Some(i)
    ensures var t := CancelCheckout(s, j, user).1;
            |t.sessions| == |s.sessions| && |t.orders| == |s.orders| && t.payments == s.payments &&
            t.sessions[i] == s.sessions[i] && t.orders[o] == s.orders[o]
  {
  }

  lemma CheckoutSparesProcessing(s: Shop, user: UserId, cart: seq<Line>, i: SessionId)
    requires i < |s.sessions| && s.sessions[i].status == Processing
    ensures var t := StartCheckout(s, user, cart).1;
            i < |t.sessions| && t.sessions[i] == s.sessions[i] && t.orders == s.orders && t.payments == s.payments
  {
  }

  lemma HookSparesOtherOrders(s: Shop, w: Webhook, signatureOk: bool, o: OrderId, p: PaymentId)
    requires Sound(s) && o < |s.orders| && p < |s.payments| && w.gatewayOrder != Some(p)
    requires w.gatewayOrder.Some? && w.gatewayOrder.value < |s.payments| ==> s.payments[w.gatewayOrder.value].order != o
    ensures var t := WebhookHandled(s, w, signatureOk).1;
            |t.orders| == |s.orders| && |t.payments| == |s.payments| &&
            t.orders[o] == s.orders[o] && t.payments[p] == s.payments[p]
  {
  }

  lemma {:induction false} FlightSurvives(s: Shop, es: seq<Event>, i: SessionId, o: OrderId, p: PaymentId)
    requires Stocked(s) && GuardedRun(s, es)
    requires InFlight(s, i, o, p) && s.now + Elapsed(es) < s.sessions[i].expires
    requires forall e <- es :: LeavesPayment(e, i, o, p)
    ensures Run(s, es).now == s.now + Elapsed(es)
    ensures SameFlight(s, Run(s, es), i, o, p)
    decreases |es|
  {
    if es != [] {
      StepTime(s, es[0]);
      FlightUntouched(s, es[0], i, o, p);
      StepKeepsLinks(s, es[0]);
      StepIsBalanced(s, es[0]);
      GuardedStepFits(s, es[0]);
      FlightSurvives(Step(s, es[0]), es[1..], i, o, p);
    }
  }

  // From cart to paid order

  lemma {:induction false} CartTotal(cart: seq<Line>, v: VariantId)
    requires Distinct(cart)
    ensures Total(cart, v) == if exists k | 0 <= k < |cart| :: cart[k].variant == v then QtyOf(cart, v) else 0
  {
    if exists k | 0 <= k < |cart| :: cart[k].variant == v {
      var k :| 0 <= k < |cart| && cart[k].variant == v;
      var n := |cart| - 1;
      if k == n {
        TotalOfAbsent(cart[..n], v);
      } else {
        CartTotal(cart[..n], v);
        assert cart[..n][k].variant == v;
      }
    } else {
      TotalOfAbsent(cart, v);
    }
  }

  /** The session of a successful checkout. */
  function HeldSession(s: Shop, user: UserId, cart: seq<Line>): SessionId {
    Target(s, user)
  }

  /** A checkout succeeded and the rest of the world moved on for less than three minutes. */
  ghost predicate HeldThrough(s: Shop, user: UserId, cart: seq<Line>, before: seq<Event>) {
    && Healthy(s) && Distinct(cart)
    && StartCheckout(s, user, cart).0.Reserved?
    && SparingRun(StartCheckout(s, user, cart).1, before)
    && Elapsed(before) < 180
    && forall e <- before :: LeavesSession(e, HeldSession(s, user, cart), user)
  }

  function AtPay(s: Shop, user: UserId, cart: seq<Line>, before: seq<Event>): Shop
    requires Sound(StartCheckout(s, user, cart).1)
  {
    Run(StartCheckout(s, user, cart).1, before)
  }

  lemma HeldAtPay(s: Shop, user: UserId, cart: seq<Line>, before: seq<Event>)
    requires HeldThrough(s, user, cart, before)
    ensures var t := AtPay(s, user, cart, before);
            var i := HeldSession(s, user, cart);
            Healthy(t) && i < |t.sessions| && t.now < t.sessions[i].expires &&
            t.sessions[i] == Session(user, Active, t.sessions[i].expires, RowsFor(cart, t.sessions[i].expires))
  {
    var held := StartCheckout(s, user, cart).1;
    StepIsBalanced(s, Checkout(user, cart));
    assert Step(s, Checkout(user, cart)) == held;
    StepKeepsLinks(s, Checkout(user, cart));
    CheckoutFits(s, user, cart);
    HeldStaysBuyable(held, before);
    ActiveSurvives(held, before, HeldSession(s, user, cart));
  }

  /** First half: until the hold expires, paying succeeds, and leaves the payment in flight for a cart
      that is held as it was. */
  lemma PayPromised(s: Shop, user: UserId, cart: seq<Line>, before: seq<Event>)
    requires HeldThrough(s, user, cart, before)
    ensures var t := AtPay(s, user, cart, before);
            var i, o, p := HeldSession(s, user, cart), |t.orders|, |t.payments|;
            var (r, paying) := PaymentStarted(t, i, user, true);
            && r == Paying(o, p)
            && Healthy(paying) && InFlight(paying, i, o, p)
            && paying.payments[p].status == Created
            && paying.sessions[i].expires == paying.now + PAYMENT_TTL
            && paying.sessions[i].rows == PayRows(RowsFor(cart, t.sessions[i].expires), paying.sessions[i].expires)
  {
    HeldAtPay(s, user, cart, before);
    PayBegins(AtPay(s, user, cart, before), HeldSession(s, user, cart));
  }

  lemma PayBegins(t: Shop, i: SessionId)
    requires Healthy(t) && i < |t.sessions| && t.sessions[i].status == Active && t.now < t.sessions[i].expires
    ensures var (r, paying) := PaymentStarted(t, i, t.sessions[i].user, true);
            && r == Paying(|t.orders|, |t.payments|)
            && Healthy(paying) && InFlight(paying, i, |t.orders|, |t.payments|)
            && paying.payments[|t.payments|].status == Created
            && paying.sessions[i].expires == paying.now + PAYMENT_TTL
            && paying.sessions[i].rows == PayRows(t.sessions[i].rows, paying.sessions[i].expires)
  {
    var user := t.sessions[i].user;
    PayHonoured(t, i);
    PayEffect(t, i, user, true);
    PayKeepsLinks(t, i, user, true);
    PayFits(t, i, user, true);
    LinkedIsSound(Begun(t, i, Processed(t.sessions[i], t.now + PAYMENT_TTL),
                        OrderLines(t.sessions[i], ReservedVariants(t.sessions[i]))));
  }

  /** The gateway's report that payment p was captured. */
  predicate Reports(w: Webhook, p: PaymentId) {
    w.kind == PaymentCaptured && w.gatewayOrder == Some(p) && w.hasPaymentId
  }

  lemma FirstReportIsHandled(t: Shop, w: Webhook, p: PaymentId)
    requires PaymentsResolve(t) && p < |t.payments| && Reports(w, p) && !Recorded(t, w.event)
    ensures WebhookHandled(t, w, true) == CaptureHandled(t, p, w.event)
  {
    assert !EventSeen(t.payments, w.event);
  }

  /** Second half: until the payment's time is up, the first report of the capture pays the order in full. */
  lemma CapturePromised(s: Shop, after: seq<Event>, i: SessionId, o: OrderId, p: PaymentId, w: Webhook)
    requires Stocked(s) && GuardedRun(s, after)
    requires InFlight(s, i, o, p) && s.payments[p].status != GatewayStatus.Captured
    requires s.now + Elapsed(after) < s.sessions[i].expires
    requires forall e <- after :: LeavesPayment(e, i, o, p)
    requires Reports(w, p) && !Recorded(Run(s, after), w.event)
    ensures var t := Run(s, after);
            && PaymentsResolve(t) && p < |t.payments| && t.payments[p].order == o < |t.orders|
            && var (r, done) := WebhookHandled(t, w, true);
               && r == CapturedPaid
               && o < |done.orders| && done.orders[o].paid == Paid
               && forall v: VariantId ::
                    StockOf(done.book.rows, v) ==
                    StockOf(t.book.rows, v) - if v in s.sessions[i].rows then s.sessions[i].rows[v].qty else 0
  {
    FlightSurvives(s, after, i, o, p);
    NeverOversold(s, after);
    var t := Run(s, after);
    FirstReportIsHandled(t, w, p);
    CaptureHonoured(t, p, w.event);
    assert OrderOk(s.orders[o], s.sessions);
    var lines := t.orders[o].lines;
    forall v: VariantId
      ensures StockOf(CaptureHandled(t, p, w.event).1.book.rows, v) == StockOf(t.book.rows, v) - Total(lines, v)
    {
      SaleTakes(t.book, lines, o, v);
    }
  }

  /** A live hold is a promise.  Once a checkout has succeeded, then through any events of the rest of
      the world that take less than three minutes and no held item off sale, paying succeeds; and then,
      through any that take less than fifteen, edits of the catalog included, the webhook that first reports
      the capture pays the order, and exactly the cart's quantities leave stock. */
  lemma HoldIsAPromise(s: Shop, user: UserId, cart: seq<Line>, before: seq<Event>, after: seq<Event>,
                       w: Webhook, paying: Shop, o: OrderId, p: PaymentId)
    requires HeldThrough(s, user, cart, before)
    requires (Paying(o, p), paying)
             == PaymentStarted(AtPay(s, user, cart, before), HeldSession(s, user, cart), user, true)
    requires GuardedRun(paying, after) && Elapsed(after) < 900
    requires forall e <- after :: LeavesPayment(e, HeldSession(s, user, cart), o, p)
    requires Reports(w, p) && !Recorded(Run(paying, after), w.event)
    ensures var t := Run(paying, after);
            && PaymentsResolve(t) && p < |t.payments| && t.payments[p].order == o < |t.orders|
            && var (r, done) := WebhookHandled(t, w, true);
               && r == CapturedPaid
               && o < |done.orders| && done.orders[o].paid == Paid
               && forall v: VariantId :: StockOf(done.book.rows, v) == StockOf(t.book.rows, v) - Total(cart, v)
  {
    PayPromised(s, user, cart, before);
    CapturePromised(paying, after, HeldSession(s, user, cart), o, p, w);
    forall v: VariantId
      ensures Total(cart, v) ==
              if v in paying.sessions[HeldSession(s, user, cart)].rows
              then paying.sessions[HeldSession(s, user, cart)].rows[v].qty else 0
    {
      CartTotal(cart, v);
    }
  }

  /** The promise is made, for one, to whoever checks out the only unit of a published variant. */
  lemma SomebodyIsPromised() returns (s: Shop, user: UserId, cart: seq<Line>, paying: Shop, o: OrderId, p: PaymentId)
    ensures HeldThrough(s, user, cart, [])
    ensures (Paying(o, p), paying) == PaymentStarted(AtPay(s, user, cart, []), HeldSession(s, user, cart), user, true)
    ensures GuardedRun(paying, [])
  {
    user, cart := 0, [Line(0, 1)];
    s := Shop(0, Book(map[0 := Stock(1, 0, 0)], []), map[0 := Item(0, true)], map[0 := Published], [], [], []);
    assert Healthy(s);
    assert LineResultFor(s, cart[0], 0).reserved;
    var held := StartCheckout(s, user, cart).1;
    assert Run(held, []) == held;
    PayPromised(s, user, cart, []);
    paying := PaymentStarted(held, HeldSession(s, user, cart), user, true).1;
    o, p := 0, 0;
  }
}
