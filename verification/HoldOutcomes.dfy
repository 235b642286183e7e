/** What each operation on a hold answers and leaves, in the columns of sessions, reservation rows and
    orders: checkout, cancel, pay, the end of a hold and the sweeps. */
module HoldOutcomes {
  import opened Tables
  import opened Inventory
  import opened Holds
  import opened CheckoutSessions
  import opened CheckoutPayments
  import opened Lifecycle
  import opened Linkage
  import NoOversell

  // Derived reserved units

  /** A session holds its row's units of v while the row is active or processing and not past its expiry. */
  lemma HoldsItsRows(ss: seq<Session>, sess: Session, v: VariantId, now: int)
    ensures Held([], v, now) == 0
    ensures Held(ss + [sess], v, now) == Held(ss, v, now) +
            if v in sess.rows && (sess.rows[v].status == Active || sess.rows[v].status == Processing) &&
               now < sess.rows[v].expires
            then sess.rows[v].qty else 0
  {
    assert (ss + [sess])[..|ss|] == ss;
  }

  // Checkout

  /** Units of v that the user's own session may take: what is in stock and not held by the others. */
  function Free(s: Shop, v: VariantId, own: SessionId): int {
    StockOf(s.book.rows, v) - (Held(s.sessions, v, s.now) -
                               if own < |s.sessions| then HeldBy(s.sessions[own], v, s.now) else 0)
  }

  predicate OnSale(s: Shop, v: VariantId) {
    && v in s.items && s.items[v].active
    && s.items[v].product in s.products && s.products[s.items[v].product] == Published
  }

  lemma LineAnswers(s: Shop, line: Line, own: SessionId)
    ensures var r, free := LineResultFor(s, line, own), Free(s, line.variant, own);
            && r.variant == line.variant && r.requested == line.qty
            && r.available == (if free > 0 then free else 0)
            && (r.reserved <==> OnSale(s, line.variant) && line.qty <= free)
            && (r.reason == NoReason <==> r.reserved)
            && (r.reason == NotBuyable <==> !OnSale(s, line.variant))
            && (r.reason == OutOfStock <==> OnSale(s, line.variant) && line.qty > free)
  {
    OwnAndOthers(s.sessions, line.variant, s.now, own);
  }

  /** The session a checkout is about: a live one of the user, or the next one. */
  lemma TargetIs(s: Shop, user: UserId)
    ensures var i := Target(s, user);
            if exists j | 0 <= j < |s.sessions| ::
                 s.sessions[j].user == user && (s.sessions[j].status == Active || s.sessions[j].status == Processing)
            then i < |s.sessions| && s.sessions[i].user == user &&
                 (s.sessions[i].status == Active || s.sessions[i].status == Processing)
            else i == |s.sessions|
  {
  }

  /** A checkout is refused for an empty cart, returned to a payment under way, granted iff every line is on
      sale and free, and otherwise told line by line why not; refused, it changes nothing. */
  lemma CheckoutAnswers(s: Shop, user: UserId, cart: seq<Line>)
    ensures var (r, t), i := StartCheckout(s, user, cart), Target(s, user);
            var paying := i < |s.sessions| && s.sessions[i].status == Processing;
            && (r == CartEmpty <==> cart == [])
            && (r == PaymentUnderway(i) <==> cart != [] && paying)
            && (r.Reserved? <==>
                cart != [] && !paying &&
                forall k | 0 <= k < |cart| :: OnSale(s, cart[k].variant) && cart[k].qty <= Free(s, cart[k].variant, i))
            && (r.Reserved? ==> r.session == i)
            && (r.Reserved? || r.Conflict? ==>
                  |r.lines| == |cart| && forall k | 0 <= k < |cart| :: r.lines[k] == LineResultFor(s, cart[k], i))
            && (!r.Reserved? ==> t == s)
  {
    var i := Target(s, user);
    forall k | 0 <= k < |cart|
      ensures LineResults(s, cart, i)[k].reserved <==>
              OnSale(s, cart[k].variant) && cart[k].qty <= Free(s, cart[k].variant, i)
    {
      LineAnswers(s, cart[k], i);
    }
  }

  /** Granted, it leaves the session active for three minutes with one active row per line, and every other
      session as it was. */
  lemma CheckoutHolds(s: Shop, user: UserId, cart: seq<Line>)
    requires Distinct(cart) && StartCheckout(s, user, cart).0.Reserved?
    ensures var (r, t), i := StartCheckout(s, user, cart), Target(s, user);
            && |t.sessions| == (if i < |s.sessions| then |s.sessions| else |s.sessions| + 1) && i < |t.sessions|
            && (forall j | 0 <= j < |s.sessions| && j != i :: t.sessions[j] == s.sessions[j])
            && t.sessions[i].user == user && t.sessions[i].status == Active && t.sessions[i].expires == s.now + 180
            && (forall v <- t.sessions[i].rows :: exists k | 0 <= k < |cart| :: cart[k].variant == v)
            && (forall k | 0 <= k < |cart| ::
                  cart[k].variant in t.sessions[i].rows &&
                  t.sessions[i].rows[cart[k].variant] == Hold(cart[k].qty, Active, s.now + 180))
  {
    forall k | 0 <= k < |cart|
      ensures QtyOf(cart, cart[k].variant) == cart[k].qty
    {
      NoOversell.QtyOfLine(cart, k);
    }
  }

  // The user's cancel

  predicate IsLive(status: SessionStatus) {
    status == Active || status == Processing
  }

  lemma CancelAnswers(s: Shop, i: SessionId, user: UserId)
    ensures var (r, t) := CancelCheckout(s, i, user);
            && (r == NoSuchSession <==> i >= |s.sessions| || s.sessions[i].user != user)
            && (r == CheckoutCancelled <==>
                i < |s.sessions| && s.sessions[i].user == user && IsLive(s.sessions[i].status))
            && (r != CheckoutCancelled ==> t == s)
  {
  }

  /** It ends the session and its live rows, and of its pending orders the first. */
  lemma CancelLeaves(s: Shop, i: SessionId, user: UserId)
    requires CancelCheckout(s, i, user).0 == CheckoutCancelled
    ensures i < |s.sessions| && |CancelCheckout(s, i, user).1.sessions| == |s.sessions|
    ensures var t, was := CancelCheckout(s, i, user).1, s.sessions[i];
            && (forall j | 0 <= j < |s.sessions| && j != i :: t.sessions[j] == s.sessions[j])
            && t.sessions[i].status == Cancelled && t.sessions[i].rows.Keys == was.rows.Keys
            && (forall v <- was.rows ::
                  t.sessions[i].rows[v] ==
                  if IsLive(was.rows[v].status) then Hold(was.rows[v].qty, Cancelled, was.rows[v].expires)
                  else was.rows[v])
            && |t.orders| == |s.orders|
            && (forall o | 0 <= o < |s.orders| && (s.orders[o].session != Some(i) || s.orders[o].paid != Pending) ::
                  t.orders[o] == s.orders[o])
  {
  }

  lemma CancelEndsItsOrder(s: Shop, i: SessionId, user: UserId, o: OrderId)
    requires CancelCheckout(s, i, user).0 == CheckoutCancelled && OneOrderPerSession(s.orders)
    requires o < |s.orders| && s.orders[o].session == Some(i) && s.orders[o].paid == Pending
    ensures o < |CancelCheckout(s, i, user).1.orders|
    ensures var order := CancelCheckout(s, i, user).1.orders[o];
            order.status == OrderCancelled && order.paid == Failed && order.lines == s.orders[o].lines
  {
    assert PendingOrder(s.orders, i) == Some(o);
  }

  // Pay

  predicate CannotPay(s: Shop, sess: Session, v: VariantId) {
    v in sess.rows && sess.rows[v].status == Active &&
    (!OnSale(s, v) || StockOf(s.book.rows, v) < sess.rows[v].qty)
  }

  lemma {:induction false} FailuresAre(s: Shop, sess: Session, vs: seq<VariantId>, v: VariantId)
    requires forall k | 0 <= k < |vs| :: vs[k] in sess.rows && sess.rows[vs[k]].status == Active
    ensures v in Failures(s, sess, vs) <==> v in vs && CannotPay(s, sess, v)
  {
    if vs != [] {
      var n := |vs| - 1;
      FailuresAre(s, sess, vs[..n], v);
      assert vs == vs[..n] + [vs[n]];
    }
  }

  /** The failures of a pay are exactly the held variants that cannot be sold. */
  lemma FailuresNameThem(s: Shop, sess: Session, v: VariantId)
    ensures v in Failures(s, sess, ReservedVariants(sess)) <==> CannotPay(s, sess, v)
  {
    FailuresAre(s, sess, ReservedVariants(sess), v);
  }

  /** A pay of somebody else's session is not found; a refused pay changes nothing. */
  lemma PayRefusals(s: Shop, i: SessionId, user: UserId, gatewayOk: bool)
    ensures var (r, t) := PaymentStarted(s, i, user, gatewayOk);
            && (r == SessionNotFound <==> i >= |s.sessions| || s.sessions[i].user != user)
            && (!r.Paying? ==> t == s)
  {
    PayEffect(s, i, user, gatewayOk);
  }

  /** The owner is answered by the first applicable refusal, or the pay begins. */
  lemma PayAnswers(s: Shop, i: SessionId, gatewayOk: bool)
    requires i < |s.sessions|
    ensures var r, sess := PaymentStarted(s, i, s.sessions[i].user, gatewayOk).0, s.sessions[i];
            var current := sess.status == Active && s.now < sess.expires;
            var some := exists v <- sess.rows :: sess.rows[v].status == Active;
            var bad := exists v <- sess.rows :: CannotPay(s, sess, v);
            && (r == PaymentInProgress <==> sess.status == Processing)
            && (r == SessionNotActive <==> sess.status != Active && sess.status != Processing)
            && (r == SessionExpired <==> sess.status == Active && sess.expires <= s.now)
            && (r == NothingReserved <==> current && !some)
            && (r.BecameUnavailable? <==> current && some && bad)
            && (r == GatewayError <==> current && some && !bad && !gatewayOk)
            && (r == Paying(|s.orders|, |s.payments|) <==> current && some && !bad && gatewayOk)
  {
    var sess := s.sessions[i];
    if sess.status == Active && s.now < sess.expires {
      PaidOrRefused(s, sess, i, gatewayOk, ReservedVariants(sess));
      SomeReservedIff(sess);
      SomeFailsIff(s, sess);
    }
  }

  /** Answered that items became unavailable, the user is told exactly which. */
  lemma UnavailableNames(s: Shop, i: SessionId, gatewayOk: bool, v: VariantId)
    requires i < |s.sessions| && PaymentStarted(s, i, s.sessions[i].user, gatewayOk).0.BecameUnavailable?
    ensures v in PaymentStarted(s, i, s.sessions[i].user, gatewayOk).0.failures <==> CannotPay(s, s.sessions[i], v)
  {
    FailuresNameThem(s, s.sessions[i], v);
  }

  lemma SomeReservedIff(sess: Session)
    ensures ReservedVariants(sess) != [] <==> exists v <- sess.rows :: sess.rows[v].status == Active
  {
    if ReservedVariants(sess) != [] {
      assert ReservedVariants(sess)[0] in sess.rows;
    }
  }

  lemma SomeFailsIff(s: Shop, sess: Session)
    ensures Failures(s, sess, ReservedVariants(sess)) != [] <==> exists v <- sess.rows :: CannotPay(s, sess, v)
  {
    var failures := Failures(s, sess, ReservedVariants(sess));
    if failures != [] {
      FailuresNameThem(s, sess, failures[0]);
    }
    if v :| v in sess.rows && CannotPay(s, sess, v) {
      FailuresNameThem(s, sess, v);
    }
  }

  /** Begun, the session and its active rows are processing for fifteen minutes, and there is one more order,
      pending, for exactly those rows, with one more payment. */
  lemma PayLeaves(s: Shop, i: SessionId, user: UserId)
    requires PaymentStarted(s, i, user, true).0.Paying?
    ensures i < |s.sessions| && |PaymentStarted(s, i, user, true).1.sessions| == |s.sessions|
    ensures var t, was := PaymentStarted(s, i, user, true).1, s.sessions[i];
            && (forall j | 0 <= j < |s.sessions| && j != i :: t.sessions[j] == s.sessions[j])
            && t.sessions[i].user == user && t.sessions[i].status == Processing && t.sessions[i].expires == s.now + 900
            && t.sessions[i].rows.Keys == was.rows.Keys
            && (forall v <- was.rows ::
                  t.sessions[i].rows[v] ==
                  if was.rows[v].status == Active then Hold(was.rows[v].qty, Processing, s.now + 900) else was.rows[v])
            && |t.orders| == |s.orders| + 1 && t.orders[..|s.orders|] == s.orders
            && t.payments == s.payments + [Payment(|s.orders|, Created, None, false)]
            && t.book == s.book
  {
    PayEffect(s, i, user, true);
  }

  lemma PayOrders(s: Shop, i: SessionId, user: UserId, v: VariantId)
    requires PaymentStarted(s, i, user, true).0.Paying?
    ensures i < |s.sessions| && |PaymentStarted(s, i, user, true).1.orders| == |s.orders| + 1
    ensures var order, was := PaymentStarted(s, i, user, true).1.orders[|s.orders|], s.sessions[i];
            && order.session == Some(i) && !order.cod && order.status == Placed && order.paid == Pending
            && Total(order.lines, v) == if v in was.rows && was.rows[v].status == Active then was.rows[v].qty else 0
  {
    PayEffect(s, i, user, true);
    OrderLinesTotal(s.sessions[i], ReservedVariants(s.sessions[i]), v);
  }

  // The end of a hold

  predicate EndedAs(was: Session, sess: Session, status: SessionStatus) {
    && sess.user == was.user && sess.expires == was.expires && sess.status == status
    && sess.rows.Keys == was.rows.Keys
    && forall v <- was.rows :: sess.rows[v] == Hold(was.rows[v].qty, status, was.rows[v].expires)
  }

  /** A sale ends the order's session with all its rows as completed, a failure or a cancel as cancelled;
      no other session changes, nor, without a sale, any stock. */
  lemma HoldEnds(s: Shop, o: OrderId, i: SessionId)
    requires o < |s.orders| && s.orders[o].session == Some(i) && i < |s.sessions|
    ensures var t := HoldCancelled(s, o);
            && t.book == s.book && |t.sessions| == |s.sessions| && EndedAs(s.sessions[i], t.sessions[i], Cancelled)
            && forall j | 0 <= j < |s.sessions| && j != i :: t.sessions[j] == s.sessions[j]
    ensures SaleCompleted(s, o).Some? ==>
              var t := SaleCompleted(s, o).value;
              && |t.sessions| == |s.sessions| && EndedAs(s.sessions[i], t.sessions[i], Completed)
              && Post(Op.CommitSale, s.book, s.orders[o].lines, o) == Some(t.book)
              && forall j | 0 <= j < |s.sessions| && j != i :: t.sessions[j] == s.sessions[j]
    ensures SaleCompleted(s, o).None? <==> Post(Op.CommitSale, s.book, s.orders[o].lines, o).None?
  {
  }

  // The sweeps

  /** In a linked shop a tick expires the lapsed active sessions and cancels the lapsed processing ones, with
      all their rows, and leaves every other session alone. */
  lemma SweepEnds(s: Shop, i: SessionId)
    requires Linked(s) && i < |s.sessions|
    ensures |Sweep(s).sessions| == |s.sessions|
    ensures var was, sess := s.sessions[i], Sweep(s).sessions[i];
            && (was.status == Active && was.expires < s.now ==> EndedAs(was, sess, Expired))
            && (was.status == Processing && was.expires < s.now ==> EndedAs(was, sess, Cancelled))
            && (!IsLive(was.status) || was.expires >= s.now ==> sess == was)
  {
    var was := s.sessions[i];
    assert SessionOk(was);
    var once := Lapsed(was, s.now, Active, Expired);
    assert was.expires >= s.now || !IsLive(was.status) ==>
      once.rows == was.rows && Lapsed(once, s.now, Processing, Cancelled).rows == was.rows;
    assert was.status == Processing ==> once.rows == was.rows;
  }

  /** The orders of lapsed processing sessions that are still pending fail; no other order changes. */
  lemma SweepFails(s: Shop, o: OrderId)
    requires Linked(s) && o < |s.orders|
    ensures |Sweep(s).orders| == |s.orders|
    ensures Sweep(s).orders[o] ==
            if s.orders[o].session.Some? && s.orders[o].session.value < |s.sessions| && s.orders[o].paid == Pending &&
               s.sessions[s.orders[o].session.value].status == Processing &&
               s.sessions[s.orders[o].session.value].expires < s.now
            then s.orders[o].(paid := Failed) else s.orders[o]
  {
  }

  /** After a tick nothing live is past its expiry. */
  lemma NothingLapsedIsLive(s: Shop, i: SessionId, v: VariantId)
    requires Linked(s) && i < |s.sessions| == |Sweep(s).sessions|
    ensures var sess := Sweep(s).sessions[i];
            && (sess.status == Active || sess.status == Processing ==> s.now <= sess.expires)
            && (v in sess.rows && (sess.rows[v].status == Active || sess.rows[v].status == Processing) ==>
                  s.now <= sess.rows[v].expires)
  {
    SweepEnds(s, i);
    assert SessionOk(s.sessions[i]);
  }
}
