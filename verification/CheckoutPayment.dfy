/** app/services/checkout_payment_service.py: an active session becomes a pending order and a
    gateway handoff.  The gateway answers with a fresh order id or fails the whole request. */
module CheckoutPayments {
  import opened Tables
  import opened Ordering
  import opened Database

  datatype PayOutcome =
    | SessionNotFound
    | PaymentInProgress
    | SessionNotActive
    | SessionExpired
    | NothingReserved
    | BecameUnavailable(failures: seq<VariantId>)
    | GatewayError
    | Paying(order: OrderId, payment: PaymentId)

  function ActiveRows(sess: Session): set<VariantId> {
    set v <- sess.rows | sess.rows[v].status == Active
  }

  /** The variants of the rows a pay will convert, in id order. */
  function ReservedVariants(sess: Session): (r: seq<VariantId>)
    ensures Increasing(r)
    ensures forall k | 0 <= k < |r| :: r[k] in sess.rows && sess.rows[r[k]].status == Active
    ensures forall v <- sess.rows | sess.rows[v].status == Active :: v in r
  {
    Ascending(ActiveRows(sess))
  }

  predicate Payable(s: Shop, sess: Session, v: VariantId)
    requires v in sess.rows
  {
    Buyable(s.items, s.products, v) && sess.rows[v].qty <= StockOf(s.book.rows, v)
  }

  function Failures(s: Shop, sess: Session, vs: seq<VariantId>): seq<VariantId>
    requires forall i | 0 <= i < |vs| :: vs[i] in sess.rows
  {
    if vs == [] then []
    else
      var n := |vs| - 1;
      Failures(s, sess, vs[..n]) + if Payable(s, sess, vs[n]) then [] else [vs[n]]
  }

  function OrderLines(sess: Session, vs: seq<VariantId>): seq<Line>
    requires forall i | 0 <= i < |vs| :: vs[i] in sess.rows
  {
    seq(|vs|, i requires 0 <= i < |vs| => Line(vs[i], sess.rows[vs[i]].qty))
  }

  function PayRows(rows: map<VariantId, Hold>, expires: int): map<VariantId, Hold> {
    map v <- rows :: if rows[v].status == Active then rows[v].(status := Processing, expires := expires) else rows[v]
  }

  function Processed(sess: Session, expires: int): Session {
    sess.(status := Processing, expires := expires, rows := PayRows(sess.rows, expires))
  }

  /** The state in which a session has begun to be paid. */
  function Begun(s: Shop, i: SessionId, sess: Session, lines: seq<Line>): Shop
    requires i < |s.sessions|
  {
    s.(sessions := s.sessions[i := sess],
       orders := s.orders + [Order(Some(i), false, lines, Placed, Pending)],
       payments := s.payments + [Payment(|s.orders|, Created, None, false)])
  }

  function PaymentStarted(s: Shop, i: SessionId, user: UserId, gatewayOk: bool): (r: (PayOutcome, Shop))
    ensures r.1 == s.(orders := r.1.orders, sessions := r.1.sessions, payments := r.1.payments)
  {
    if i >= |s.sessions| || s.sessions[i].user != user then (SessionNotFound, s)
    else
      var sess := s.sessions[i];
      if sess.status == Processing then (PaymentInProgress, s)
      else if sess.status != Active then (SessionNotActive, s)
      else if sess.expires <= s.now then (SessionExpired, s)
      else
        var vs := ReservedVariants(sess);
        if vs == [] then (NothingReserved, s)
        else if Failures(s, sess, vs) != [] then (BecameUnavailable(Failures(s, sess, vs)), s)
        else if !gatewayOk then (GatewayError, s)
        else
          (Paying(|s.orders|, |s.payments|), Begun(s, i, Processed(sess, s.now + PAYMENT_TTL), OrderLines(sess, vs)))
  }

  lemma {:induction false} NoFailuresIff(s: Shop, sess: Session, vs: seq<VariantId>)
    requires forall i | 0 <= i < |vs| :: vs[i] in sess.rows
    ensures Failures(s, sess, vs) == [] <==> forall i | 0 <= i < |vs| :: Payable(s, sess, vs[i])
  {
    if vs != [] {
      NoFailuresIff(s, sess, vs[..|vs| - 1]);
    }
  }

  class CheckoutPaymentService {
    const db: Db

    constructor (db: Db)
      ensures this.db == db
    {
      this.db := db;
    }

    method StartPayment(i: SessionId, user: UserId, gatewayOk: bool) returns (r: PayOutcome)
      modifies db`sessions, db`orders, db`payments
      ensures (r, db.Contents()) == PaymentStarted(old(db.Contents()), i, user, gatewayOk)
    {
      ghost var s := db.Contents();
      if i >= |db.sessions| || db.sessions[i].user != user {
        return SessionNotFound;
      }
      var sess := db.sessions[i];
      if sess.status == Processing {
        return PaymentInProgress;
      }
      if sess.status != Active {
        return SessionNotActive;
      }
      if sess.expires <= db.now {
        return SessionExpired;
      }
      var reservations := ReservedVariants(sess);
      if reservations == [] {
        return NothingReserved;
      }
      var lines, failures := BuildOrder(sess, reservations);
      if failures != [] {
        return BecameUnavailable(failures);
      }
      var o, p := Hand(i, sess, lines, gatewayOk);
      return if gatewayOk then Paying(o, p) else GatewayError;
    }

    /** The order, the transition to processing and the gateway handoff, undone if the gateway fails. */
    method Hand(i: SessionId, sess: Session, lines: seq<Line>, gatewayOk: bool) returns (o: OrderId, p: PaymentId)
      requires i < |db.sessions| && sess == db.sessions[i]
      modifies db`sessions, db`orders, db`payments
      ensures o == |old(db.orders)| && p == |old(db.payments)|
      ensures db.Contents() ==
              if gatewayOk then Begun(old(db.Contents()), i, Processed(sess, db.now + PAYMENT_TTL), lines)
                               else old(db.Contents())
    {
      p := |db.payments|;
      var savedSessions, savedOrders := db.sessions, db.orders;
      o := |db.orders|;
      db.orders := db.orders + [Order(Some(i), false, lines, Placed, Pending)];
      var expires := db.now + PAYMENT_TTL;
      db.sessions := db.sessions[i := sess.(rows := PayRows(sess.rows, expires))];
      db.sessions := db.sessions[i := db.sessions[i].(status := Processing, expires := expires)];
      assert db.sessions == savedSessions[i := Processed(sess, expires)];
      if !gatewayOk {
        db.sessions, db.orders := savedSessions, savedOrders;
        return;
      }
      db.payments := db.payments + [Payment(o, Created, None, false)];
    }

    method BuildOrder(sess: Session, reservations: seq<VariantId>) returns (lines: seq<Line>, failures: seq<VariantId>)
      requires forall k | 0 <= k < |reservations| :: reservations[k] in sess.rows
      ensures failures == Failures(db.Contents(), sess, reservations)
      ensures failures == [] ==> lines == OrderLines(sess, reservations)
    {
      lines, failures := [], [];
      for k := 0 to |reservations|
        invariant failures == Failures(db.Contents(), sess, reservations[..k])
        invariant failures == [] ==> lines == OrderLines(sess, reservations[..k])
      {
        var v := reservations[k];
        assert reservations[..k + 1][..k] == reservations[..k];
        var stock := if v in db.rows then db.rows[v].stock else 0;
        var buyable := Buyable(db.items, db.products, v);
        if !buyable || stock < sess.rows[v].qty {
          failures := failures + [v];
        } else {
          lines := lines + [Line(v, sess.rows[v].qty)];
        }
      }
      assert reservations[..|reservations|] == reservations;
    }
  }
}
