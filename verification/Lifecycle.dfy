/** app/services/reservation_lifecycle.py: terminal transitions and the two expiry sweeps. */
module Lifecycle {
  import opened Tables
  import opened Inventory
  import opened InventoryServices
  import opened Database

  function Closed(sess: Session, status: SessionStatus): Session {
    sess.(status := status, rows := map v <- sess.rows :: sess.rows[v].(status := status))
  }

  /** The session of an order and all its rows, whatever their status, move together. */
  function Transitioned(ss: seq<Session>, session: Option<SessionId>, status: SessionStatus): seq<Session> {
    match session
    case None => ss
    case Some(i) => if i < |ss| then ss[i := Closed(ss[i], status)] else ss
  }

  function SaleCompleted(s: Shop, o: OrderId): Option<Shop>
    requires o < |s.orders|
  {
    match Post(Op.CommitSale, s.book, s.orders[o].lines, o)
    case None => None
    case Some(b) => Some(s.(book := b, sessions := Transitioned(s.sessions, s.orders[o].session, Completed)))
  }

  function HoldCancelled(s: Shop, o: OrderId): Shop
    requires o < |s.orders|
  {
    s.(sessions := Transitioned(s.sessions, s.orders[o].session, Cancelled))
  }

  function Lapse(rows: map<VariantId, Hold>, now: int, from: SessionStatus, to: SessionStatus): map<VariantId, Hold> {
    map v <- rows :: if rows[v].status == from && rows[v].expires < now then rows[v].(status := to) else rows[v]
  }

  predicate Overdue(sess: Session, now: int, status: SessionStatus) {
    sess.status == status && sess.expires < now
  }

  function Lapsed(sess: Session, now: int, from: SessionStatus, to: SessionStatus): Session {
    sess.(rows := Lapse(sess.rows, now, from, to), status := if Overdue(sess, now, from) then to else sess.status)
  }

  function LapseAll(ss: seq<Session>, now: int, from: SessionStatus, to: SessionStatus): seq<Session> {
    seq(|ss|, i requires 0 <= i < |ss| => Lapsed(ss[i], now, from, to))
  }

  function BackstoppedOrder(order: Order, ss: seq<Session>, now: int): Order {
    if order.session.Some? && order.session.value < |ss| && Overdue(ss[order.session.value], now, Processing)
       && order.paid == Pending
    then order.(paid := Failed) else order
  }

  function Backstopped(orders: seq<Order>, ss: seq<Session>, now: int): seq<Order> {
    seq(|orders|, o requires 0 <= o < |orders| => BackstoppedOrder(orders[o], ss, now))
  }

  /** One tick of the sweeper: both sweeps, in one transaction. */
  function Sweep(s: Shop): Shop {
    var ss := LapseAll(s.sessions, s.now, Active, Expired);
    s.(sessions := LapseAll(ss, s.now, Processing, Cancelled),
       orders := Backstopped(s.orders, ss, s.now))
  }

  class ReservationLifecycleService {
    const db: Db
    const inventory: InventoryService

    constructor (db: Db)
      ensures this.db == db && this.inventory.db == db
    {
      this.db := db;
      inventory := new InventoryService(db);
    }

    method CompleteSale(o: OrderId) returns (ok: bool)
      requires inventory.db == db && o < |db.orders|
      modifies db`rows, db`ledger, db`sessions
      ensures ok ==> SaleCompleted(old(db.Contents()), o) == Some(db.Contents())
      ensures !ok ==> SaleCompleted(old(db.Contents()), o) == None
      ensures !ok ==> db.sessions == old(db.sessions)
    {
      ok := inventory.CommitSale(db.orders[o].lines, o);
      if ok {
        TransitionSession(db.orders[o].session, Completed);
      }
    }

    method CancelForOrder(o: OrderId)
      requires o < |db.orders|
      modifies db`sessions
      ensures db.Contents() == HoldCancelled(old(db.Contents()), o)
    {
      TransitionSession(db.orders[o].session, Cancelled);
    }

    method TransitionSession(session: Option<SessionId>, status: SessionStatus)
      modifies db`sessions
      ensures db.sessions == Transitioned(old(db.sessions), session, status)
    {
      if session.Some? && session.value < |db.sessions| {
        var i, sess := session.value, db.sessions[session.value];
        db.sessions := db.sessions[i := sess.(rows := map v <- sess.rows :: sess.rows[v].(status := status))];
        db.sessions := db.sessions[i := db.sessions[i].(status := status)];
        assert db.sessions == old(db.sessions)[i := Closed(sess, status)];
      }
    }

    method RunSweepOnce()
      modifies db`sessions, db`orders
      ensures db.Contents() == Sweep(old(db.Contents()))
    {
      SweepExpiredReservations();
      SweepPaymentProcessingBackstop();
    }

    method SweepExpiredReservations()
      modifies db`sessions
      ensures db.sessions == LapseAll(old(db.sessions), db.now, Active, Expired)
    {
      var ss, now := db.sessions, db.now;
      ss := seq(|ss|, i requires 0 <= i < |ss| => ss[i].(rows := Lapse(ss[i].rows, now, Active, Expired)));
      ss := seq(|ss|, i requires 0 <= i < |ss| =>
                if Overdue(ss[i], now, Active) then ss[i].(status := Expired) else ss[i]);
      assert ss == LapseAll(old(db.sessions), now, Active, Expired);
      db.sessions := ss;
    }

    method SweepPaymentProcessingBackstop()
      modifies db`sessions, db`orders
      ensures db.sessions == LapseAll(old(db.sessions), db.now, Processing, Cancelled)
      ensures db.orders == Backstopped(old(db.orders), old(db.sessions), db.now)
    {
      var ss, now, orders := db.sessions, db.now, db.orders;
      db.orders := Backstopped(orders, ss, now);
      ss := seq(|ss|, i requires 0 <= i < |ss| => ss[i].(rows := Lapse(ss[i].rows, now, Processing, Cancelled)));
      ss := seq(|ss|, i requires 0 <= i < |ss| =>
                  if Overdue(ss[i], now, Processing) then ss[i].(status := Cancelled) else ss[i]);
      assert ss == LapseAll(old(db.sessions), now, Processing, Cancelled);
      db.sessions := ss;
    }
  }
}
