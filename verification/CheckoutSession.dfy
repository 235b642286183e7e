/** app/services/checkout_session_service.py: the atomic, cart-level hold. */
module CheckoutSessions {
  import opened Tables
  import opened Holds
  import opened Database

  datatype Reason = NoReason | NotBuyable | OutOfStock

  datatype LineResult = LineResult(variant: VariantId, requested: Qty, available: nat, reserved: bool, reason: Reason)

  datatype CheckoutOutcome =
    | CartEmpty
    | PaymentUnderway(session: SessionId)
    | Reserved(session: SessionId, lines: seq<LineResult>)
    | Conflict(lines: seq<LineResult>)

  /** UNIQUE (cart_id, variant_id). */
  predicate Distinct(cart: seq<Line>) {
    forall i, j | 0 <= i < j < |cart| :: cart[i].variant != cart[j].variant
  }

  // What the operations mean

  function LineResultFor(s: Shop, line: Line, own: SessionId): LineResult {
    var available := Max(StockOf(s.book.rows, line.variant) - HeldByOthers(s.sessions, line.variant, s.now, own), 0);
    var buyable := Buyable(s.items, s.products, line.variant);
    var ok := buyable && line.qty <= available;
    LineResult(line.variant, line.qty, available, ok,
               if ok then NoReason else if !buyable then NotBuyable else OutOfStock)
  }

  function LineResults(s: Shop, cart: seq<Line>, own: SessionId): seq<LineResult> {
    seq(|cart|, i requires 0 <= i < |cart| => LineResultFor(s, cart[i], own))
  }

  predicate AllReserved(results: seq<LineResult>) {
    forall i | 0 <= i < |results| :: results[i].reserved
  }

  /** One active row per cart line. */
  function RowsFor(cart: seq<Line>, expires: int): map<VariantId, Hold> {
    map v | v in (set i | 0 <= i < |cart| :: cart[i].variant) :: Hold(QtyOf(cart, v), Active, expires)
  }

  /** The quantity of the line for v; 1 where there is none. */
  function QtyOf(cart: seq<Line>, v: VariantId): Qty {
    if cart == [] then 1
    else if cart[|cart| - 1].variant == v then cart[|cart| - 1].qty
    else QtyOf(cart[..|cart| - 1], v)
  }

  /** Where the user's hold goes: the live session, or a fresh one. */
  function Target(s: Shop, user: UserId): SessionId {
    match LiveSession(s.sessions, user)
    case Some(i) => i
    case None => |s.sessions|
  }

  function WithSession(ss: seq<Session>, i: SessionId, sess: Session): seq<Session> {
    if i < |ss| then ss[i := sess] else ss + [sess]
  }

  function StartCheckout(s: Shop, user: UserId, cart: seq<Line>): (r: (CheckoutOutcome, Shop))
    ensures r.1 == s.(sessions := r.1.sessions)
  {
    if cart == [] then (CartEmpty, s)
    else
      var i := Target(s, user);
      if i < |s.sessions| && s.sessions[i].status == Processing then (PaymentUnderway(i), s)
      else
        var results := LineResults(s, cart, i);
        if !AllReserved(results) then (Conflict(results), s)
        else
          var expires := s.now + RESERVATION_TTL;
          (Reserved(i, results),
           s.(sessions := WithSession(s.sessions, i, Session(user, Active, expires, RowsFor(cart, expires)))))
  }

  datatype CancelOutcome = NoSuchSession | AlreadyTerminal | CheckoutCancelled

  function CancelRows(rows: map<VariantId, Hold>): map<VariantId, Hold> {
    map v <- rows :: if Live(rows[v].status) then rows[v].(status := Cancelled) else rows[v]
  }

  /** The first order of the session that is still unpaid. */
  function PendingOrder(orders: seq<Order>, i: SessionId): (r: Option<OrderId>)
    ensures r.Some? ==> r.value < |orders| && orders[r.value].session == Some(i) && orders[r.value].paid == Pending
    ensures r.None? ==> forall o | 0 <= o < |orders| :: orders[o].session == Some(i) ==> orders[o].paid != Pending
  {
    if orders == [] then None
    else
      var n := |orders| - 1;
      match PendingOrder(orders[..n], i)
      case Some(o) => Some(o)
      case None => if orders[n].session == Some(i) && orders[n].paid == Pending then Some(n) else None
  }

  function CancelCheckout(s: Shop, i: SessionId, user: UserId): (r: (CancelOutcome, Shop))
    ensures r.1 == s.(sessions := r.1.sessions, orders := r.1.orders)
  {
    if i >= |s.sessions| || s.sessions[i].user != user then (NoSuchSession, s)
    else if !Live(s.sessions[i].status) then (AlreadyTerminal, s)
    else
      var sess := s.sessions[i].(status := Cancelled, rows := CancelRows(s.sessions[i].rows));
      var orders := match PendingOrder(s.orders, i)
        case None => s.orders
        case Some(o) => s.orders[o := s.orders[o].(status := OrderCancelled, paid := Failed)];
      (CheckoutCancelled, s.(sessions := s.sessions[i := sess], orders := orders))
  }

  // The service

  class CheckoutSessionService {
    const db: Db

    constructor (db: Db)
      ensures this.db == db
    {
      this.db := db;
    }

    method Start(user: UserId, cart: seq<Line>) returns (r: CheckoutOutcome)
      requires Distinct(cart)
      modifies db`sessions
      ensures (r, db.Contents()) == StartCheckout(old(db.Contents()), user, cart)
    {
      if cart == [] {
        return CartEmpty;
      }
      ghost var s := db.Contents();
      var expires := db.now + RESERVATION_TTL;
      var savepoint := db.sessions;
      var i := AcquireSession(user, expires);
      if db.sessions[i].status == Processing {
        return PaymentUnderway(i);
      }
      var results, allOk := CheckLines(i, cart);
      ResultsIgnoreFresh(s, db.Contents(), cart, i);
      if !allOk {
        db.sessions := savepoint;
        return Conflict(results);
      }
      HoldLines(i, cart, expires);
      assert db.sessions == WithSession(savepoint, i, Session(user, Active, expires, RowsFor(cart, expires)));
      return Reserved(i, results);
    }

    method CheckLines(i: SessionId, cart: seq<Line>) returns (results: seq<LineResult>, allOk: bool)
      ensures results == LineResults(db.Contents(), cart, i)
      ensures allOk == AllReserved(results)
    {
      results, allOk := [], true;
      for k := 0 to |cart|
        invariant |results| == k
        invariant forall j | 0 <= j < k :: results[j] == LineResultFor(db.Contents(), cart[j], i)
        invariant allOk == AllReserved(results)
      {
        var line := cart[k];
        var stock := if line.variant in db.rows then db.rows[line.variant].stock else 0;
        var reserved := HeldByOthers(db.sessions, line.variant, db.now, i);
        var available := Max(stock - reserved, 0);
        var buyable := Buyable(db.items, db.products, line.variant);
        var ok := buyable && available >= line.qty;
        if !ok {
          allOk := false;
        }
        var reason := if ok then NoReason else if !buyable then NotBuyable else OutOfStock;
        results := results + [LineResult(line.variant, line.qty, available, ok, reason)];
      }
    }

    method HoldLines(i: SessionId, cart: seq<Line>, expires: int)
      requires i < |db.sessions|
      modifies db`sessions
      ensures |db.sessions| == |old(db.sessions)|
      ensures var user := old(db.sessions)[i].user;
              db.sessions == old(db.sessions)[i := Session(user, Active, expires, RowsFor(cart, expires))]
    {
      db.sessions := db.sessions[i := db.sessions[i].(status := Active, expires := expires)];
      UpsertReservations(i, cart, expires);
      PruneStale(i, cart);
      assert db.sessions[i].rows == RowsFor(cart, expires);
    }

    method AcquireSession(user: UserId, expires: int) returns (i: SessionId)
      modifies db`sessions
      ensures i == Target(old(db.Contents()), user) && i < |db.sessions|
      ensures i < |old(db.sessions)| ==> db.sessions == old(db.sessions)
      ensures i >= |old(db.sessions)| ==> db.sessions == old(db.sessions) + [Session(user, Active, expires, map[])]
    {
      var existing := LiveSession(db.sessions, user);
      if existing.Some? {
        return existing.value;
      }
      i := |db.sessions|;
      db.sessions := db.sessions + [Session(user, Active, expires, map[])];
    }

    method UpsertReservations(i: SessionId, cart: seq<Line>, expires: int)
      requires i < |db.sessions|
      modifies db`sessions
      ensures |db.sessions| == |old(db.sessions)|
      ensures var was := old(db.sessions)[i];
              db.sessions == old(db.sessions)[i := was.(rows := was.rows + RowsFor(cart, expires))]
    {
      assert db.sessions[i].rows + RowsFor(cart[..0], expires) == db.sessions[i].rows;
      for k := 0 to |cart|
        invariant |db.sessions| == |old(db.sessions)|
        invariant var was := old(db.sessions)[i];
                  db.sessions == old(db.sessions)[i := was.(rows := was.rows + RowsFor(cart[..k], expires))]
      {
        var row := Hold(cart[k].qty, Active, expires);
        RowsForNext(cart, k, expires);
        ghost var was, sofar := old(db.sessions)[i], RowsFor(cart[..k], expires);
        assert (was.rows + sofar)[cart[k].variant := row] == was.rows + sofar[cart[k].variant := row];
        db.sessions := db.sessions[i := db.sessions[i].(rows := db.sessions[i].rows[cart[k].variant := row])];
      }
      assert cart[..|cart|] == cart;
    }

    method PruneStale(i: SessionId, cart: seq<Line>)
      requires i < |db.sessions|
      modifies db`sessions
      ensures |db.sessions| == |old(db.sessions)|
      ensures var rows := old(db.sessions)[i].rows;
              var kept := map v | v in rows && exists k | 0 <= k < |cart| :: cart[k].variant == v :: rows[v];
              db.sessions == old(db.sessions)[i := old(db.sessions)[i].(rows := kept)]
    {
      var rows := db.sessions[i].rows;
      var kept := map v | v in rows && exists k | 0 <= k < |cart| :: cart[k].variant == v :: rows[v];
      db.sessions := db.sessions[i := db.sessions[i].(rows := kept)];
    }

    method Cancel(i: SessionId, user: UserId) returns (r: CancelOutcome)
      modifies db`sessions, db`orders
      ensures (r, db.Contents()) == CancelCheckout(old(db.Contents()), i, user)
    {
      if i >= |db.sessions| || db.sessions[i].user != user {
        return NoSuchSession;
      }
      if db.sessions[i].status != Active && db.sessions[i].status != Processing {
        return AlreadyTerminal;
      }
      var sess := db.sessions[i];
      db.sessions := db.sessions[i := sess.(rows := CancelRows(sess.rows))];
      db.sessions := db.sessions[i := db.sessions[i].(status := Cancelled)];
      assert db.sessions == old(db.sessions)[i := sess.(status := Cancelled, rows := CancelRows(sess.rows))];
      var order := PendingOrder(db.orders, i);
      if order.Some? {
        db.orders := db.orders[order.value := db.orders[order.value].(status := OrderCancelled, paid := Failed)];
      }
      return CheckoutCancelled;
    }
  }

  lemma RowsForNext(cart: seq<Line>, k: nat, expires: int)
    requires k < |cart|
    ensures RowsFor(cart[..k + 1], expires)
            == RowsFor(cart[..k], expires)[cart[k].variant := Hold(cart[k].qty, Active, expires)]
  {
    assert cart[..k + 1][..k] == cart[..k] && cart[..k + 1][k] == cart[k];
  }

  /** A freshly inserted session of one's own does not count against oneself. */
  lemma ResultsIgnoreFresh(s: Shop, t: Shop, cart: seq<Line>, i: SessionId)
    requires t == s.(sessions := t.sessions)
    requires t.sessions == s.sessions || (i == |s.sessions| && |t.sessions| == i + 1 && t.sessions[..i] == s.sessions)
    ensures LineResults(t, cart, i) == LineResults(s, cart, i)
  {
    forall v: VariantId
      ensures HeldByOthers(t.sessions, v, s.now, i) == HeldByOthers(s.sessions, v, s.now, i)
    {
    }
  }
}
