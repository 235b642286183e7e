/** app/services/admin_order_service.py: the admin's moves on an order. */
module AdminOrders {
  import opened Tables
  import opened Inventory
  import opened InventoryServices
  import opened Lifecycle
  import opened Database

  datatype AdminOutcome =
    | OrderNotFound
    | Unchanged
    | Moved
    | InvalidTransition
    | PaymentNotCaptured
    | MetadataRequired
    | CannotCancelDelivered
    | NotCod
    | InvalidPaymentState

  /** The state machine of _assert_transition; cancelling goes through its own checks. */
  predicate Allowed(from: OrderStatus, to: OrderStatus) {
    match from
    case Placed => to == Packed || to == OrderCancelled
    case Packed => to == Shipped || to == OrderCancelled
    case Shipped => to == Delivered || to == OrderCancelled
    case Delivered => false
    case OrderCancelled => false
  }

  /** Online orders must be paid; COD orders pending or paid. */
  predicate PaymentAllowsPacking(order: Order) {
    if !order.cod then order.paid == Paid else order.paid == CodPending || order.paid == Paid
  }

  datatype Move = Pack | Ship(hasMetadata: bool) | Deliver

  function TargetOf(m: Move): OrderStatus {
    match m
    case Pack => Packed
    case Ship(_) => Shipped
    case Deliver => Delivered
  }

  function OrderMoved(s: Shop, o: OrderId, m: Move): (r: (AdminOutcome, Shop))
    ensures r.1 == s.(orders := r.1.orders)
  {
    if o >= |s.orders| then (OrderNotFound, s)
    else
      var order := s.orders[o];
      if order.status == TargetOf(m) then (Unchanged, s)
      else if !Allowed(order.status, TargetOf(m)) then (InvalidTransition, s)
      else if m == Pack && !PaymentAllowsPacking(order) then
        (if !order.cod then PaymentNotCaptured else InvalidPaymentState, s)
      else if m.Ship? && !m.hasMetadata then (MetadataRequired, s)
      else
        var paid := if m == Deliver && order.cod && order.paid == CodPending then Paid else order.paid;
        (Moved, s.(orders := s.orders[o := order.(status := TargetOf(m), paid := paid)]))
  }

  function CodMarkedPaid(s: Shop, o: OrderId): (r: (AdminOutcome, Shop))
    ensures r.1 == s.(orders := r.1.orders)
  {
    if o >= |s.orders| then (OrderNotFound, s)
    else
      var order := s.orders[o];
      if !order.cod then (NotCod, s)
      else if order.paid == Paid then (Unchanged, s)
      else if order.paid != CodPending then (InvalidPaymentState, s)
      else (Moved, s.(orders := s.orders[o := order.(paid := Paid)]))
  }

  /** Stock left at capture for online orders, at creation for COD. */
  predicate StockWasDecremented(order: Order) {
    order.paid == Paid || order.cod
  }

  function Products(items: map<VariantId, Item>, lines: seq<Line>): set<ProductId> {
    set i | 0 <= i < |lines| && lines[i].variant in items :: items[lines[i].variant].product
  }

  function RecomputedAll(rows: map<VariantId, Stock>, items: map<VariantId, Item>,
                         products: map<ProductId, ProductStatus>, ids: set<ProductId>): map<ProductId, ProductStatus>
  {
    map p <- products :: if p in ids then Recomputed(rows, items, products, p)[p] else products[p]
  }

  function OrderCancelledBy(s: Shop, o: OrderId): (r: (AdminOutcome, Shop))
    ensures r.1 == s.(book := r.1.book, sessions := r.1.sessions, orders := r.1.orders, products := r.1.products)
  {
    if o >= |s.orders| then (OrderNotFound, s)
    else
      var order := s.orders[o];
      if order.status == OrderCancelled then (Unchanged, s)
      else if order.status == Delivered then (CannotCancelDelivered, s)
      else
        var t := if StockWasDecremented(order) && order.lines != [] then
                   (match Post(Op.Restock, s.book, order.lines, o)
                    case Some(b) => s.(book := b)
                    case None => s)
                 else HoldCancelled(s, o);
        (Moved, t.(orders := s.orders[o := order.(status := OrderCancelled)],
                   products := RecomputedAll(t.book.rows, s.items, s.products, Products(s.items, order.lines))))
  }

  class AdminOrderService {
    const db: Db
    const inventory: InventoryService
    const lifecycle: ReservationLifecycleService

    predicate Wired() {
      inventory.db == db && lifecycle.db == db && lifecycle.inventory.db == db
    }

    constructor (db: Db)
      ensures this.db == db && Wired()
    {
      this.db := db;
      inventory := new InventoryService(db);
      lifecycle := new ReservationLifecycleService(db);
    }

    method MarkPacked(o: OrderId) returns (r: AdminOutcome)
      modifies db`orders
      ensures (r, db.Contents()) == OrderMoved(old(db.Contents()), o, Pack)
    {
      if o >= |db.orders| {
        return OrderNotFound;
      }
      var order := db.orders[o];
      if order.status == Packed {
        return Unchanged;
      }
      if !Allowed(order.status, Packed) {
        return InvalidTransition;
      }
      if !order.cod {
        if order.paid != Paid {
          return PaymentNotCaptured;
        }
      } else if order.paid != CodPending && order.paid != Paid {
        return InvalidPaymentState;
      }
      db.orders := db.orders[o := order.(status := Packed)];
      return Moved;
    }

    method MarkShipped(o: OrderId, hasMetadata: bool) returns (r: AdminOutcome)
      modifies db`orders
      ensures (r, db.Contents()) == OrderMoved(old(db.Contents()), o, Ship(hasMetadata))
    {
      if o >= |db.orders| {
        return OrderNotFound;
      }
      var order := db.orders[o];
      if order.status == Shipped {
        return Unchanged;
      }
      if !Allowed(order.status, Shipped) {
        return InvalidTransition;
      }
      if !hasMetadata {
        return MetadataRequired;
      }
      db.orders := db.orders[o := order.(status := Shipped)];
      return Moved;
    }

    method MarkDelivered(o: OrderId) returns (r: AdminOutcome)
      modifies db`orders
      ensures (r, db.Contents()) == OrderMoved(old(db.Contents()), o, Deliver)
    {
      if o >= |db.orders| {
        return OrderNotFound;
      }
      var order := db.orders[o];
      if order.status == Delivered {
        return Unchanged;
      }
      if !Allowed(order.status, Delivered) {
        return InvalidTransition;
      }
      order := order.(status := Delivered);
      if order.cod && order.paid == CodPending {
        order := order.(paid := Paid);
      }
      db.orders := db.orders[o := order];
      return Moved;
    }

    method MarkCodPaid(o: OrderId) returns (r: AdminOutcome)
      modifies db`orders
      ensures (r, db.Contents()) == CodMarkedPaid(old(db.Contents()), o)
    {
      if o >= |db.orders| {
        return OrderNotFound;
      }
      var order := db.orders[o];
      if !order.cod {
        return NotCod;
      }
      if order.paid == Paid {
        return Unchanged;
      }
      if order.paid != CodPending {
        return InvalidPaymentState;
      }
      db.orders := db.orders[o := order.(paid := Paid)];
      return Moved;
    }

    method CancelOrder(o: OrderId) returns (r: AdminOutcome)
      requires Wired() && AllChecked(db.rows)
      modifies db`rows, db`ledger, db`sessions, db`orders, db`products
      ensures (r, db.Contents()) == OrderCancelledBy(old(db.Contents()), o)
    {
      if o >= |db.orders| {
        return OrderNotFound;
      }
      var order := db.orders[o];
      if order.status == OrderCancelled {
        return Unchanged;
      }
      if order.status == Delivered {
        return CannotCancelDelivered;
      }
      if StockWasDecremented(order) && order.lines != [] {
        PostsIff(Op.Restock, db.Stocks(), order.lines, o);
        var restocked := inventory.Restock(order.lines, o);
      } else if order.session.Some? {
        lifecycle.CancelForOrder(o);
      }
      db.orders := db.orders[o := order.(status := OrderCancelled)];
      RecomputeAll(Products(db.items, order.lines));
      return Moved;
    }

    method RecomputeAll(ids: set<ProductId>)
      requires Wired()
      modifies db`products
      ensures db.products == RecomputedAll(db.rows, db.items, old(db.products), ids)
    {
      var left := ids;
      while left != {}
        invariant left <= ids
        invariant db.products == RecomputedAll(db.rows, db.items, old(db.products), ids - left)
        decreases |left|
      {
        var id :| id in left;
        inventory.RecomputeProductAvailability(id);
        left := left - {id};
      }
    }
  }
}
