/** app/services/checkout_service.py: the order-at-checkout path, which reserves on the stored
    counter (online) or takes stock at once (COD). */
module LegacyCheckout {
  import opened Tables
  import opened Inventory
  import opened InventoryServices
  import opened Database

  datatype PlaceOutcome =
    | NoItems
    | VariantNotAvailable(variant: VariantId)
    | ProductNotPublished(variant: VariantId)
    | InsufficientStock
    | GatewayFailure
    | OrderPlaced(order: OrderId)

  function SoftAvailable(rows: map<VariantId, Stock>, v: VariantId): int {
    if v in rows then Max(rows[v].stock - rows[v].reserved, 0) else 0
  }

  function LineProblem(s: Shop, line: Line): Option<PlaceOutcome> {
    if line.variant !in s.items || !s.items[line.variant].active then Some(VariantNotAvailable(line.variant))
    else if !Buyable(s.items, s.products, line.variant) then Some(ProductNotPublished(line.variant))
    else if line.qty > SoftAvailable(s.book.rows, line.variant) then Some(InsufficientStock)
    else None
  }

  function FirstProblem(s: Shop, lines: seq<Line>): (r: Option<PlaceOutcome>)
    ensures r.Some? ==> !r.value.OrderPlaced?
  {
    if lines == [] then None
    else
      match FirstProblem(s, lines[..|lines| - 1])
      case Some(problem) => Some(problem)
      case None => LineProblem(s, lines[|lines| - 1])
  }

  function OrderPlacedBy(s: Shop, lines: seq<Line>, cod: bool, gatewayOk: bool): (r: (PlaceOutcome, Shop))
    ensures r.1 == s.(book := r.1.book, orders := r.1.orders, payments := r.1.payments)
  {
    if lines == [] then (NoItems, s)
    else match FirstProblem(s, lines)
      case Some(problem) => (problem, s)
      case None =>
        var o := |s.orders|;
        match Post(if cod then Op.Decrement else Op.Reserve, s.book, lines, o)
        case None => (InsufficientStock, s)
        case Some(b) =>
          if !cod && !gatewayOk then (GatewayFailure, s)
          else
            var order := Order(None, cod, lines, Placed, if cod then CodPending else Pending);
            (OrderPlaced(o),
             s.(book := b, orders := s.orders + [order],
                payments := if cod then s.payments else s.payments + [Payment(o, Created, None, false)]))
  }

  class CheckoutService {
    const db: Db
    const inventory: InventoryService

    constructor (db: Db)
      ensures this.db == db && inventory.db == db
    {
      this.db := db;
      inventory := new InventoryService(db);
    }

    /** All or nothing: whatever goes wrong, the savepoint leaves every table as it was. */
    method PlaceOrder(lines: seq<Line>, cod: bool, gatewayOk: bool) returns (r: PlaceOutcome)
      requires inventory.db == db
      modifies db`rows, db`ledger, db`orders, db`payments
      ensures (r, db.Contents()) == OrderPlacedBy(old(db.Contents()), lines, cod, gatewayOk)
    {
      if lines == [] {
        return NoItems;
      }
      var problem := BuildOrder(lines);
      if problem.Some? {
        return problem.value;
      }
      var rows, ledger, orders := db.rows, db.ledger, db.orders;
      var o := |db.orders|;
      db.orders := db.orders + [Order(None, cod, lines, Placed, if cod then CodPending else Pending)];
      var ok;
      if cod {
        ok := inventory.Decrement(lines, o);
      } else {
        ok := inventory.Reserve(lines, o);
      }
      if !ok {
        db.rows, db.ledger, db.orders := rows, ledger, orders;
        return InsufficientStock;
      }
      if !cod {
        if !gatewayOk {
          db.rows, db.ledger, db.orders := rows, ledger, orders;
          return GatewayFailure;
        }
        db.payments := db.payments + [Payment(o, Created, None, false)];
      }
      return OrderPlaced(o);
    }

    method BuildOrder(lines: seq<Line>) returns (problem: Option<PlaceOutcome>)
      ensures problem == FirstProblem(db.Contents(), lines)
    {
      for k := 0 to |lines|
        invariant FirstProblem(db.Contents(), lines[..k]) == None
      {
        var line := lines[k];
        assert lines[..k + 1][..k] == lines[..k];
        ProblemStays(db.Contents(), lines, k + 1);
        if line.variant !in db.items || !db.items[line.variant].active {
          return Some(VariantNotAvailable(line.variant));
        }
        if !Buyable(db.items, db.products, line.variant) {
          return Some(ProductNotPublished(line.variant));
        }
        if line.qty > SoftAvailable(db.rows, line.variant) {
          return Some(InsufficientStock);
        }
      }
      assert lines[..|lines|] == lines;
      return None;
    }
  }

  lemma {:induction false} ProblemStays(s: Shop, lines: seq<Line>, k: nat)
    requires k <= |lines|
    ensures FirstProblem(s, lines[..k]).Some? ==> FirstProblem(s, lines) == FirstProblem(s, lines[..k])
  {
    if k < |lines| {
      assert lines[..|lines| - 1][..k] == lines[..k];
      ProblemStays(s, lines[..|lines| - 1], k);
    } else {
      assert lines[..k] == lines;
    }
  }

  /** A COD order goes through exactly when every line is buyable and, for each variant, the sum of
      its lines fits in stock minus reserved. */
  lemma CodPlacedIff(s: Shop, lines: seq<Line>)
    requires AllChecked(s.book.rows)
    ensures OrderPlacedBy(s, lines, true, true).0.OrderPlaced? <==>
              lines != [] &&
              (forall i | 0 <= i < |lines| :: Buyable(s.items, s.products, lines[i].variant)) &&
              Present(s.book, lines) &&
              forall v <- s.book.rows :: Total(lines, v) <= s.book.rows[v].stock - s.book.rows[v].reserved
  {
    PostsIff(Op.Decrement, s.book, lines, |s.orders|);
    NoProblemIff(s, lines);
    if Post(Op.Decrement, s.book, lines, |s.orders|).Some? {
      forall i | 0 <= i < |lines|
        ensures LineProblem(s, lines[i]) == None <==> Buyable(s.items, s.products, lines[i].variant)
      {
        LineWithinTotal(lines, i);
        var v := lines[i].variant;
        assert v in s.book.rows && Total(lines, v) <= s.book.rows[v].stock - s.book.rows[v].reserved;
      }
    }
  }

  lemma {:induction false} NoProblemIff(s: Shop, lines: seq<Line>)
    ensures FirstProblem(s, lines) == None <==> forall i | 0 <= i < |lines| :: LineProblem(s, lines[i]) == None
  {
    if lines != [] {
      NoProblemIff(s, lines[..|lines| - 1]);
    }
  }

  lemma {:induction false} LineWithinTotal(lines: seq<Line>, i: nat)
    requires i < |lines|
    ensures lines[i].qty <= Total(lines, lines[i].variant)
  {
    if i < |lines| - 1 {
      LineWithinTotal(lines[..|lines| - 1], i);
    }
  }
}
