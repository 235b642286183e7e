/** app/services/inventory_service.py, the methods.  Each takes the locked rows through its loop in
    place; a caller's savepoint undoes what a failed call left behind. */
module InventoryServices {
  import opened Tables
  import opened Inventory
  import opened Database

  class InventoryService {
    const db: Db

    constructor (db: Db)
      ensures this.db == db
    {
      this.db := db;
    }

    method Reserve(requirements: seq<Line>, oid: OrderId) returns (ok: bool)
      modifies db`rows, db`ledger
      ensures ok ==> Post(Op.Reserve, old(db.Stocks()), requirements, oid) == Some(db.Stocks())
      ensures !ok ==> Post(Op.Reserve, old(db.Stocks()), requirements, oid) == None
    {
      for i := 0 to |requirements|
        invariant ApplyLines(Op.Reserve, old(db.Stocks()), requirements[..i], oid) == Some(db.Stocks())
      {
        var req := requirements[i];
        PrefixStep(Op.Reserve, old(db.Stocks()), requirements, oid, i);
        if req.variant !in db.rows {
          return false;
        }
        var inv := db.rows[req.variant];
        if req.qty > inv.stock - inv.reserved {
          return false;
        }
        db.rows := db.rows[req.variant := inv.(reserved := inv.reserved + req.qty)];
        db.ledger := db.ledger + [Movement(req.variant, 0, Some(oid))];
      }
      assert requirements[..|requirements|] == requirements;
      ok := AllChecked(db.rows);
    }

    method ReleaseReservation(requirements: seq<Line>, oid: OrderId) returns (ok: bool)
      modifies db`rows, db`ledger
      ensures ok ==> Post(Release, old(db.Stocks()), requirements, oid) == Some(db.Stocks())
      ensures !ok ==> Post(Release, old(db.Stocks()), requirements, oid) == None
    {
      for i := 0 to |requirements|
        invariant ApplyLines(Release, old(db.Stocks()), requirements[..i], oid) == Some(db.Stocks())
      {
        var req := requirements[i];
        PrefixStep(Release, old(db.Stocks()), requirements, oid, i);
        if req.variant !in db.rows {
          continue;
        }
        var inv := db.rows[req.variant];
        db.rows := db.rows[req.variant := inv.(reserved := Max(0, inv.reserved - req.qty))];
        db.ledger := db.ledger + [Movement(req.variant, 0, Some(oid))];
      }
      assert requirements[..|requirements|] == requirements;
      ok := AllChecked(db.rows);
    }

    /** Two ways to fail: a variant without a row is an out-of-stock error, and at the flush the CHECK
        constraints may refuse what the loop did. */
    method ConsumeReservation(requirements: seq<Line>, oid: OrderId) returns (ok: bool, refused: bool)
      modifies db`rows, db`ledger
      ensures ok ==> Post(Consume, old(db.Stocks()), requirements, oid) == Some(db.Stocks())
      ensures !ok ==> Post(Consume, old(db.Stocks()), requirements, oid) == None
      ensures refused <==> !ok && ApplyLines(Consume, old(db.Stocks()), requirements, oid).Some?
    {
      for i := 0 to |requirements|
        invariant ApplyLines(Consume, old(db.Stocks()), requirements[..i], oid) == Some(db.Stocks())
      {
        var req := requirements[i];
        PrefixStep(Consume, old(db.Stocks()), requirements, oid, i);
        if req.variant !in db.rows {
          PrefixFails(Consume, old(db.Stocks()), requirements, oid, i + 1);
          return false, false;
        }
        var inv := db.rows[req.variant];
        var consumed := Min(req.qty, inv.reserved);
        inv := inv.(reserved := inv.reserved - consumed, stock := inv.stock - consumed);
        var short := req.qty - consumed;
        if short > 0 {
          inv := inv.(stock := inv.stock - short);
        }
        db.rows := db.rows[req.variant := inv];
        db.ledger := db.ledger + [Movement(req.variant, 0 - req.qty, Some(oid))];
      }
      assert requirements[..|requirements|] == requirements;
      ok := AllChecked(db.rows);
      refused := !ok;
    }

    method CommitSale(requirements: seq<Line>, oid: OrderId) returns (ok: bool)
      modifies db`rows, db`ledger
      ensures ok ==> Post(Op.CommitSale, old(db.Stocks()), requirements, oid) == Some(db.Stocks())
      ensures !ok ==> Post(Op.CommitSale, old(db.Stocks()), requirements, oid) == None
    {
      for i := 0 to |requirements|
        invariant ApplyLines(Op.CommitSale, old(db.Stocks()), requirements[..i], oid) == Some(db.Stocks())
      {
        var req := requirements[i];
        PrefixStep(Op.CommitSale, old(db.Stocks()), requirements, oid, i);
        if req.variant !in db.rows {
          return false;
        }
        var inv := db.rows[req.variant];
        if inv.stock < req.qty {
          return false;
        }
        inv := inv.(stock := inv.stock - req.qty, sold := inv.sold + req.qty);
        if inv.reserved > inv.stock {
          inv := inv.(reserved := inv.stock);
        }
        db.rows := db.rows[req.variant := inv];
        db.ledger := db.ledger + [Movement(req.variant, 0 - req.qty, Some(oid))];
      }
      assert requirements[..|requirements|] == requirements;
      ok := AllChecked(db.rows);
    }

    method Decrement(requirements: seq<Line>, oid: OrderId) returns (ok: bool)
      modifies db`rows, db`ledger
      ensures ok ==> Post(Op.Decrement, old(db.Stocks()), requirements, oid) == Some(db.Stocks())
      ensures !ok ==> Post(Op.Decrement, old(db.Stocks()), requirements, oid) == None
    {
      for i := 0 to |requirements|
        invariant ApplyLines(Op.Decrement, old(db.Stocks()), requirements[..i], oid) == Some(db.Stocks())
      {
        var req := requirements[i];
        PrefixStep(Op.Decrement, old(db.Stocks()), requirements, oid, i);
        if req.variant !in db.rows {
          return false;
        }
        var inv := db.rows[req.variant];
        if req.qty > inv.stock - inv.reserved {
          return false;
        }
        db.rows := db.rows[req.variant := inv.(stock := inv.stock - req.qty)];
        db.ledger := db.ledger + [Movement(req.variant, 0 - req.qty, Some(oid))];
      }
      assert requirements[..|requirements|] == requirements;
      ok := AllChecked(db.rows);
    }

    method Restock(requirements: seq<Line>, oid: OrderId) returns (ok: bool)
      modifies db`rows, db`ledger
      ensures ok ==> Post(Op.Restock, old(db.Stocks()), requirements, oid) == Some(db.Stocks())
      ensures !ok ==> Post(Op.Restock, old(db.Stocks()), requirements, oid) == None
    {
      for i := 0 to |requirements|
        invariant ApplyLines(Op.Restock, old(db.Stocks()), requirements[..i], oid) == Some(db.Stocks())
      {
        var req := requirements[i];
        PrefixStep(Op.Restock, old(db.Stocks()), requirements, oid, i);
        if req.variant !in db.rows {
          continue;
        }
        var inv := db.rows[req.variant];
        db.rows := db.rows[req.variant := inv.(stock := inv.stock + req.qty)];
        db.ledger := db.ledger + [Movement(req.variant, req.qty, Some(oid))];
      }
      assert requirements[..|requirements|] == requirements;
      ok := AllChecked(db.rows);
    }

    /** Flips a product between Published and Unavailable by the total stock of its active variants,
        which the CHECK constraints keep at zero exactly when no active variant has any. */
    method RecomputeProductAvailability(product: ProductId)
      modifies db`products
      ensures db.products == Recomputed(db.rows, db.items, old(db.products), product)
    {
      if product !in db.products || db.products[product] !in {Published, Unavailable} {
        return;
      }
      var inStock := InStock(db.rows, db.items, product);
      if db.products[product] == Published && !inStock {
        db.products := db.products[product := Unavailable];
      } else if db.products[product] == Unavailable && inStock {
        db.products := db.products[product := Published];
      }
    }
  }

  predicate InStock(rows: map<VariantId, Stock>, items: map<VariantId, Item>, product: ProductId) {
    exists v <- rows :: v in items && items[v].product == product && items[v].active && rows[v].stock > 0
  }

  function Recomputed(rows: map<VariantId, Stock>, items: map<VariantId, Item>,
                      products: map<ProductId, ProductStatus>, product: ProductId): map<ProductId, ProductStatus>
  {
    if product !in products || products[product] !in {Published, Unavailable} then products
    else products[product := if InStock(rows, items, product) then Published else Unavailable]
  }

  /** Units on hand of an active variant keep its product from being hidden. */
  lemma StockKeepsBuyable(rows: map<VariantId, Stock>, items: map<VariantId, Item>,
                          products: map<ProductId, ProductStatus>, product: ProductId, v: VariantId)
    requires Buyable(items, products, v) && v in rows && rows[v].stock > 0
    ensures Buyable(items, Recomputed(rows, items, products, product), v)
  {
  }

  lemma PrefixStep(op: Op, b: Book, lines: seq<Line>, oid: OrderId, i: nat)
    requires i < |lines|
    requires ApplyLines(op, b, lines[..i], oid).Some?
    ensures ApplyLines(op, b, lines[..i + 1], oid) ==
            ApplyLine(op, ApplyLines(op, b, lines[..i], oid).value, lines[i], oid)
    ensures ApplyLines(op, b, lines[..i + 1], oid).None? ==> ApplyLines(op, b, lines, oid).None?
  {
    assert lines[..i + 1][..i] == lines[..i];
    if ApplyLines(op, b, lines[..i + 1], oid).None? {
      PrefixFails(op, b, lines, oid, i + 1);
    }
  }

  lemma {:induction false} PrefixFails(op: Op, b: Book, lines: seq<Line>, oid: OrderId, i: nat)
    requires i <= |lines|
    requires ApplyLines(op, b, lines[..i], oid).None?
    ensures ApplyLines(op, b, lines, oid).None?
  {
    if i < |lines| {
      assert lines[..|lines| - 1][..i] == lines[..i];
      PrefixFails(op, b, lines[..|lines| - 1], oid, i);
    } else {
      assert lines[..i] == lines;
    }
  }
}
