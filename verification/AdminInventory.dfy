/** app/services/admin_inventory_service.py and the inventory rows of
    app/services/admin_import_service.py: the two admin writers of stock. */
module AdminInventory {
  import opened Tables
  import opened Inventory
  import opened InventoryServices
  import opened Holds
  import opened AdminOrders
  import opened Database

  datatype Mode = SetTo | Increase | Decrease

  function TargetStock(mode: Mode, value: nat, current: int): int {
    match mode
    case SetTo => value
    case Increase => current + value
    case Decrease => current - value
  }

  // Manual adjustment

  datatype AdjustOutcome =
    | ReasonNotAllowed
    | VariantNotFound
    | NoInventory
    | NegativeStock
    | BelowReserved
    | NoChange
    | Adjusted(delta: int)

  /** The floor an adjustment may not cross: derived holds, or the stored counter if higher. */
  function ReservedFloor(s: Shop, v: VariantId): int
    requires v in s.book.rows
  {
    Max(s.book.rows[v].reserved, Held(s.sessions, v, s.now))
  }

  function StockSet(b: Book, v: VariantId, target: int): Book
    requires v in b.rows
  {
    Book(b.rows[v := b.rows[v].(stock := target)], b.ledger + [Movement(v, target - b.rows[v].stock, None)])
  }

  function StockAdjusted(s: Shop, v: VariantId, mode: Mode, value: nat, reasonOk: bool): (r: (AdjustOutcome, Shop))
    ensures r.1 == s.(book := r.1.book, products := r.1.products)
  {
    if !reasonOk then (ReasonNotAllowed, s)
    else if v !in s.items then (VariantNotFound, s)
    else if v !in s.book.rows then (NoInventory, s)
    else
      var target := TargetStock(mode, value, s.book.rows[v].stock);
      if target < 0 then (NegativeStock, s)
      else if target < ReservedFloor(s, v) then (BelowReserved, s)
      else if target == s.book.rows[v].stock then (NoChange, s)
      else
        var b := StockSet(s.book, v, target);
        (Adjusted(target - s.book.rows[v].stock),
         s.(book := b, products := Recomputed(b.rows, s.items, s.products, s.items[v].product)))
  }

  class AdminInventoryService {
    const db: Db
    const inventory: InventoryService

    constructor (db: Db)
      ensures this.db == db && inventory.db == db
    {
      this.db := db;
      inventory := new InventoryService(db);
    }

    method Adjust(v: VariantId, mode: Mode, value: nat, reasonOk: bool) returns (r: AdjustOutcome)
      requires inventory.db == db
      modifies db`rows, db`ledger, db`products
      ensures (r, db.Contents()) == StockAdjusted(old(db.Contents()), v, mode, value, reasonOk)
    {
      if !reasonOk {
        return ReasonNotAllowed;
      }
      if v !in db.items {
        return VariantNotFound;
      }
      if v !in db.rows {
        return NoInventory;
      }
      var inv := db.rows[v];
      var target := TargetStock(mode, value, inv.stock);
      var derivedReserved := Held(db.sessions, v, db.now);
      var floor := Max(inv.reserved, derivedReserved);
      if target < 0 {
        return NegativeStock;
      }
      if target < floor {
        return BelowReserved;
      }
      var delta := target - inv.stock;
      if delta == 0 {
        return NoChange;
      }
      db.rows := db.rows[v := inv.(stock := target)];
      db.ledger := db.ledger + [Movement(v, delta, None)];
      inventory.RecomputeProductAvailability(db.items[v].product);
      return Adjusted(delta);
    }
  }

  // CSV rows

  type Sku = string

  datatype CsvRow = CsvRow(number: nat, sku: Sku, mode: Mode, value: nat)

  /** What the importer tests; it looks at the stored counter only, not at the derived holds. */
  predicate RowAccepted(b: Book, skus: map<Sku, VariantId>, row: CsvRow) {
    row.sku in skus && skus[row.sku] in b.rows &&
    var r := b.rows[skus[row.sku]];
    var target := TargetStock(row.mode, row.value, r.stock);
    0 <= target && r.reserved <= target
  }

  predicate RowChanges(b: Book, skus: map<Sku, VariantId>, row: CsvRow) {
    RowAccepted(b, skus, row) &&
    var r := b.rows[skus[row.sku]];
    TargetStock(row.mode, row.value, r.stock) != r.stock
  }

  function RowApplied(b: Book, skus: map<Sku, VariantId>, row: CsvRow): Book {
    if RowChanges(b, skus, row) then
      var v := skus[row.sku];
      StockSet(b, v, TargetStock(row.mode, row.value, b.rows[v].stock))
    else b
  }

  function ChunkApplied(b: Book, skus: map<Sku, VariantId>, rows: seq<CsvRow>): Book {
    if rows == [] then b
    else RowApplied(ChunkApplied(b, skus, rows[..|rows| - 1]), skus, rows[|rows| - 1])
  }

  /** Numbers of the rejected rows, in order. */
  function Rejected(b: Book, skus: map<Sku, VariantId>, rows: seq<CsvRow>): seq<nat> {
    if rows == [] then []
    else
      var n := |rows| - 1;
      Rejected(b, skus, rows[..n]) +
      if RowAccepted(ChunkApplied(b, skus, rows[..n]), skus, rows[n]) then [] else [rows[n].number]
  }

  /** Variants whose stock some row changed. */
  function Touched(b: Book, skus: map<Sku, VariantId>, rows: seq<CsvRow>): set<VariantId> {
    if rows == [] then {}
    else
      var n := |rows| - 1;
      Touched(b, skus, rows[..n]) +
      if RowChanges(ChunkApplied(b, skus, rows[..n]), skus, rows[n]) then {skus[rows[n].sku]} else {}
  }

  function ProductsOf(items: map<VariantId, Item>, vs: set<VariantId>): set<ProductId> {
    set v <- vs | v in items :: items[v].product
  }

  function CsvImported(s: Shop, skus: map<Sku, VariantId>, rows: seq<CsvRow>): Shop {
    var b := ChunkApplied(s.book, skus, rows);
    s.(book := b, products := RecomputedAll(b.rows, s.items, s.products,
                                            ProductsOf(s.items, Touched(s.book, skus, rows))))
  }

  method ApplyInventory(db: Db, orders: AdminOrderService, skus: map<Sku, VariantId>, rows: seq<CsvRow>)
    returns (applied: nat, errors: seq<nat>)
    requires orders.Wired() && orders.db == db
    modifies db`rows, db`ledger, db`products
    ensures db.Contents() == CsvImported(old(db.Contents()), skus, rows)
    ensures errors == Rejected(old(db.Stocks()), skus, rows)
    ensures applied + |errors| == |rows|
  {
    applied, errors := 0, [];
    var touched: set<VariantId> := {};
    ghost var b := db.Stocks();
    for k := 0 to |rows|
      invariant db.Stocks() == ChunkApplied(b, skus, rows[..k])
      invariant errors == Rejected(b, skus, rows[..k])
      invariant touched == Touched(b, skus, rows[..k])
      invariant applied + |errors| == k
      modifies db`rows, db`ledger
    {
      var row := rows[k];
      assert rows[..k + 1][..k] == rows[..k];
      if row.sku !in skus || skus[row.sku] !in db.rows {
        errors := errors + [row.number];
        continue;
      }
      var v := skus[row.sku];
      var inv := db.rows[v];
      var target := TargetStock(row.mode, row.value, inv.stock);
      if target < 0 {
        errors := errors + [row.number];
        continue;
      }
      if target < inv.reserved {
        errors := errors + [row.number];
        continue;
      }
      var delta := target - inv.stock;
      if delta == 0 {
        applied := applied + 1;
        continue;
      }
      db.rows := db.rows[v := inv.(stock := target)];
      db.ledger := db.ledger + [Movement(v, delta, None)];
      touched := touched + {v};
      applied := applied + 1;
    }
    assert rows[..|rows|] == rows;
    orders.RecomputeAll(ProductsOf(db.items, touched));
  }

  /** Both writers record exactly the change they make and keep the CHECK constraints. */
  lemma StockSetBalances(b: Book, v: VariantId, target: int, w: VariantId, o: OrderId)
    requires v in b.rows && w in b.rows
    ensures var b' := StockSet(b, v, target);
            && b'.rows[w].stock - NetMoved(b'.ledger, w) == b.rows[w].stock - NetMoved(b.ledger, w)
            && Out(b'.ledger, o, w) == Out(b.ledger, o, w)
            && In(b'.ledger, o, w) == In(b.ledger, o, w)
  {
    Appended(b.ledger, Movement(v, target - b.rows[v].stock, None), o, w);
  }

  lemma {:induction false} ChunkBalances(b: Book, skus: map<Sku, VariantId>, rows: seq<CsvRow>, w: VariantId,
                                         o: OrderId)
    requires AllChecked(b.rows)
    ensures var b' := ChunkApplied(b, skus, rows);
            && AllChecked(b'.rows) && b'.rows.Keys == b.rows.Keys
            && (w in b.rows ==> b'.rows[w].stock - NetMoved(b'.ledger, w) == b.rows[w].stock - NetMoved(b.ledger, w))
            && Out(b'.ledger, o, w) == Out(b.ledger, o, w)
            && In(b'.ledger, o, w) == In(b.ledger, o, w)
  {
    if rows != [] {
      var n := |rows| - 1;
      ChunkBalances(b, skus, rows[..n], w, o);
      var b1 := ChunkApplied(b, skus, rows[..n]);
      if RowChanges(b1, skus, rows[n]) {
        var v := skus[rows[n].sku];
        var before := b1.rows[v].stock;
        Appended(b1.ledger, Movement(v, TargetStock(rows[n].mode, rows[n].value, before) - before, None), o, w);
      }
    }
  }
}
