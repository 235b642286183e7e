/** The writers that do not consult the derived holds: late captures, CSV rows, COD orders and the
    catalog sync.  Exactly when each of them keeps active holds within stock: when it happens to pass the
    test that it does not make. */
module Bypasses {
  import opened Tables
  import opened Inventory
  import opened Holds
  import opened Lifecycle
  import opened Payments
  import opened AdminInventory
  import CatalogSync
  import opened LegacyCheckout
  import opened Protocol
  import opened Linkage
  import opened NoOversell

  /** The check a checkout makes: each variant's total is within stock minus active holds. */
  ghost predicate WithinUnheld(s: Shop, lines: seq<Line>) {
    forall v: VariantId :: Total(lines, v) <= StockOf(s.book.rows, v) - Held(s.sessions, v, s.now)
  }

  /** A late capture, whose hold no longer stands, is fulfilled from physical stock; holds still fit
      afterwards if and only if its lines were within the unheld stock. */
  lemma LateCaptureFitsIff(s: Shop, p: PaymentId, event: Option<EventId>)
    requires Linked(s) && HoldsFit(s) && p < |s.payments|
    requires CaptureHandled(s, p, event).0 == CapturedPaid && !HoldStands(s, s.payments[p].order)
    ensures HoldsFit(CaptureHandled(s, p, event).1) <==> WithinUnheld(s, s.orders[s.payments[p].order].lines)
  {
    var o := s.payments[p].order;
    var t := CaptureHandled(s, p, event).1;
    var lines := s.orders[o].lines;
    assert OrderOk(s.orders[o], s.sessions);
    var i := s.orders[o].session.value;
    assert SessionOk(s.sessions[i]);
    forall v: VariantId
      ensures Held(t.sessions, v, t.now) == Held(s.sessions, v, s.now)
      ensures StockOf(t.book.rows, v) == StockOf(s.book.rows, v) - Total(lines, v)
    {
      HeldReplaced(s.sessions, v, s.now, i, Closed(s.sessions[i], Completed));
      SaleTakes(s.book, lines, o, v);
    }
    if HoldsFit(t) {
      forall v: VariantId
        ensures Total(lines, v) <= StockOf(s.book.rows, v) - Held(s.sessions, v, s.now)
      {
        assert Held(t.sessions, v, t.now) <= StockOf(t.book.rows, v);
      }
    } else {
      var v: VariantId :| Held(t.sessions, v, t.now) > StockOf(t.book.rows, v);
      assert !(Total(lines, v) <= StockOf(s.book.rows, v) - Held(s.sessions, v, s.now));
    }
  }

  /** A CSV row that changes stock keeps holds within it if and only if its target is not below the
      variant's active holds, which the admin's own adjustment tests and the importer does not. */
  lemma CsvRowFitsIff(s: Shop, skus: map<Sku, VariantId>, row: CsvRow)
    requires HoldsFit(s) && RowChanges(s.book, skus, row)
    ensures var v := skus[row.sku];
            HoldsFit(s.(book := RowApplied(s.book, skus, row))) <==>
            Held(s.sessions, v, s.now) <= TargetStock(row.mode, row.value, s.book.rows[v].stock)
  {
    var v := skus[row.sku];
    var t := s.(book := RowApplied(s.book, skus, row));
    assert StockOf(t.book.rows, v) == TargetStock(row.mode, row.value, s.book.rows[v].stock);
    if HoldsFit(t) {
      assert Held(t.sessions, v, t.now) <= StockOf(t.book.rows, v);
    } else {
      var w: VariantId :| Held(t.sessions, w, t.now) > StockOf(t.book.rows, w);
      assert w != v ==> StockOf(t.book.rows, w) == StockOf(s.book.rows, w);
    }
  }

  /** A COD order placed at checkout keeps holds within stock if and only if its lines were within the
      unheld stock; it tests the stored counter instead. */
  lemma CodOrderFitsIff(s: Shop, lines: seq<Line>, gatewayOk: bool)
    requires AllChecked(s.book.rows) && HoldsFit(s)
    requires OrderPlacedBy(s, lines, true, gatewayOk).0.OrderPlaced?
    ensures HoldsFit(OrderPlacedBy(s, lines, true, gatewayOk).1) <==> WithinUnheld(s, lines)
  {
    var t := OrderPlacedBy(s, lines, true, gatewayOk).1;
    PostKeepsChecks(Op.Decrement, s.book, lines, |s.orders|);
    PostsIff(Op.Decrement, s.book, lines, |s.orders|);
    forall v: VariantId
      ensures StockOf(t.book.rows, v) == StockOf(s.book.rows, v) - Total(lines, v)
    {
      if v !in s.book.rows {
        TotalOfAbsent(lines, v);
      }
    }
    if HoldsFit(t) {
      forall v: VariantId
        ensures Total(lines, v) <= StockOf(s.book.rows, v) - Held(s.sessions, v, s.now)
      {
        assert Held(t.sessions, v, t.now) <= StockOf(t.book.rows, v);
      }
    } else {
      var v: VariantId :| Held(t.sessions, v, t.now) > StockOf(t.book.rows, v);
      assert !(Total(lines, v) <= StockOf(s.book.rows, v) - Held(s.sessions, v, s.now));
    }
  }

  /** The catalog sync overwrites a stock, with no movement; the database refuses less than is reserved. */
  function StockOverwritten(s: Shop, v: VariantId, target: nat): Option<Shop>
    requires v in s.book.rows
  {
    if target < s.book.rows[v].reserved then None
    else Some(s.(book := Book(s.book.rows[v := s.book.rows[v].(stock := target)], s.book.ledger)))
  }

  /** It is the sync's own step, row by row. */
  lemma OverwriteIsReconcile(s: Shop, v: VariantId, c: CatalogSync.Catalog, d: CatalogSync.VariantData)
    requires v in s.book.rows && d.sku in c.inventory
    requires c.inventory[d.sku].stock == s.book.rows[v].stock && c.inventory[d.sku].reserved == s.book.rows[v].reserved
    ensures var r, t := CatalogSync.Applied(c, CatalogSync.ReconcileStock(d)), StockOverwritten(s, v, d.stock);
            && (r.Some? <==> t.Some?)
            && (r.Some? ==> d.sku in r.value.0.inventory
                            && r.value.0.inventory[d.sku].stock == StockOf(t.value.book.rows, v)
                            && r.value.0.inventory[d.sku].reserved == t.value.book.rows[v].reserved)
  {
  }

  /** A synced stock keeps holds within it if and only if it is not below the variant's active holds, and
      the ledger goes on explaining it if and only if it is the stock that was there. */
  lemma SyncedStockFitsIff(s: Shop, v: VariantId, target: nat)
    requires HoldsFit(s) && v in s.book.rows && StockOverwritten(s, v, target).Some?
    ensures var t := StockOverwritten(s, v, target).value;
            && (HoldsFit(t) <==> Held(s.sessions, v, s.now) <= target)
            && (Balanced(s.book, t.book) <==> target == s.book.rows[v].stock)
  {
    var t := StockOverwritten(s, v, target).value;
    assert StockOf(t.book.rows, v) == target;
    assert Unrecorded(t.book, v) - Unrecorded(s.book, v) == target - s.book.rows[v].stock;
    if HoldsFit(t) {
      assert Held(t.sessions, v, t.now) <= StockOf(t.book.rows, v);
    } else {
      var w: VariantId :| Held(t.sessions, w, t.now) > StockOf(t.book.rows, w);
      assert w != v ==> StockOf(t.book.rows, w) == StockOf(s.book.rows, w);
    }
  }

  // Each can fail: one unit, held by someone else

  /** One unit of variant 0, held by user 1's session 1. */
  function HeldUnit(sessions: seq<Session>, orders: seq<Order>, payments: seq<Payment>): Shop {
    Shop(1000, Book(map[0 := Stock(1, 0, 0)], []), map[0 := Item(0, true)], map[0 := Published],
         sessions, orders, payments)
  }

  const HOLDER := Session(1, Active, 1100, map[0 := Hold(1, Active, 1100)])

  lemma HolderHolds(sess: Session)
    requires HeldBy(sess, 0, 1000) == 0
    requires forall v: VariantId | v != 0 :: HeldBy(sess, v, 1000) == 0
    ensures Held([sess, HOLDER], 0, 1000) == 1
    ensures forall v: VariantId | v != 0 :: Held([sess, HOLDER], v, 1000) == 0
  {
    forall v: VariantId
      ensures Held([sess, HOLDER], v, 1000) == HeldBy(sess, v, 1000) + HeldBy(HOLDER, v, 1000)
    {
      HeldAppended([], v, 1000, sess);
      HeldAppended([sess], v, 1000, HOLDER);
      assert [] + [sess] == [sess] && [sess] + [HOLDER] == [sess, HOLDER];
    }
  }

  /** A capture that arrives after the backstop gave the unit to someone else takes it from under
      their live hold. */
  lemma LateCaptureCanOversell()
    ensures exists s: Shop, p: PaymentId ::
              && Linked(s) && HoldsFit(s) && p < |s.payments|
              && CaptureHandled(s, p, None).0 == CapturedPaid
              && !HoldsFit(CaptureHandled(s, p, None).1)
  {
    var late := Session(0, Cancelled, 900, map[0 := Hold(1, Cancelled, 900)]);
    var order := Order(Some(0), false, [Line(0, 1)], Placed, Failed);
    var s := HeldUnit([late, HOLDER], [order], [Payment(0, Created, None, false)]);
    HolderHolds(late);
    assert OrderOk(order, s.sessions);
    assert Linked(s) && HoldsFit(s);
    assert [Line(0, 1)][..0] == [];
    assert CaptureHandled(s, 0, None).0 == CapturedPaid;
    LateCaptureFitsIff(s, 0, None);
    assert Total(order.lines, 0) == 1;
    assert !WithinUnheld(s, order.lines);
  }

  /** The importer accepts a row that sets stock below a live hold. */
  lemma CsvRowCanOversell()
    ensures exists s: Shop, skus: map<Sku, VariantId>, row: CsvRow ::
              Linked(s) && HoldsFit(s) && RowChanges(s.book, skus, row) &&
                !HoldsFit(s.(book := RowApplied(s.book, skus, row)))
  {
    var ended := Session(0, Cancelled, 900, map[]);
    var s := HeldUnit([ended, HOLDER], [], []);
    HolderHolds(ended);
    assert Linked(s) && HoldsFit(s);
    var skus, row := map["SKU" := 0 as VariantId], CsvRow(2, "SKU", SetTo, 0);
    CsvRowFitsIff(s, skus, row);
    assert !HoldsFit(s.(book := RowApplied(s.book, skus, row)));
  }

  /** A COD order takes a unit from under a live hold. */
  lemma CodOrderCanOversell()
    ensures exists s: Shop, lines: seq<Line> ::
              && Linked(s) && HoldsFit(s)
              && OrderPlacedBy(s, lines, true, true).0.OrderPlaced?
              && !HoldsFit(OrderPlacedBy(s, lines, true, true).1)
  {
    var ended := Session(0, Cancelled, 900, map[]);
    var s, lines := HeldUnit([ended, HOLDER], [], []), [Line(0, 1)];
    HolderHolds(ended);
    assert Linked(s) && HoldsFit(s);
    assert lines[..0] == [];
    CodPlacedIff(s, lines);
    assert Total(lines, 0) == 1;
    assert OrderPlacedBy(s, lines, true, true).0.OrderPlaced?;
    CodOrderFitsIff(s, lines, true);
    assert !WithinUnheld(s, lines);
  }

  /** The sync sets stock below a live hold. */
  lemma SyncCanOversell()
    ensures exists s: Shop, v: VariantId, target: nat ::
              && Linked(s) && HoldsFit(s) && v in s.book.rows
              && StockOverwritten(s, v, target).Some? && !HoldsFit(StockOverwritten(s, v, target).value)
  {
    var ended := Session(0, Cancelled, 900, map[]);
    var s := HeldUnit([ended, HOLDER], [], []);
    HolderHolds(ended);
    assert Linked(s) && HoldsFit(s);
    SyncedStockFitsIff(s, 0, 0);
    assert !HoldsFit(StockOverwritten(s, 0, 0).value);
  }
}
