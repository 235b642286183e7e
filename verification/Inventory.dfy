/** app/services/inventory_service.py: the single owner of stock mutations, as functions on the
    stock rows and the movement ledger.  One list of requirements is applied line by line, as the
    service's loops do, and flushed under the table's CHECK constraints. */
module Inventory {
  import opened Tables

  datatype Op = Reserve | Release | Consume | CommitSale | Decrement | Restock

  /** What one line does to one locked row; None is the out-of-stock error. */
  function ApplyRow(op: Op, r: Stock, q: Qty): Option<Stock> {
    match op
    case Reserve => if q > r.stock - r.reserved then None else Some(r.(reserved := r.reserved + q))
    case Release => Some(r.(reserved := Max(0, r.reserved - q)))
    case Consume =>
      var consumed := Min(q, r.reserved);
      Some(r.(reserved := r.reserved - consumed, stock := r.stock - consumed - (q - consumed)))
    case CommitSale =>
      if r.stock < q then None
      else Some(Stock(r.stock - q, Min(r.reserved, r.stock - q), r.sold + q))
    case Decrement => if q > r.stock - r.reserved then None else Some(r.(stock := r.stock - q))
    case Restock => Some(r.(stock := r.stock + q))
  }

  function Sign(op: Op): int {
    match op
    case Reserve | Release => 0
    case Consume | CommitSale | Decrement => -1
    case Restock => 1
  }

  /** Releasing and restocking skip a variant that has no inventory row. */
  predicate SkipsMissing(op: Op) {
    op == Release || op == Restock
  }

  function ApplyLine(op: Op, b: Book, line: Line, oid: OrderId): Option<Book> {
    if line.variant !in b.rows then
      if SkipsMissing(op) then Some(b) else None
    else
      match ApplyRow(op, b.rows[line.variant], line.qty)
      case None => None
      case Some(r) =>
        Some(Book(b.rows[line.variant := r],
                  b.ledger + [Movement(line.variant, Sign(op) * line.qty, Some(oid))]))
  }

  function ApplyLines(op: Op, b: Book, lines: seq<Line>, oid: OrderId): Option<Book> {
    if lines == [] then Some(b)
    else
      var n := |lines| - 1;
      match ApplyLines(op, b, lines[..n], oid)
      case None => None
      case Some(b') => ApplyLine(op, b', lines[n], oid)
  }

  /** All the lines and then the flush, which the CHECK constraints may refuse. */
  function Post(op: Op, b: Book, lines: seq<Line>, oid: OrderId): Option<Book> {
    match ApplyLines(op, b, lines, oid)
    case None => None
    case Some(b') => if AllChecked(b'.rows) then Some(b') else None
  }

  // Closed forms

  /** What a list of lines asks of one variant, repeated lines added up. */
  function Total(lines: seq<Line>, v: VariantId): nat {
    if lines == [] then 0
    else
      var n := |lines| - 1;
      Total(lines[..n], v) + if lines[n].variant == v then lines[n].qty else 0
  }

  function Bulk(op: Op, r: Stock, n: nat): Stock {
    match op
    case Reserve => r.(reserved := r.reserved + n)
    case Release => r.(reserved := Max(0, r.reserved - n))
    case Consume => r.(reserved := Max(0, r.reserved - n), stock := r.stock - n)
    case CommitSale => Stock(r.stock - n, Min(r.reserved, r.stock - n), r.sold + n)
    case Decrement => r.(stock := r.stock - n)
    case Restock => r.(stock := r.stock + n)
  }

  predicate Fits(op: Op, r: Stock, n: nat) {
    match op
    case Reserve | Decrement => n <= r.stock - r.reserved
    case Consume | CommitSale => n <= r.stock
    case Release | Restock => true
  }

  predicate Present(b: Book, lines: seq<Line>) {
    forall i | 0 <= i < |lines| :: lines[i].variant in b.rows
  }

  lemma {:induction false} TotalOfAbsent(lines: seq<Line>, v: VariantId)
    requires forall i | 0 <= i < |lines| :: lines[i].variant != v
    ensures Total(lines, v) == 0
  {
    if lines != [] {
      TotalOfAbsent(lines[..|lines| - 1], v);
    }
  }

  /** The row-by-row loop leaves each row as if the variant's total had been applied at once. */
  lemma {:induction false} BulkForm(op: Op, b: Book, lines: seq<Line>, oid: OrderId)
    requires AllChecked(b.rows)
    requires ApplyLines(op, b, lines, oid).Some?
    ensures var b' := ApplyLines(op, b, lines, oid).value;
            b'.rows.Keys == b.rows.Keys && forall v <- b.rows :: b'.rows[v] == Bulk(op, b.rows[v], Total(lines, v))
  {
    if lines != [] {
      BulkForm(op, b, lines[..|lines| - 1], oid);
    }
  }

  /** After n units of a row, q more go through exactly when n + q fit. */
  lemma NextFits(op: Op, r: Stock, n: nat, q: Qty)
    requires r.Checked() && (op == Consume || Fits(op, r, n))
    ensures ApplyRow(op, Bulk(op, r, n), q).Some? <==> op == Consume || Fits(op, r, n + q)
  {
  }

  /** What fits in the longer list fits in the shorter one; only the last line's variant asks for more. */
  lemma LastLineFits(op: Op, rows: map<VariantId, Stock>, lines: seq<Line>)
    requires lines != []
    ensures (forall v <- rows :: Fits(op, rows[v], Total(lines, v))) <==>
              var n := |lines| - 1; var w := lines[n].variant;
              && (forall v <- rows :: Fits(op, rows[v], Total(lines[..n], v)))
              && (w in rows ==> Fits(op, rows[w], Total(lines[..n], w) + lines[n].qty))
  {
    var n := |lines| - 1;
    forall v <- rows
      ensures Total(lines, v) == Total(lines[..n], v) + if v == lines[n].variant then lines[n].qty else 0
    {
    }
  }

  /** The loop gets through its lines exactly when, variant by variant, the total fits; consuming
      has no test of its own and leaves it to the flush. */
  lemma {:induction false} LoopSucceedsIff(op: Op, b: Book, lines: seq<Line>, oid: OrderId)
    requires AllChecked(b.rows)
    ensures ApplyLines(op, b, lines, oid).Some? <==>
              (SkipsMissing(op) || Present(b, lines)) &&
              (op == Consume || forall v <- b.rows :: Fits(op, b.rows[v], Total(lines, v)))
  {
    if lines == [] {
    } else {
      var n := |lines| - 1;
      LoopSucceedsIff(op, b, lines[..n], oid);
      LastLineFits(op, b.rows, lines);
      if ApplyLines(op, b, lines[..n], oid).Some? {
        BulkForm(op, b, lines[..n], oid);
        if lines[n].variant in b.rows {
          NextFits(op, b.rows[lines[n].variant], Total(lines[..n], lines[n].variant), lines[n].qty);
        }
      }
    }
  }

  /** Reserve and decrement (and the sales) are all or nothing, and go through exactly when every
      variant has a row and the sum over its possibly repeated lines fits what was there when the
      rows were locked.  Only consuming needs the CHECK constraint, and only below the request. */
  lemma PostsIff(op: Op, b: Book, lines: seq<Line>, oid: OrderId)
    requires AllChecked(b.rows)
    ensures Post(op, b, lines, oid).Some? <==>
              (SkipsMissing(op) || Present(b, lines)) &&
              forall v <- b.rows :: Fits(op, b.rows[v], Total(lines, v))
    ensures Post(op, b, lines, oid).None? && ApplyLines(op, b, lines, oid).Some? ==>
              op == Consume && exists v <- b.rows :: b.rows[v].stock < Total(lines, v)
  {
    LoopSucceedsIff(op, b, lines, oid);
    if ApplyLines(op, b, lines, oid).Some? {
      BulkForm(op, b, lines, oid);
    }
  }

  /** 0 <= reserved <= stock after every completed operation, clamps included. */
  lemma PostKeepsChecks(op: Op, b: Book, lines: seq<Line>, oid: OrderId)
    requires AllChecked(b.rows)
    requires Post(op, b, lines, oid).Some?
    ensures var b' := Post(op, b, lines, oid).value;
            AllChecked(b'.rows) && b'.rows.Keys == b.rows.Keys &&
            forall v <- b.rows :: b'.rows[v] == Bulk(op, b.rows[v], Total(lines, v))
  {
    BulkForm(op, b, lines, oid);
  }

  // The ledger

  /** Net change of a variant's stock recorded in the ledger. */
  function NetMoved(ledger: seq<Movement>, v: VariantId): int {
    if ledger == [] then 0
    else
      var n := |ledger| - 1;
      NetMoved(ledger[..n], v) + if ledger[n].variant == v then ledger[n].delta else 0
  }

  /** Units of v that left stock for order o. */
  function Out(ledger: seq<Movement>, o: OrderId, v: VariantId): nat {
    if ledger == [] then 0
    else
      var n := |ledger| - 1;
      var m := ledger[n];
      Out(ledger[..n], o, v) + if m.variant == v && m.order == Some(o) then Max(0, -m.delta) else 0
  }

  /** Units of v that came back to stock for order o. */
  function In(ledger: seq<Movement>, o: OrderId, v: VariantId): nat {
    if ledger == [] then 0
    else
      var n := |ledger| - 1;
      var m := ledger[n];
      In(ledger[..n], o, v) + if m.variant == v && m.order == Some(o) then Max(0, m.delta) else 0
  }

  lemma Appended(ledger: seq<Movement>, m: Movement, o: OrderId, v: VariantId)
    ensures NetMoved(ledger + [m], v) == NetMoved(ledger, v) + if m.variant == v then m.delta else 0
    ensures Out(ledger + [m], o, v) ==
            Out(ledger, o, v) + if m.variant == v && m.order == Some(o) then Max(0, -m.delta) else 0
    ensures In(ledger + [m], o, v) ==
            In(ledger, o, v) + if m.variant == v && m.order == Some(o) then Max(0, m.delta) else 0
  {
    assert (ledger + [m])[..|ledger|] == ledger;
  }

  /** Each operation records, variant by variant and under its own order, exactly what it moved. */
  lemma {:induction false} LoopRecords(op: Op, b: Book, lines: seq<Line>, oid: OrderId, o: OrderId, v: VariantId)
    requires ApplyLines(op, b, lines, oid).Some?
    ensures var l := ApplyLines(op, b, lines, oid).value.ledger;
            var n := if v in b.rows then Total(lines, v) else 0;
            && NetMoved(l, v) == NetMoved(b.ledger, v) + Sign(op) * n
            && Out(l, o, v) == Out(b.ledger, o, v) + (if o == oid && Sign(op) == -1 then n else 0)
            && In(l, o, v) == In(b.ledger, o, v) + (if o == oid && Sign(op) == 1 then n else 0)
    ensures ApplyLines(op, b, lines, oid).value.rows.Keys == b.rows.Keys
  {
    if lines != [] {
      var n := |lines| - 1;
      LoopRecords(op, b, lines[..n], oid, o, v);
      var b' := ApplyLines(op, b, lines[..n], oid).value;
      Appended(b'.ledger, Movement(lines[n].variant, Sign(op) * lines[n].qty, Some(oid)), o, v);
    }
  }

  /** A variant's stock and its recorded movements never drift apart, short reservations included:
      stock minus the sum of the deltas is what it was. */
  lemma PostBalances(op: Op, b: Book, lines: seq<Line>, oid: OrderId, v: VariantId)
    requires AllChecked(b.rows) && v in b.rows
    requires Post(op, b, lines, oid).Some?
    ensures var b' := Post(op, b, lines, oid).value;
            v in b'.rows && b'.rows[v].stock - NetMoved(b'.ledger, v) == b.rows[v].stock - NetMoved(b.ledger, v)
  {
    BulkForm(op, b, lines, oid);
    LoopRecords(op, b, lines, oid, oid, v);
  }
}
