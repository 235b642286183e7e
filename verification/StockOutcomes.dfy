/** What each stock operation leaves, in the columns of its rows: the inventory service, the admin's
    adjustment, the CSV rows and the placement of orders. */
module StockOutcomes {
  import opened Tables
  import opened Inventory
  import opened InventoryServices
  import opened Holds
  import opened AdminOrders
  import opened AdminInventory
  import opened LegacyCheckout

  // The inventory service

  /** One row after an operation whose lines ask for n units of it. */
  lemma RowAfter(op: Op, b: Book, lines: seq<Line>, o: OrderId, v: VariantId)
    requires AllChecked(b.rows) && Post(op, b, lines, o).Some? && v in b.rows
    ensures v in Post(op, b, lines, o).value.rows
    ensures var r, q, n := b.rows[v], Post(op, b, lines, o).value.rows[v], Total(lines, v);
            match op
            case Reserve => q.stock == r.stock && q.reserved == r.reserved + n && q.sold == r.sold
            case Release =>
              q.stock == r.stock && q.reserved == (if n <= r.reserved then r.reserved - n else 0) && q.sold == r.sold
            case Consume =>
              && q.stock == r.stock - n && q.reserved == (if n <= r.reserved then r.reserved - n else 0)
              && q.sold == r.sold
            case CommitSale =>
              && q.stock == r.stock - n && q.sold == r.sold + n
              && q.reserved == (if r.reserved <= r.stock - n then r.reserved else r.stock - n)
            case Decrement => q.stock == r.stock - n && q.reserved == r.reserved && q.sold == r.sold
            case Restock => q.stock == r.stock + n && q.reserved == r.reserved && q.sold == r.sold
  {
    PostKeepsChecks(op, b, lines, o);
  }

  /** And when there is one: reserving and placing look at stock minus reserved, selling and consuming at
      stock, and only releasing and restocking skip a variant without a row. */
  lemma GoesThroughIff(op: Op, b: Book, lines: seq<Line>, o: OrderId)
    requires AllChecked(b.rows)
    ensures Post(op, b, lines, o).Some? <==>
            (op == Release || op == Restock) ||
            ((forall k | 0 <= k < |lines| :: lines[k].variant in b.rows) &&
             forall v <- b.rows ::
               Total(lines, v) <=
               if op == Reserve || op == Decrement then b.rows[v].stock - b.rows[v].reserved else b.rows[v].stock)
  {
    PostsIff(op, b, lines, o);
  }

  lemma TotalOfOne(v: VariantId, q: Qty, w: VariantId)
    ensures Total([Line(v, q)], w) == if w == v then q else 0
  {
    assert [Line(v, q)][..0] == [];
  }

  /** A quantity adds its units to its variant and to no other. */
  lemma TotalOfMore(lines: seq<Line>, v: VariantId, q: Qty, w: VariantId)
    ensures Total(lines + [Line(v, q)], w) == Total(lines, w) + if w == v then q else 0
  {
    assert (lines + [Line(v, q)])[..|lines|] == lines;
  }

  // Availability

  predicate Stocked(rows: map<VariantId, Stock>, items: map<VariantId, Item>, p: ProductId) {
    exists v <- rows :: v in items && items[v].product == p && items[v].active && rows[v].stock > 0
  }

  /** before and after a recomputation of exactly the products of ps: of these, the published and the
      unavailable ones are published iff some active variant has units, and unavailable otherwise. */
  ghost predicate Flipped(rows: map<VariantId, Stock>, items: map<VariantId, Item>,
                          before: map<ProductId, ProductStatus>, after: map<ProductId, ProductStatus>,
                          ps: set<ProductId>)
  {
    && after.Keys == before.Keys
    && (forall p <- before | p !in ps :: after[p] == before[p])
    && (forall p <- before | before[p] == Draft || before[p] == Archived :: after[p] == before[p])
    && (forall p <- before | p in ps && (before[p] == Published || before[p] == Unavailable) ::
          after[p] == if Stocked(rows, items, p) then Published else Unavailable)
  }

  lemma RecomputedIs(rows: map<VariantId, Stock>, items: map<VariantId, Item>,
                     products: map<ProductId, ProductStatus>, p: ProductId)
    ensures Flipped(rows, items, products, Recomputed(rows, items, products, p), {p})
  {
  }

  lemma AllRecomputed(rows: map<VariantId, Stock>, items: map<VariantId, Item>,
                      products: map<ProductId, ProductStatus>, ps: set<ProductId>)
    ensures Flipped(rows, items, products, RecomputedAll(rows, items, products, ps), ps)
  {
    forall p <- products | p in ps
      ensures Flipped(rows, items, products, Recomputed(rows, items, products, p), {p})
    {
      RecomputedIs(rows, items, products, p);
    }
  }

  /** The products of an order: those of its lines' variants. */
  lemma CancelledOrderFlips(s: Shop, o: OrderId)
    requires OrderCancelledBy(s, o).0 == AdminOutcome.Moved
    ensures o < |s.orders|
    ensures var t, lines := OrderCancelledBy(s, o).1, s.orders[o].lines;
            Flipped(t.book.rows, s.items, s.products, t.products,
                    set k | 0 <= k < |lines| && lines[k].variant in s.items :: s.items[lines[k].variant].product)
  {
    var t := OrderCancelledBy(s, o).1;
    AllRecomputed(t.book.rows, s.items, s.products, Products(s.items, s.orders[o].lines));
  }

  // The admin's adjustment

  function Wanted(mode: Mode, value: nat, current: int): int {
    if mode == SetTo then value else if mode == Increase then current + value else current - value
  }

  /** An adjustment answers with the first applicable refusal, or stores exactly what was asked for. */
  lemma AdjustAnswers(s: Shop, v: VariantId, mode: Mode, value: nat, reasonOk: bool)
    ensures var r := StockAdjusted(s, v, mode, value, reasonOk).0;
            && (r == ReasonNotAllowed <==> !reasonOk)
            && (r == AdjustOutcome.VariantNotFound <==> reasonOk && v !in s.items)
            && (r == NoInventory <==> reasonOk && v in s.items && v !in s.book.rows)
    ensures reasonOk && v in s.items && v in s.book.rows ==>
              var row, r := s.book.rows[v], StockAdjusted(s, v, mode, value, reasonOk).0;
              var target := Wanted(mode, value, row.stock);
              && (r == NegativeStock <==> target < 0)
              && (r == BelowReserved <==>
                  0 <= target && (target < row.reserved || target < Held(s.sessions, v, s.now)))
              && (r == NoChange <==>
                  0 <= target == row.stock && row.reserved <= target && Held(s.sessions, v, s.now) <= target)
    ensures !StockAdjusted(s, v, mode, value, reasonOk).0.Adjusted? ==>
              StockAdjusted(s, v, mode, value, reasonOk).1 == s
  {
  }

  /** An adjusted row has its new stock, its delta in the ledger, and nothing else changed but the product. */
  lemma AdjustStores(s: Shop, v: VariantId, mode: Mode, value: nat)
    requires StockAdjusted(s, v, mode, value, true).0.Adjusted?
    ensures v in s.items && v in s.book.rows
    ensures var (r, t) := StockAdjusted(s, v, mode, value, true);
            && t.book.rows.Keys == s.book.rows.Keys
            && t.book.rows[v].stock == s.book.rows[v].stock + r.delta
            && t.book.rows[v].reserved == s.book.rows[v].reserved && t.book.rows[v].sold == s.book.rows[v].sold
            && (forall w <- s.book.rows | w != v :: t.book.rows[w] == s.book.rows[w])
            && t.book.ledger == s.book.ledger + [Movement(v, r.delta, None)]
            && Flipped(t.book.rows, s.items, s.products, t.products, {s.items[v].product})
    ensures StockAdjusted(s, v, mode, value, true).0.delta ==
            (if mode == SetTo then value - s.book.rows[v].stock else if mode == Increase then value else 0 - value)
  {
    var t := StockAdjusted(s, v, mode, value, true).1;
    RecomputedIs(t.book.rows, s.items, s.products, s.items[v].product);
  }

  // CSV rows

  /** A row is accepted iff its SKU is known, its variant has a row and the target is neither negative nor
      below the stored counter; an accepted row stores its target, a rejected one nothing. */
  lemma CsvRowStores(b: Book, skus: map<Sku, VariantId>, row: CsvRow)
    ensures RowAccepted(b, skus, row) <==>
            row.sku in skus && skus[row.sku] in b.rows &&
            var r := b.rows[skus[row.sku]];
            var target := Wanted(row.mode, row.value, r.stock);
            0 <= target && r.reserved <= target
    ensures !RowAccepted(b, skus, row) ==> RowApplied(b, skus, row) == b
    ensures RowAccepted(b, skus, row) ==>
              var v, t := skus[row.sku], RowApplied(b, skus, row);
              var target := Wanted(row.mode, row.value, b.rows[v].stock);
              && t.rows == b.rows[v := Stock(target, b.rows[v].reserved, b.rows[v].sold)]
              && t.ledger == b.ledger +
                             if target == b.rows[v].stock then [] else [Movement(v, target - b.rows[v].stock, None)]
  {
    if RowAccepted(b, skus, row) {
      var v := skus[row.sku];
      assert b.rows[v := b.rows[v]] == b.rows;
    }
  }

  /** A chunk of one more row. */
  lemma ChunkOfMore(b: Book, skus: map<Sku, VariantId>, rows: seq<CsvRow>, row: CsvRow)
    ensures ChunkApplied(b, skus, rows + [row]) == RowApplied(ChunkApplied(b, skus, rows), skus, row)
    ensures Rejected(b, skus, rows + [row]) ==
            Rejected(b, skus, rows) +
            if RowAccepted(ChunkApplied(b, skus, rows), skus, row) then [] else [row.number]
  {
    assert (rows + [row])[..|rows|] == rows;
  }

  lemma {:induction false} UntouchedIsSame(b: Book, skus: map<Sku, VariantId>, rows: seq<CsvRow>, v: VariantId)
    requires v in b.rows && v !in Touched(b, skus, rows)
    ensures v in ChunkApplied(b, skus, rows).rows && ChunkApplied(b, skus, rows).rows[v] == b.rows[v]
  {
    if rows != [] {
      UntouchedIsSame(b, skus, rows[..|rows| - 1], v);
    }
  }

  /** After an import, every product of a variant whose stock has changed shows the new availability. */
  lemma ImportFlips(s: Shop, skus: map<Sku, VariantId>, rows: seq<CsvRow>, v: VariantId)
    requires v in s.book.rows && v in s.items
    ensures v in CsvImported(s, skus, rows).book.rows
    ensures var t := CsvImported(s, skus, rows);
            exists ps: set<ProductId> ::
              && Flipped(t.book.rows, s.items, s.products, t.products, ps)
              && (t.book.rows[v].stock != s.book.rows[v].stock ==> s.items[v].product in ps)
  {
    var t, ps := CsvImported(s, skus, rows), ProductsOf(s.items, Touched(s.book, skus, rows));
    AllRecomputed(t.book.rows, s.items, s.products, ps);
    ChunkKeepsRows(s.book, skus, rows);
    if v !in Touched(s.book, skus, rows) {
      UntouchedIsSame(s.book, skus, rows, v);
    }
  }

  lemma {:induction false} ChunkKeepsRows(b: Book, skus: map<Sku, VariantId>, rows: seq<CsvRow>)
    ensures ChunkApplied(b, skus, rows).rows.Keys == b.rows.Keys
  {
    if rows != [] {
      ChunkKeepsRows(b, skus, rows[..|rows| - 1]);
    }
  }

  // Placement

  /** Active, published and available beyond what is reserved. */
  predicate LineIsSound(s: Shop, line: Line) {
    && line.variant in s.items && s.items[line.variant].active
    && s.items[line.variant].product in s.products && s.products[s.items[line.variant].product] == Published
    && line.variant in s.book.rows
    && line.qty <= s.book.rows[line.variant].stock - s.book.rows[line.variant].reserved
  }

  lemma LineProblemIs(s: Shop, line: Line)
    ensures LineProblem(s, line) == if LineIsSound(s, line) then None else Some(Told(s, line))
  {
  }

  lemma {:induction false} NoFirstProblemIff(s: Shop, lines: seq<Line>)
    ensures FirstProblem(s, lines) == None <==> forall k | 0 <= k < |lines| :: LineIsSound(s, lines[k])
  {
    if lines != [] {
      NoFirstProblemIff(s, lines[..|lines| - 1]);
      LineProblemIs(s, lines[|lines| - 1]);
    }
  }

  /** Which line stops a placement, and what it is told. */
  lemma {:induction false} FirstProblemIs(s: Shop, lines: seq<Line>) returns (k: nat)
    requires FirstProblem(s, lines).Some?
    ensures k < |lines| && (forall j | 0 <= j < k :: LineIsSound(s, lines[j])) && !LineIsSound(s, lines[k])
    ensures FirstProblem(s, lines).value == Told(s, lines[k])
  {
    var n := |lines| - 1;
    if FirstProblem(s, lines[..n]).Some? {
      k := FirstProblemIs(s, lines[..n]);
    } else {
      NoFirstProblemIff(s, lines[..n]);
      LineProblemIs(s, lines[n]);
      k := n;
    }
  }

  function Told(s: Shop, line: Line): PlaceOutcome {
    if line.variant !in s.items || !s.items[line.variant].active then VariantNotAvailable(line.variant)
    else if s.items[line.variant].product !in s.products || s.products[s.items[line.variant].product] != Published
    then ProductNotPublished(line.variant)
    else InsufficientStock
  }

  /** An order is placed iff it has lines, each sound by itself, that fit together, and the gateway answers if
      it is asked; then it is the next order, pending, with a payment unless it is COD. */
  lemma PlacementAnswers(s: Shop, lines: seq<Line>, cod: bool, gatewayOk: bool)
    requires AllChecked(s.book.rows)
    ensures var (r, t) := OrderPlacedBy(s, lines, cod, gatewayOk);
            && (r == NoItems <==> lines == [])
            && (r.OrderPlaced? <==>
                && lines != [] && (cod || gatewayOk)
                && (forall k | 0 <= k < |lines| :: LineIsSound(s, lines[k]))
                && forall v <- s.book.rows :: Total(lines, v) <= s.book.rows[v].stock - s.book.rows[v].reserved)
            && (r.OrderPlaced? ==>
                && r.order == |s.orders|
                && t.orders == s.orders + [Order(None, cod, lines, Placed, if cod then CodPending else Pending)]
                && t.payments == s.payments + (if cod then [] else [Payment(|s.orders|, Created, None, false)])
                && Some(t.book) == Post(if cod then Decrement else Reserve, s.book, lines, |s.orders|))
            && (!r.OrderPlaced? ==> t == s)
            && (r == GatewayFailure ==> !cod && !gatewayOk)
  {
    NoFirstProblemIff(s, lines);
    GoesThroughIff(if cod then Decrement else Reserve, s.book, lines, |s.orders|);
  }
}
