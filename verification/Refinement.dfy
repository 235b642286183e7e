/** The steps of Interleaving, run without interference, are the operations: a checkout, a pay, a sale
    or an adjustment that nobody overlaps commits exactly when the operation succeeds, and leaves the
    same sessions and the same stock. */
module Refinement {
  import opened Tables
  import opened Ordering
  import opened Inventory
  import opened Holds
  import opened CheckoutSessions
  import opened CheckoutPayments
  import opened Lifecycle
  import opened Linkage
  import opened AdminInventory
  import opened NoOversell
  import opened Interleaving
  import opened InterleavedSales

  /** y is s at rest: same clock, sessions and stock, nothing running. */
  ghost predicate AtRest(s: Shop, y: Sys) {
    && y.now == s.now && y.sessions == s.sessions && y.locks == map[] && y.txns == map[]
    && forall v: VariantId :: StockIn(y, v) == StockOf(s.book.rows, v)
  }

  /** A healthy shop at rest is where the interleavings may start. */
  lemma RestIsSafe(s: Shop, y: Sys)
    requires Healthy(s) && AtRest(s, y) && y.sales == map[]
    ensures Safe(y) && Sole(y)
  {
    RestIsSole(y);
    forall v: VariantId
      ensures Held(y.sessions, v, y.now) <= StockIn(y, v)
    {
      assert Held(s.sessions, v, s.now) <= StockOf(s.book.rows, v);
    }
    forall i | 0 <= i < |y.sessions|
      ensures RowsShare(y.sessions[i])
    {
      assert SessionOk(s.sessions[i]);
    }
  }

  /** What x leaves if it runs from rest to its commit. */
  function Done(y: Sys, x: Txn): Sys {
    Written(y, x).(txns := map[], locks := map[])
  }

  /** x as action a starts it at rest. */
  predicate Starts(y: Sys, a: Action, t: TxnId, x: Txn) {
    && y.txns == map[] && y.locks == map[] && Enabled(y, a)
    && x.locked == 0 && !x.checked && Increasing(x.want)
    && Next(y, a) == y.(txns := map[t := x])
  }

  lemma TestIgnoresTxns(y: Sys, m: Sys, x: Txn)
    requires m.sessions == y.sessions && m.stock == y.stock
    ensures CheckPasses(m, x) <==> CheckPasses(y, x)
  {
  }

  /** The actions of a transaction that nobody interrupts: its locks, its test, its commit. */
  function Alone(t: TxnId, x: Txn): seq<Action> {
    Locking(t, |x.want|) + [Check(t), Commit(t)]
  }

  /** Started at rest and left alone, a transaction whose test passes runs to its commit. */
  lemma RunsWhole(y: Sys, a: Action, t: TxnId, x: Txn)
    requires Starts(y, a, t, x) && CheckPasses(y, x)
    ensures Executes(y, [a] + Alone(t, x), Done(y, x))
  {
    RunsOn(y, t, x);
    Prepend(y, a, y.(txns := map[t := x]), Alone(t, x), Done(y, x));
  }

  lemma RunsOn(y: Sys, t: TxnId, x: Txn)
    requires y.locks == map[] && x.locked == 0 && !x.checked && Increasing(x.want) && CheckPasses(y, x)
    ensures Executes(y.(txns := map[t := x]), Alone(t, x), Done(y, x))
  {
    var m := y.(txns := map[t := x]);
    TestIgnoresTxns(y, m, x);
    RunsAlone(m, t);
    WritesTheSame(y, x, m, x);
    assert m.txns - {t} == map[];
    assert Script(m, t) == Alone(t, x);
  }

  // Checkout

  function CheckoutStarted(y: Sys, i: SessionId, cart: seq<Line>): Txn {
    Txn(CheckoutTxn, i, cart, Ascending(VariantsOf(cart)), 0, false, y.now)
  }

  /** y once the user has a session to hold the cart, which is session i. */
  function Ready(y: Sys, user: UserId, i: SessionId): Sys {
    if i < |y.sessions| then y else WithNewcomer(y, user)
  }

  function Readying(y: Sys, user: UserId, i: SessionId): seq<Action> {
    if i < |y.sessions| then [] else [NewSession(user)]
  }

  lemma OthersIgnoreNewcomer(y: Sys, user: UserId, i: SessionId, v: VariantId)
    requires i <= |y.sessions|
    ensures HeldByOthers(Ready(y, user, i).sessions, v, y.now, i) == HeldByOthers(y.sessions, v, y.now, i)
  {
    var m := Ready(y, user, i);
    if i == |y.sessions| {
      assert m.sessions[..i] == y.sessions;
    }
  }

  lemma CheckoutTest(s: Shop, y: Sys, user: UserId, i: SessionId, cart: seq<Line>)
    requires AtRest(s, y) && i <= |y.sessions|
    ensures var m := Ready(y, user, i);
            AllReserved(LineResults(s, cart, i)) <==>
            CheckPasses(m, CheckoutStarted(m, i, cart)) &&
            forall k | 0 <= k < |cart| :: Buyable(s.items, s.products, cart[k].variant)
  {
    var m := Ready(y, user, i);
    forall k | 0 <= k < |cart|
      ensures LineResults(s, cart, i)[k].reserved <==>
              Buyable(s.items, s.products, cart[k].variant) &&
              HeldByOthers(m.sessions, cart[k].variant, m.now, i) + cart[k].qty <= StockIn(m, cart[k].variant)
    {
      OthersIgnoreNewcomer(y, user, i, cart[k].variant);
    }
  }

  lemma CheckoutStarts(y: Sys, i: SessionId, cart: seq<Line>, t: TxnId)
    requires y.txns == map[] && y.locks == map[] && cart != [] && Distinct(cart)
    requires i < |y.sessions| && y.sessions[i].status == Active
    ensures Starts(y, BeginCheckout(t, i, cart), t, CheckoutStarted(y, i, cart))
  {
  }

  lemma CheckoutLeaves(s: Shop, y: Sys, user: UserId, i: SessionId, cart: seq<Line>)
    requires AtRest(s, y) && i <= |s.sessions| && (i < |s.sessions| ==> s.sessions[i].user == user)
    ensures var m, expires := Ready(y, user, i), s.now + RESERVATION_TTL;
            var sess := Session(user, Active, expires, RowsFor(cart, expires));
            AtRest(s.(sessions := WithSession(s.sessions, i, sess)), Done(m, CheckoutStarted(m, i, cart)))
  {
  }

  lemma CheckoutRuns(y: Sys, user: UserId, i: SessionId, cart: seq<Line>, t: TxnId)
    requires y.txns == map[] && y.locks == map[] && cart != [] && Distinct(cart) && i <= |y.sessions|
    requires var m := Ready(y, user, i);
             m.sessions[i].status == Active && CheckPasses(m, CheckoutStarted(m, i, cart))
    ensures var m := Ready(y, user, i);
            var x := CheckoutStarted(m, i, cart);
            Executes(y, Readying(y, user, i) + ([BeginCheckout(t, i, cart)] + Alone(t, x)), Done(m, x))
  {
    var m := Ready(y, user, i);
    var x := CheckoutStarted(m, i, cart);
    CheckoutStarts(m, i, cart, t);
    RunsWhole(m, BeginCheckout(t, i, cart), t, x);
    assert Executes(y, [], y);
    if i == |y.sessions| {
      ExecutesSnoc(y, [], y, NewSession(user));
      assert [] + [NewSession(user)] == Readying(y, user, i);
    }
    ExecutesThen(y, Readying(y, user, i), m, [BeginCheckout(t, i, cart)] + Alone(t, x), Done(m, x));
  }

  lemma CheckoutGoesThrough(s: Shop, y: Sys, user: UserId, cart: seq<Line>)
    requires AtRest(s, y) && cart != []
    ensures var i := Target(s, user);
            var m := Ready(y, user, i);
            StartCheckout(s, user, cart).0.Reserved? <==>
            && m.sessions[i].status == Active && CheckPasses(m, CheckoutStarted(m, i, cart))
            && forall k | 0 <= k < |cart| :: Buyable(s.items, s.products, cart[k].variant)
  {
    CheckoutTest(s, y, user, Target(s, user), cart);
  }

  lemma CheckoutRests(s: Shop, y: Sys, user: UserId, cart: seq<Line>)
    requires AtRest(s, y) && StartCheckout(s, user, cart).0.Reserved?
    ensures var i := Target(s, user);
            var m := Ready(y, user, i);
            AtRest(StartCheckout(s, user, cart).1, Done(m, CheckoutStarted(m, i, cart)))
  {
    CheckoutLeaves(s, y, user, Target(s, user), cart);
  }

  /** A lone checkout, on the user's live session or a new one, commits iff Start reserves the cart: the
      session is not being paid, the test passes and every line is buyable, which no step looks at. */
  lemma CheckoutRefines(s: Shop, y: Sys, user: UserId, cart: seq<Line>, t: TxnId)
    requires AtRest(s, y) && cart != [] && Distinct(cart)
    ensures var i, r := Target(s, user), StartCheckout(s, user, cart);
            var m := Ready(y, user, i);
            var x := CheckoutStarted(m, i, cart);
            && (r.0.Reserved? <==> Enabled(m, BeginCheckout(t, i, cart)) && CheckPasses(m, x) &&
                                   forall k | 0 <= k < |cart| :: Buyable(s.items, s.products, cart[k].variant))
            && (r.0.Reserved? ==>
                  && AtRest(r.1, Done(m, x))
                  && Executes(y, Readying(y, user, i) + ([BeginCheckout(t, i, cart)] + Alone(t, x)), Done(m, x)))
  {
    CheckoutGoesThrough(s, y, user, cart);
    if StartCheckout(s, user, cart).0.Reserved? {
      CheckoutRests(s, y, user, cart);
      CheckoutRuns(y, user, Target(s, user), cart, t);
    }
  }

  // Pay

  function PayStarted(y: Sys, i: SessionId): Txn
    requires i < |y.sessions|
  {
    Txn(PayTxn, i, LinesOf(y.sessions[i]), Ascending(y.sessions[i].rows.Keys), 0, false, y.now)
  }

  lemma PayStarts(y: Sys, i: SessionId, t: TxnId)
    requires y.txns == map[] && y.locks == map[]
    requires i < |y.sessions| && y.sessions[i].rows != map[] && Standing(y.sessions[i], y.now, Active)
    ensures Starts(y, BeginPay(t, i), t, PayStarted(y, i))
  {
  }

  lemma AllReservedVariants(sess: Session)
    requires RowsShare(sess) && sess.status == Active
    ensures ReservedVariants(sess) == Ascending(sess.rows.Keys)
    ensures ReservedVariants(sess) == [] ==> sess.rows == map[]
  {
    assert ActiveRows(sess) == sess.rows.Keys;
  }

  lemma LineAt(sess: Session, k: nat)
    requires k < |Ascending(sess.rows.Keys)|
    ensures |LinesOf(sess)| == |Ascending(sess.rows.Keys)|
    ensures var v := Ascending(sess.rows.Keys)[k]; v in sess.rows && LinesOf(sess)[k] == Line(v, sess.rows[v].qty)
  {
  }

  predicate Listed(sess: Session, vs: seq<VariantId>, lines: seq<Line>) {
    |lines| == |vs| && forall k | 0 <= k < |vs| :: vs[k] in sess.rows && lines[k] == Line(vs[k], sess.rows[vs[k]].qty)
  }

  lemma LinesAt(sess: Session)
    ensures Listed(sess, Ascending(sess.rows.Keys), LinesOf(sess))
  {
    forall k | 0 <= k < |Ascending(sess.rows.Keys)|
      ensures var v := Ascending(sess.rows.Keys)[k]; v in sess.rows && LinesOf(sess)[k] == Line(v, sess.rows[v].qty)
    {
      LineAt(sess, k);
    }
  }

  lemma TestsAgree(s: Shop, y: Sys, x: Txn, sess: Session, vs: seq<VariantId>)
    requires AtRest(s, y) && x.kind == PayTxn && Listed(sess, vs, x.lines)
    ensures Failures(s, sess, vs) == [] <==>
            CheckPasses(y, x) && forall k | 0 <= k < |vs| :: Buyable(s.items, s.products, vs[k])
  {
    NoFailuresIff(s, sess, vs);
    forall k | 0 <= k < |vs|
      ensures Payable(s, sess, vs[k]) <==>
              Buyable(s.items, s.products, vs[k]) && x.lines[k].qty <= StockIn(y, x.lines[k].variant)
    {
    }
  }

  lemma PayOutcome(s: Shop, user: UserId, i: SessionId)
    requires i < |s.sessions| && s.sessions[i].user == user
    ensures var sess, r := s.sessions[i], PaymentStarted(s, i, user, true);
            && (r.0.Paying? <==> Standing(sess, s.now, Active) && ReservedVariants(sess) != [] &&
                                 Failures(s, sess, ReservedVariants(sess)) == [])
            && (r.0.Paying? ==> r.1.now == s.now && r.1.book == s.book &&
                                r.1.sessions == s.sessions[i := Processed(sess, s.now + PAYMENT_TTL)])
  {
  }

  lemma PayLeaves(y: Sys, i: SessionId)
    requires i < |y.sessions|
    ensures Done(y, PayStarted(y, i))
         == y.(sessions := y.sessions[i := Processed(y.sessions[i], y.now + PAYMENT_TTL)],
               txns := map[], locks := map[])
  {
  }

  lemma PayRuns(y: Sys, i: SessionId, t: TxnId)
    requires y.txns == map[] && y.locks == map[]
    requires i < |y.sessions| && y.sessions[i].rows != map[] && Standing(y.sessions[i], y.now, Active)
    requires CheckPasses(y, PayStarted(y, i))
    ensures Executes(y, [BeginPay(t, i)] + Alone(t, PayStarted(y, i)), Done(y, PayStarted(y, i)))
  {
    PayStarts(y, i, t);
    RunsWhole(y, BeginPay(t, i), t, PayStarted(y, i));
  }

  lemma PayGoesThrough(s: Shop, y: Sys, user: UserId, i: SessionId)
    requires AtRest(s, y) && i < |s.sessions| && s.sessions[i].user == user && RowsShare(s.sessions[i])
    ensures PaymentStarted(s, i, user, true).0.Paying? <==>
            && s.sessions[i].rows != map[] && Standing(s.sessions[i], s.now, Active)
            && CheckPasses(y, PayStarted(y, i))
            && forall v <- s.sessions[i].rows :: Buyable(s.items, s.products, v)
  {
    var sess := s.sessions[i];
    var vs := Ascending(sess.rows.Keys);
    LinesAt(sess);
    TestsAgree(s, y, PayStarted(y, i), sess, vs);
    PayOutcome(s, user, i);
    if Standing(sess, s.now, Active) {
      AllReservedVariants(sess);
      BuyableRows(s, sess.rows);
    }
  }

  lemma BuyableRows(s: Shop, rows: map<VariantId, Hold>)
    ensures var vs := Ascending(rows.Keys);
            && (rows == map[] <==> vs == [])
            && ((forall k | 0 <= k < |vs| :: Buyable(s.items, s.products, vs[k])) <==>
                forall v <- rows :: Buyable(s.items, s.products, v))
  {
    var vs := Ascending(rows.Keys);
    assert forall v <- rows :: v in vs;
  }

  lemma PayRests(s: Shop, y: Sys, user: UserId, i: SessionId)
    requires AtRest(s, y) && i < |s.sessions| && s.sessions[i].user == user
    requires PaymentStarted(s, i, user, true).0.Paying?
    ensures AtRest(PaymentStarted(s, i, user, true).1, Done(y, PayStarted(y, i)))
  {
    PayOutcome(s, user, i);
    PayLeaves(y, i);
  }

  /** A lone pay commits iff PaymentStarted goes through: the hold stands, its rows fit in physical stock
      and every one is buyable, which no step looks at. */
  lemma PayRefines(s: Shop, y: Sys, user: UserId, i: SessionId, t: TxnId)
    requires AtRest(s, y) && i < |s.sessions| && s.sessions[i].user == user && RowsShare(s.sessions[i])
    ensures var x, r := PayStarted(y, i), PaymentStarted(s, i, user, true);
            && (r.0.Paying? <==> Enabled(y, BeginPay(t, i)) && CheckPasses(y, x) &&
                                 forall v <- s.sessions[i].rows :: Buyable(s.items, s.products, v))
            && (r.0.Paying? ==>
                  AtRest(r.1, Done(y, x)) && Executes(y, [BeginPay(t, i)] + Alone(t, x), Done(y, x)))
  {
    PayGoesThrough(s, y, user, i);
    if PaymentStarted(s, i, user, true).0.Paying? {
      PayRests(s, y, user, i);
      PayRuns(y, i, t);
    }
  }

  // Sale

  function SaleStarted(y: Sys, i: SessionId): Txn
    requires i < |y.sessions|
  {
    Txn(SaleTxn, i, LinesOf(y.sessions[i]), Ascending(y.sessions[i].rows.Keys), 0, false, y.now)
  }

  lemma SaleStarts(y: Sys, i: SessionId, t: TxnId)
    requires y.txns == map[] && y.locks == map[]
    requires i < |y.sessions| && y.sessions[i].rows != map[] && y.sessions[i].status != Active && SalesOf(y, i) == 0
    ensures Starts(y, BeginSale(t, i), t, SaleStarted(y, i))
  {
  }

  lemma LinesTotals(sess: Session)
    ensures forall k | 0 <= k < |LinesOf(sess)| :: LinesOf(sess)[k].variant in sess.rows
    ensures forall k | 0 <= k < |LinesOf(sess)| ::
            Total(LinesOf(sess), LinesOf(sess)[k].variant) == LinesOf(sess)[k].qty
    ensures forall v: VariantId | Total(LinesOf(sess), v) > 0 ::
              exists k | 0 <= k < |LinesOf(sess)| :: LinesOf(sess)[k].variant == v
  {
    LinesOfRows(sess);
    LinesAt(sess);
    ListedTotals(sess, Ascending(sess.rows.Keys), LinesOf(sess));
  }

  lemma ListedTotals(sess: Session, vs: seq<VariantId>, lines: seq<Line>)
    requires Listed(sess, vs, lines) && SameQuantities(lines, sess.rows)
    requires forall v: VariantId | Total(lines, v) > 0 :: v in vs
    ensures forall k | 0 <= k < |lines| ::
              lines[k].variant in sess.rows && Total(lines, lines[k].variant) == lines[k].qty
    ensures forall v: VariantId | Total(lines, v) > 0 :: exists k | 0 <= k < |lines| :: lines[k].variant == v
  {
    forall v: VariantId | Total(lines, v) > 0
      ensures exists k | 0 <= k < |lines| :: lines[k].variant == v
    {
      var k :| 0 <= k < |vs| && vs[k] == v;
      assert lines[k].variant == v;
    }
  }

  /** commit_sale's loop over distinct lines is one test per line. */
  lemma SaleTest(s: Shop, y: Sys, o: OrderId, i: SessionId)
    requires AtRest(s, y) && AllChecked(s.book.rows) && i < |s.sessions| && o < |s.orders|
    requires s.orders[o].lines == LinesOf(s.sessions[i])
    ensures Post(Op.CommitSale, s.book, s.orders[o].lines, o).Some? <==> CheckPasses(y, SaleStarted(y, i))
  {
    PostsIff(Op.CommitSale, s.book, s.orders[o].lines, o);
    LinesTotals(s.sessions[i]);
    LinesFitIff(s.book, y, SaleStarted(y, i));
  }

  /** For lines of distinct variants, testing each line is testing each variant's total. */
  lemma LinesFitIff(b: Book, y: Sys, x: Txn)
    requires x.kind == SaleTxn && AllChecked(b.rows) && forall v: VariantId :: StockIn(y, v) == StockOf(b.rows, v)
    requires forall k | 0 <= k < |x.lines| :: Total(x.lines, x.lines[k].variant) == x.lines[k].qty
    requires forall v: VariantId | Total(x.lines, v) > 0 :: exists k | 0 <= k < |x.lines| :: x.lines[k].variant == v
    ensures CheckPasses(y, x) <==>
            Present(b, x.lines) && forall v <- b.rows :: Fits(Op.CommitSale, b.rows[v], Total(x.lines, v))
  {
    if CheckPasses(y, x) {
      forall v <- b.rows
        ensures Total(x.lines, v) <= b.rows[v].stock
      {
        assert StockIn(y, v) == b.rows[v].stock;
      }
    }
    if Present(b, x.lines) && forall v <- b.rows :: Fits(Op.CommitSale, b.rows[v], Total(x.lines, v)) {
      forall k | 0 <= k < |x.lines|
        ensures x.lines[k].qty <= StockIn(y, x.lines[k].variant)
      {
        assert Fits(Op.CommitSale, b.rows[x.lines[k].variant], x.lines[k].qty);
      }
    }
  }

  lemma StockAgrees(b: Book, y: Sys, lines: seq<Line>, want: seq<VariantId>, v: VariantId)
    requires StockIn(y, v) == StockOf(b.rows, v) && Present(b, lines)
    requires v in b.rows ==> Total(lines, v) <= b.rows[v].stock
    ensures var z := StockAfter(y.stock, SaleTxn, lines, want);
            (if v in z then z[v] else 0) == if v in b.rows then b.rows[v].stock - Total(lines, v) else 0
  {
    if v !in b.rows {
      TotalOfAbsent(lines, v);
    }
  }

  lemma SaleLeaves(s: Shop, y: Sys, o: OrderId, i: SessionId)
    requires AtRest(s, y) && AllChecked(s.book.rows) && i < |s.sessions| && o < |s.orders|
    requires s.orders[o].session == Some(i) && s.orders[o].lines == LinesOf(s.sessions[i])
    requires SaleCompleted(s, o).Some?
    ensures AtRest(SaleCompleted(s, o).value, Done(y, SaleStarted(y, i)))
  {
    var lines := s.orders[o].lines;
    SaleBook(s.book, lines, o);
    SaleShop(s, o, i);
    SaleDone(y, i);
    SaleStock(s.book, y, lines, SaleStarted(y, i).want, SaleCompleted(s, o).value.book);
  }

  lemma SaleBook(b: Book, lines: seq<Line>, o: OrderId)
    requires AllChecked(b.rows) && Post(Op.CommitSale, b, lines, o).Some?
    ensures Present(b, lines) && forall v <- b.rows :: Fits(Op.CommitSale, b.rows[v], Total(lines, v))
    ensures var after := Post(Op.CommitSale, b, lines, o).value;
            && after.rows.Keys == b.rows.Keys
            && forall v <- b.rows :: after.rows[v].stock == b.rows[v].stock - Total(lines, v)
  {
    PostsIff(Op.CommitSale, b, lines, o);
    PostKeepsChecks(Op.CommitSale, b, lines, o);
  }

  lemma SaleShop(s: Shop, o: OrderId, i: SessionId)
    requires i < |s.sessions| && o < |s.orders| && s.orders[o].session == Some(i) && SaleCompleted(s, o).Some?
    ensures var r := SaleCompleted(s, o).value;
            && Post(Op.CommitSale, s.book, s.orders[o].lines, o) == Some(r.book)
            && r.now == s.now && r.sessions == s.sessions[i := Closed(s.sessions[i], Completed)]
  {
  }

  lemma SaleDone(y: Sys, i: SessionId)
    requires i < |y.sessions|
    ensures var x := SaleStarted(y, i);
            var z := Done(y, x);
            && z.now == y.now && z.sessions == y.sessions[i := Closed(y.sessions[i], Completed)]
            && z.stock == StockAfter(y.stock, SaleTxn, x.lines, x.want) && z.locks == map[] && z.txns == map[]
  {
  }

  lemma SaleStock(b: Book, y: Sys, lines: seq<Line>, want: seq<VariantId>, after: Book)
    requires Present(b, lines) && forall v: VariantId :: StockIn(y, v) == StockOf(b.rows, v)
    requires forall v <- b.rows :: Fits(Op.CommitSale, b.rows[v], Total(lines, v))
    requires after.rows.Keys == b.rows.Keys
    requires forall v <- b.rows :: after.rows[v].stock == b.rows[v].stock - Total(lines, v)
    ensures var z := StockAfter(y.stock, SaleTxn, lines, want);
            forall v: VariantId :: (if v in z then z[v] else 0) == StockOf(after.rows, v)
  {
    forall v: VariantId
      ensures var z := StockAfter(y.stock, SaleTxn, lines, want);
              (if v in z then z[v] else 0) == StockOf(after.rows, v)
    {
      StockAgrees(b, y, lines, want, v);
    }
  }

  /** A lone sale, on time or of a session that has ended since, commits iff the operation succeeds. */
  lemma SaleRefines(s: Shop, y: Sys, o: OrderId, i: SessionId, t: TxnId)
    requires AtRest(s, y) && o < |s.orders| && s.orders[o].session == Some(i) && i < |s.sessions|
    requires s.sessions[i].status != Active && SalesOf(y, i) == 0
    requires s.sessions[i].rows != map[] && AllChecked(s.book.rows)
    requires s.orders[o].lines == LinesOf(s.sessions[i])
    ensures var x, r := SaleStarted(y, i), SaleCompleted(s, o);
            && (r.Some? <==> CheckPasses(y, x))
            && (r.Some? ==> AtRest(r.value, Done(y, x)) && Executes(y, [BeginSale(t, i)] + Alone(t, x), Done(y, x)))
  {
    SaleTest(s, y, o, i);
    if SaleCompleted(s, o).Some? {
      SaleLeaves(s, y, o, i);
      SaleStarts(y, i, t);
      RunsWhole(y, BeginSale(t, i), t, SaleStarted(y, i));
    }
  }

  // Adjust

  lemma StockSetAgrees(stock: map<VariantId, int>, v: VariantId, target: int)
    ensures StockAfter(stock, AdjustTxn(target), [], [v]) == stock[v := target]
  {
    assert v in [v];
  }

  lemma AdjustLeaves(s: Shop, y: Sys, v: VariantId, target: nat, r: Shop)
    requires AtRest(s, y) && v in s.book.rows && r == s.(book := r.book, products := r.products)
    requires r.book == StockSet(s.book, v, target)
    ensures AtRest(r, Done(y, Txn(AdjustTxn(target), 0, [], [v], 0, false, y.now)))
  {
    StockSetAgrees(y.stock, v, target);
    forall w: VariantId
      ensures (if w in y.stock[v := target] then y.stock[v := target][w] else 0) == StockOf(r.book.rows, w)
    {
      assert StockIn(y, w) == StockOf(s.book.rows, w);
    }
  }

  /** A lone adjustment commits iff StockAdjusted goes through: the target clears the derived holds, which
      the step tests, and the stored counter, which it does not know, and changes something. */
  lemma AdjustRefines(s: Shop, y: Sys, v: VariantId, mode: Mode, value: nat, t: TxnId)
    requires AtRest(s, y) && v in s.items && v in s.book.rows
    ensures var target, r := TargetStock(mode, value, s.book.rows[v].stock), StockAdjusted(s, v, mode, value, true);
            var x := Txn(AdjustTxn(target), 0, [], [v], 0, false, y.now);
            && (r.0.Adjusted? <==>
                target >= 0 && CheckPasses(y, x) && s.book.rows[v].reserved <= target != s.book.rows[v].stock)
            && (r.0.Adjusted? ==>
                  AtRest(r.1, Done(y, x)) && Executes(y, [BeginAdjust(t, v, target)] + Alone(t, x), Done(y, x)))
  {
    var target := TargetStock(mode, value, s.book.rows[v].stock);
    var x := Txn(AdjustTxn(target), 0, [], [v], 0, false, y.now);
    assert CheckPasses(y, x) <==> Held(s.sessions, v, s.now) <= target by {
      assert x.want[0] == v;
    }
    if StockAdjusted(s, v, mode, value, true).0.Adjusted? {
      RunsWhole(y, BeginAdjust(t, v, target), t, x);
      AdjustLeaves(s, y, v, target, StockAdjusted(s, v, mode, value, true).1);
    }
  }
}
