/** Row locks, requested one after another and kept to the end of the transaction.  Transactions that
    request their rows in one global order never wait for each other in a circle; any other order can. */
module LockOrder {
  import opened Tables
  import opened Ordering

  type TxnId = nat

  /** HoldRows stands for a session's reservation rows, which each statement takes together. */
  datatype Resource =
    | SessionRow(session: SessionId)
    | InventoryRow(variant: VariantId)
    | HoldRows(owner: SessionId)
    | ProductRow(product: ProductId)

  function Rank(r: Resource): (nat, nat) {
    match r
    case SessionRow(i) => (0, i)
    case InventoryRow(v) => (1, v)
    case HoldRows(i) => (2, i)
    case ProductRow(p) => (3, p)
  }

  /** The global order: session rows, inventory rows by variant id, reservation rows, product rows. */
  predicate Before(a: Resource, b: Resource) {
    Rank(a).0 < Rank(b).0 || (Rank(a).0 == Rank(b).0 && Rank(a).1 < Rank(b).1)
  }

  predicate Ordered(plan: seq<Resource>) {
    forall j, k | 0 <= j < k < |plan| :: Before(plan[j], plan[k])
  }

  // The plans of the services

  function InventoryRows(vs: seq<VariantId>): (r: seq<Resource>)
    ensures |r| == |vs|
  {
    seq(|vs|, k requires 0 <= k < |vs| => InventoryRow(vs[k]))
  }

  function ProductRows(ps: seq<ProductId>): (r: seq<Resource>)
    ensures |r| == |ps|
  {
    seq(|ps|, k requires 0 <= k < |ps| => ProductRow(ps[k]))
  }

  /** start_checkout and start_payment. */
  function CheckoutPlan(i: SessionId, variants: set<VariantId>): seq<Resource> {
    [SessionRow(i)] + InventoryRows(Ascending(variants)) + [HoldRows(i)]
  }

  function CancelPlan(i: SessionId): seq<Resource> {
    [SessionRow(i), HoldRows(i)]
  }

  /** adjust, and the product whose status it flips. */
  function AdjustPlan(v: VariantId, p: ProductId): seq<Resource> {
    [InventoryRow(v), ProductRow(p)]
  }

  /** The CSV importer, chunk by chunk: one inventory row at a time in the order of the file, then the
      products that flip, in the order of a Python set. */
  function ImportPlan(vs: seq<VariantId>, ps: seq<ProductId>): seq<Resource> {
    InventoryRows(vs) + ProductRows(ps)
  }

  /** The admin's cancel of an order whose stock had left: restock, then products in set order. */
  function RestockPlan(variants: set<VariantId>, ps: seq<ProductId>): seq<Resource> {
    ImportPlan(Ascending(variants), ps)
  }

  /** place_order. */
  function StockPlan(variants: set<VariantId>): seq<Resource> {
    InventoryRows(Ascending(variants))
  }

  /** A capture: commit_sale, then the reservation rows, then their session. */
  function CapturePlan(i: SessionId, variants: set<VariantId>): seq<Resource> {
    InventoryRows(Ascending(variants)) + [HoldRows(i), SessionRow(i)]
  }

  /** A failed payment, or a sweep of one session. */
  function ReleasePlan(i: SessionId): seq<Resource> {
    [HoldRows(i), SessionRow(i)]
  }

  lemma InventoryRowsOrdered(vs: seq<VariantId>)
    requires Increasing(vs)
    ensures Ordered(InventoryRows(vs))
  {
  }

  /** An import's order is the global one exactly when its variants and its products ascend. */
  lemma ImportsAreOrderedIff(vs: seq<VariantId>, ps: seq<ProductId>)
    ensures Ordered(ImportPlan(vs, ps)) <==> Increasing(vs) && Increasing(ps)
  {
    var plan, n := ImportPlan(vs, ps), |vs|;
    if Ordered(plan) {
      forall j, k | 0 <= j < k < n
        ensures vs[j] < vs[k]
      {
        assert Before(plan[j], plan[k]);
      }
      forall j, k | 0 <= j < k < |ps|
        ensures ps[j] < ps[k]
      {
        assert Before(plan[n + j], plan[n + k]);
      }
    }
  }

  /** So is an admin cancel's exactly when its products do. */
  lemma RestocksAreOrderedIff(variants: set<VariantId>, ps: seq<ProductId>)
    ensures Ordered(RestockPlan(variants, ps)) <==> Increasing(ps)
  {
    ImportsAreOrderedIff(Ascending(variants), ps);
  }

  lemma Enclosed(i: SessionId, rows: seq<Resource>)
    requires Ordered(rows) && forall k | 0 <= k < |rows| :: rows[k].InventoryRow?
    ensures Ordered([SessionRow(i)] + rows + [HoldRows(i)])
  {
  }

  lemma ServicePlansAreOrdered(i: SessionId, variants: set<VariantId>, v: VariantId, p: ProductId)
    ensures Ordered(CheckoutPlan(i, variants)) && Ordered(CancelPlan(i)) && Ordered(StockPlan(variants))
    ensures Ordered(AdjustPlan(v, p))
  {
    InventoryRowsOrdered(Ascending(variants));
    Enclosed(i, InventoryRows(Ascending(variants)));
  }

  // The lock table

  /** A transaction holds the first held rows of its plan and asks for the next. */
  datatype Proc = Proc(plan: seq<Resource>, held: nat)

  predicate Holds(p: Proc, r: Resource) {
    p.held <= |p.plan| && r in p.plan[..p.held]
  }

  predicate Wants(p: Proc) {
    p.held < |p.plan|
  }

  function Wanted(p: Proc): Resource
    requires Wants(p)
  {
    p.plan[p.held]
  }

  /** Nobody else holds r; asking again for a row one holds succeeds. */
  predicate Free(ps: map<TxnId, Proc>, t: TxnId, r: Resource) {
    forall u <- ps | u != t :: !Holds(ps[u], r)
  }

  datatype Action = Start(txn: TxnId, plan: seq<Resource>) | Acquire(txn: TxnId) | Finish(txn: TxnId)

  predicate Enabled(ps: map<TxnId, Proc>, a: Action) {
    match a
    case Start(t, _) => t !in ps
    case Acquire(t) => t in ps && Wants(ps[t]) && Free(ps, t, Wanted(ps[t]))
    case Finish(t) => t in ps && ps[t].held == |ps[t].plan|
  }

  function Next(ps: map<TxnId, Proc>, a: Action): map<TxnId, Proc>
    requires Enabled(ps, a)
  {
    match a
    case Start(t, plan) => ps[t := Proc(plan, 0)]
    case Acquire(t) => ps[t := ps[t].(held := ps[t].held + 1)]
    case Finish(t) => ps - {t}
  }

  ghost predicate Executes(ps: map<TxnId, Proc>, actions: seq<Action>, qs: map<TxnId, Proc>)
    decreases |actions|
  {
    if actions == [] then qs == ps
    else Enabled(ps, actions[0]) && Executes(Next(ps, actions[0]), actions[1..], qs)
  }

  predicate WaitsFor(ps: map<TxnId, Proc>, t: TxnId, u: TxnId) {
    t in ps && u in ps && Wants(ps[t]) && Holds(ps[u], Wanted(ps[t]))
  }

  /** Each waits for the next, and the last is the first again. */
  predicate WaitCycle(ps: map<TxnId, Proc>, c: seq<TxnId>) {
    |c| >= 2 && c[0] == c[|c| - 1] && forall k | 0 <= k < |c| - 1 :: WaitsFor(ps, c[k], c[k + 1])
  }

  predicate AllOrdered(ps: map<TxnId, Proc>) {
    forall t <- ps :: Ordered(ps[t].plan) && ps[t].held <= |ps[t].plan|
  }

  lemma {:induction false} OrderKept(ps: map<TxnId, Proc>, actions: seq<Action>, qs: map<TxnId, Proc>)
    requires AllOrdered(ps) && Executes(ps, actions, qs)
    requires forall a <- actions | a.Start? :: Ordered(a.plan)
    ensures AllOrdered(qs)
    decreases |actions|
  {
    if actions != [] {
      OrderKept(Next(ps, actions[0]), actions[1..], qs);
    }
  }

  // No circle

  /** Whoever is waited for asks only for later rows than the one it is waited for. */
  lemma WaitsClimb(ps: map<TxnId, Proc>, t: TxnId, u: TxnId)
    requires AllOrdered(ps) && WaitsFor(ps, t, u) && Wants(ps[u])
    ensures Before(Wanted(ps[t]), Wanted(ps[u]))
  {
    var k :| 0 <= k < ps[u].held && ps[u].plan[k] == Wanted(ps[t]);
  }

  lemma {:induction false} ChainClimbs(ps: map<TxnId, Proc>, c: seq<TxnId>)
    requires AllOrdered(ps) && |c| >= 2 && forall k | 0 <= k < |c| - 1 :: WaitsFor(ps, c[k], c[k + 1])
    requires c[|c| - 1] in ps && Wants(ps[c[|c| - 1]])
    ensures c[0] in ps && Wants(ps[c[0]]) && Before(Wanted(ps[c[0]]), Wanted(ps[c[|c| - 1]]))
  {
    assert WaitsFor(ps, c[0], c[1]);
    if |c| == 2 {
      WaitsClimb(ps, c[0], c[1]);
    } else {
      assert WaitsFor(ps, c[1], c[2]);
      WaitsClimb(ps, c[0], c[1]);
      ChainClimbs(ps, c[1..]);
    }
  }

  /** Transactions whose plans follow the order never wait in a circle, in any reachable state. */
  lemma NoWaitCycle(actions: seq<Action>, ps: map<TxnId, Proc>, c: seq<TxnId>)
    requires Executes(map[], actions, ps)
    requires forall a <- actions | a.Start? :: Ordered(a.plan)
    ensures !WaitCycle(ps, c)
  {
    OrderKept(map[], actions, ps);
    if WaitCycle(ps, c) {
      assert WaitsFor(ps, c[0], c[1]);
      ChainClimbs(ps, c);
    }
  }

  // Someone can always step, and everyone can finish

  predicate CanStep(ps: map<TxnId, Proc>, t: TxnId) {
    t in ps && (ps[t].held == |ps[t].plan| || (Wants(ps[t]) && Free(ps, t, Wanted(ps[t]))))
  }

  /** The furthest-ahead request of a set of waiting transactions. */
  lemma {:induction false} FurthestAhead(ps: map<TxnId, Proc>, ts: set<TxnId>) returns (t: TxnId)
    requires ts != {} && forall u <- ts :: u in ps && Wants(ps[u])
    ensures t in ts && forall u <- ts :: !Before(Wanted(ps[t]), Wanted(ps[u]))
  {
    t :| t in ts;
    if ts != {t} {
      var u := FurthestAhead(ps, ts - {t});
      if Before(Wanted(ps[t]), Wanted(ps[u])) {
        t := u;
      } else {
        assert forall w <- ts :: w == t || w in ts - {t};
      }
    }
  }

  predicate Furthest(ps: map<TxnId, Proc>, t: TxnId) {
    t in ps && (Wants(ps[t]) ==> forall u <- ps | Wants(ps[u]) :: !Before(Wanted(ps[t]), Wanted(ps[u])))
  }

  lemma FurthestSteps(ps: map<TxnId, Proc>, t: TxnId)
    requires AllOrdered(ps) && Furthest(ps, t)
    requires forall u <- ps :: Wants(ps[u])
    ensures CanStep(ps, t)
  {
    forall u <- ps | u != t
      ensures !Holds(ps[u], Wanted(ps[t]))
    {
      if WaitsFor(ps, t, u) {
        WaitsClimb(ps, t, u);
      }
    }
  }

  /** While a transaction is running, some transaction can take its next row or finish. */
  lemma SomeoneSteps(ps: map<TxnId, Proc>) returns (t: TxnId)
    requires AllOrdered(ps) && ps != map[]
    ensures CanStep(ps, t)
  {
    if u :| u in ps && !Wants(ps[u]) {
      t := u;
    } else {
      var any :| any in ps;
      assert any in ps.Keys;
      t := FurthestAhead(ps, ps.Keys);
      FurthestSteps(ps, t);
    }
  }

  lemma {:induction false} ExecutesThen(ps: map<TxnId, Proc>, a: seq<Action>, qs: map<TxnId, Proc>, b: seq<Action>,
                                        rs: map<TxnId, Proc>)
    requires Executes(ps, a, qs) && Executes(qs, b, rs)
    ensures Executes(ps, a + b, rs)
    decreases |a|
  {
    if a == [] {
      assert a + b == b;
    } else {
      ExecutesThen(Next(ps, a[0]), a[1..], qs, b, rs);
      assert (a + b)[1..] == a[1..] + b;
    }
  }

  lemma Prepend(ps: map<TxnId, Proc>, a: Action, script: seq<Action>, qs: map<TxnId, Proc>)
    requires Enabled(ps, a) && Executes(Next(ps, a), script, qs)
    ensures Executes(ps, [a] + script, qs)
  {
    assert ([a] + script)[1..] == script;
  }

  /** With everybody waiting, the furthest-ahead transaction runs through all its rows and finishes. */
  lemma {:induction false} RunFurthest(ps: map<TxnId, Proc>, t: TxnId) returns (script: seq<Action>)
    requires AllOrdered(ps) && Furthest(ps, t) && forall u <- ps | u != t :: Wants(ps[u])
    ensures Executes(ps, script, ps - {t})
    decreases |ps[t].plan| - ps[t].held
  {
    if !Wants(ps[t]) {
      assert Executes(Next(ps, Finish(t)), [], ps - {t});
      Prepend(ps, Finish(t), [], ps - {t});
      script := [Finish(t)] + [];
    } else {
      FurthestSteps(ps, t);
      var qs: map<TxnId, Proc> := Next(ps, Acquire(t));
      assert qs - {t} == ps - {t};
      assert Wants(qs[t]) ==> Before(Wanted(ps[t]), Wanted(qs[t]));
      var rest := RunFurthest(qs, t);
      Prepend(ps, Acquire(t), rest, ps - {t});
      script := [Acquire(t)] + rest;
    }
  }

  /** From every reachable state of ordered transactions, all of them can still run to their end. */
  lemma {:induction false} EveryoneCanFinish(ps: map<TxnId, Proc>) returns (script: seq<Action>)
    requires AllOrdered(ps)
    ensures Executes(ps, script, map[])
    decreases |ps|
  {
    if ps == map[] {
      script := [];
    } else {
      var t, first := FinishOne(ps);
      assert |(ps - {t}).Keys| < |ps.Keys| by {
        assert (ps - {t}).Keys == ps.Keys - {t};
      }
      var rest := EveryoneCanFinish(ps - {t});
      ExecutesThen(ps, first, ps - {t}, rest, map[]);
      script := first + rest;
    }
  }

  lemma FinishOne(ps: map<TxnId, Proc>) returns (t: TxnId, script: seq<Action>)
    requires AllOrdered(ps) && ps != map[]
    ensures t in ps && Executes(ps, script, ps - {t})
  {
    if u :| u in ps && !Wants(ps[u]) {
      t := u;
      assert Executes(Next(ps, Finish(t)), [], ps - {t});
      Prepend(ps, Finish(t), [], ps - {t});
      script := [Finish(t)] + [];
    } else {
      var any :| any in ps;
      assert any in ps.Keys;
      t := FurthestAhead(ps, ps.Keys);
      script := RunFurthest(ps, t);
    }
  }

  // Any other order

  lemma BeforeIsTotal(a: Resource, b: Resource)
    ensures a == b || Before(a, b) || Before(b, a)
    ensures !(Before(a, b) && Before(b, a))
  {
  }

  function Acquires(t: TxnId, n: nat): seq<Action> {
    if n == 0 then [] else [Acquire(t)] + Acquires(t, n - 1)
  }

  /** A transaction takes rows that nobody else holds. */
  lemma {:induction false} TakesMore(ps: map<TxnId, Proc>, t: TxnId, n: nat)
    requires t in ps && ps[t].held + n <= |ps[t].plan|
    requires forall m | ps[t].held <= m < ps[t].held + n :: Free(ps, t, ps[t].plan[m])
    ensures Executes(ps, Acquires(t, n), ps[t := ps[t].(held := ps[t].held + n)])
    decreases n
  {
    var qs := ps[t := ps[t].(held := ps[t].held + n)];
    if n == 0 {
      assert qs == ps;
    } else {
      var next: map<TxnId, Proc> := Next(ps, Acquire(t));
      forall m | next[t].held <= m < next[t].held + (n - 1)
        ensures Free(next, t, next[t].plan[m])
      {
        assert Free(ps, t, ps[t].plan[m]);
      }
      TakesMore(next, t, n - 1);
      assert next[t := next[t].(held := next[t].held + (n - 1))] == qs;
      Prepend(ps, Acquire(t), Acquires(t, n - 1), qs);
    }
  }

  /** Two plans started together. */
  function Rivals(a: seq<Resource>, b: seq<Resource>): map<TxnId, Proc> {
    map[0 := Proc(a, 0), 1 := Proc(b, 0)]
  }

  predicate Disjoint(a: seq<Resource>, b: seq<Resource>) {
    forall r <- a :: r !in b
  }

  /** They can come to steps j and k without meeting, and then each asks for what the other has. */
  predicate CrossAt(a: seq<Resource>, b: seq<Resource>, j: nat, k: nat) {
    j < |a| && k < |b| && a[j] in b[..k] && b[k] in a[..j] && Disjoint(a[..j], b[..k])
  }

  ghost predicate Cross(a: seq<Resource>, b: seq<Resource>) {
    exists j: nat, k: nat :: CrossAt(a, b, j, k)
  }

  lemma CrossingDeadlocks(a: seq<Resource>, b: seq<Resource>, j: nat, k: nat)
    returns (script: seq<Action>, ps: map<TxnId, Proc>)
    requires CrossAt(a, b, j, k)
    ensures Executes(Rivals(a, b), script, ps) && WaitCycle(ps, [0, 1, 0]) && forall x <- script :: x.Acquire?
  {
    var start := Rivals(a, b);
    var first := start[0 := Proc(a, j)];
    TakesMore(start, 0, j);
    forall m | 0 <= m < k
      ensures Free(first, 1, b[m])
    {
      assert b[m] in b[..k];
    }
    TakesMore(first, 1, k);
    ps := first[1 := Proc(b, k)];
    script := Acquires(0, j) + Acquires(1, k);
    ExecutesThen(start, Acquires(0, j), first, Acquires(1, k), ps);
    AcquiresOnly(0, j);
    AcquiresOnly(1, k);
  }

  /** What two rivals have left, and no row is held by both. */
  ghost predicate Apart(ps: map<TxnId, Proc>, a: seq<Resource>, b: seq<Resource>) {
    && (0 in ps ==> ps[0].plan == a && ps[0].held <= |a|)
    && (1 in ps ==> ps[1].plan == b && ps[1].held <= |b|)
    && (0 in ps && 1 in ps ==> Disjoint(a[..ps[0].held], b[..ps[1].held]))
  }

  lemma StepApart(ps: map<TxnId, Proc>, x: Action, a: seq<Resource>, b: seq<Resource>)
    requires Apart(ps, a, b) && Enabled(ps, x) && !x.Start?
    ensures Apart(Next(ps, x), a, b)
  {
    if x.Acquire? && 0 in ps && 1 in ps {
      var p, q := ps[0], ps[1];
      if x.txn == 0 {
        assert a[..p.held + 1] == a[..p.held] + [a[p.held]];
        assert !Holds(q, a[p.held]);
      } else if x.txn == 1 {
        assert b[..q.held + 1] == b[..q.held] + [b[q.held]];
        assert !Holds(p, b[q.held]);
      }
    }
  }

  lemma {:induction false} ApartCycleCrosses(ps: map<TxnId, Proc>, script: seq<Action>, qs: map<TxnId, Proc>,
                                             a: seq<Resource>, b: seq<Resource>)
    requires Apart(ps, a, b) && Executes(ps, script, qs) && WaitCycle(qs, [0, 1, 0])
    requires forall x <- script :: !x.Start?
    ensures Cross(a, b)
    decreases |script|
  {
    if script == [] {
      var c := [0, 1, 0];
      assert WaitsFor(qs, c[0], c[1]) && WaitsFor(qs, c[1], c[2]);
      assert CrossAt(a, b, qs[0].held, qs[1].held);
    } else {
      StepApart(ps, script[0], a, b);
      ApartCycleCrosses(Next(ps, script[0]), script[1..], qs, a, b);
    }
  }

  ghost predicate CanDeadlock(a: seq<Resource>, b: seq<Resource>) {
    exists script: seq<Action>, ps: map<TxnId, Proc> ::
      Executes(Rivals(a, b), script, ps) && WaitCycle(ps, [0, 1, 0]) && forall x <- script :: !x.Start?
  }

  /** Two transactions can end up waiting for each other exactly when their plans cross. */
  lemma CanDeadlockIff(a: seq<Resource>, b: seq<Resource>)
    ensures CanDeadlock(a, b) <==> Cross(a, b)
  {
    if Cross(a, b) {
      var j: nat, k: nat :| CrossAt(a, b, j, k);
      var script, ps := CrossingDeadlocks(a, b, j, k);
    }
    if CanDeadlock(a, b) {
      var script: seq<Action>, ps: map<TxnId, Proc> :|
        Executes(Rivals(a, b), script, ps) && WaitCycle(ps, [0, 1, 0]) && forall x <- script :: !x.Start?;
      ApartCycleCrosses(Rivals(a, b), script, ps, a, b);
    }
  }

  lemma {:induction false} AcquiresOnly(t: TxnId, n: nat)
    ensures forall a <- Acquires(t, n) :: a.Acquire?
  {
    if n > 0 {
      AcquiresOnly(t, n - 1);
    }
  }

  /** A plan that asks for two rows against the order can deadlock with one that follows it. */
  lemma UnorderedPlansDeadlock(plan: seq<Resource>, j: nat, k: nat) returns (rival: seq<Resource>)
    requires j < k < |plan| && plan[k] !in plan[..k] && !Before(plan[j], plan[k])
    ensures rival == [plan[k], plan[j]] && Ordered(rival) && CanDeadlock(plan, rival)
  {
    rival := [plan[k], plan[j]];
    assert plan[j] == plan[..k][j] && rival[..1] == [plan[k]];
    BeforeIsTotal(plan[j], plan[k]);
    assert CrossAt(plan, rival, k, 1);
    CanDeadlockIff(plan, rival);
  }

  /** A capture, a failed payment, a sweep, or an admin's cancel of an unpaid order takes reservation rows
      before their session row, the user's cancel, checkout and pay the other way round. */
  lemma CaptureCancelDeadlock(i: SessionId, variants: set<VariantId>)
    ensures CanDeadlock(CapturePlan(i, variants), CancelPlan(i)) && CanDeadlock(ReleasePlan(i), CancelPlan(i))
    ensures CanDeadlock(ReleasePlan(i), CheckoutPlan(i, variants))
    ensures !Ordered(CapturePlan(i, variants)) && !Ordered(ReleasePlan(i)) && Ordered(CancelPlan(i))
  {
    CaptureCrossesCancel(i, variants);
    ReleaseCrossesCancel(i);
    CanDeadlockIff(CapturePlan(i, variants), CancelPlan(i));
    CanDeadlockIff(ReleasePlan(i), CancelPlan(i));
    ReleaseCrossesCheckout(i, variants);
    CanDeadlockIff(ReleasePlan(i), CheckoutPlan(i, variants));
  }

  lemma ReleaseCrossesCheckout(i: SessionId, variants: set<VariantId>)
    ensures Cross(ReleasePlan(i), CheckoutPlan(i, variants))
  {
    var release, n := ReleasePlan(i), |variants| + 1;
    CheckoutEnds(i, variants);
    assert release[..1] == [HoldRows(i)];
    assert CrossAt(release, CheckoutPlan(i, variants), 1, n);
  }

  lemma CheckoutEnds(i: SessionId, variants: set<VariantId>)
    ensures var plan, n := CheckoutPlan(i, variants), |variants| + 1;
            |plan| == n + 1 && plan[n] == HoldRows(i) && plan[0] == SessionRow(i) && HoldRows(i) !in plan[..n]
            && SessionRow(i) in plan[..n]
  {
    var plan, n := CheckoutPlan(i, variants), |variants| + 1;
    assert plan[..n] == [SessionRow(i)] + InventoryRows(Ascending(variants));
  }

  lemma CaptureCrossesCancel(i: SessionId, variants: set<VariantId>)
    ensures Cross(CapturePlan(i, variants), CancelPlan(i)) && !Ordered(CapturePlan(i, variants))
  {
    TailCrosses(InventoryRows(Ascending(variants)), i);
  }

  lemma TailCrosses(rows: seq<Resource>, i: SessionId)
    requires OnlyInventory(rows)
    ensures Cross(rows + [HoldRows(i), SessionRow(i)], CancelPlan(i)) && !Ordered(rows + [HoldRows(i), SessionRow(i)])
  {
    var n, plan, cancel := |rows|, rows + [HoldRows(i), SessionRow(i)], CancelPlan(i);
    assert !Before(plan[n], plan[n + 1]) && cancel[..1] == [SessionRow(i)];
    assert plan[..n + 1] == rows + [HoldRows(i)];
    assert CrossAt(plan, cancel, n + 1, 1);
  }

  lemma ReleaseCrossesCancel(i: SessionId)
    ensures Cross(ReleasePlan(i), CancelPlan(i)) && !Ordered(ReleasePlan(i)) && Ordered(CancelPlan(i))
  {
    var release, cancel := ReleasePlan(i), CancelPlan(i);
    assert cancel[..1] == [SessionRow(i)] && release[..1] == [HoldRows(i)];
    assert !Before(release[0], release[1]);
    assert CrossAt(release, cancel, 1, 1);
  }

  predicate OnlyInventory(rows: seq<Resource>) {
    forall r <- rows :: r.InventoryRow?
  }

  predicate OnlyProducts(rows: seq<Resource>) {
    forall r <- rows :: r.ProductRow?
  }

  lemma DisjointParts(a: seq<Resource>, x: seq<Resource>, b: seq<Resource>, y: seq<Resource>)
    requires OnlyInventory(a) && OnlyInventory(b) && OnlyProducts(x) && OnlyProducts(y)
    ensures Disjoint(a + x, b + y) <==> Disjoint(a, b) && Disjoint(x, y)
  {
    if Disjoint(a + x, b + y) {
      forall r | r in a || r in x
        ensures r in a + x
      {
      }
      forall r | r in b || r in y
        ensures r in b + y
      {
      }
    }
    if Disjoint(a, b) && Disjoint(x, y) {
      forall r <- a + x
        ensures r !in b + y
      {
        assert r in a || r in x;
      }
    }
  }

  /** Past the inventory rows, what the plans have taken of the products. */
  lemma PartsSoFar(a: seq<Resource>, p: seq<Resource>, j: nat)
    requires OnlyInventory(a) && OnlyProducts(p) && j < |p|
    ensures (a + p)[..|a| + j] == a + p[..j] && (a + p)[|a| + j] == p[j] && p[j].ProductRow?
    ensures OnlyProducts(p[..j])
    ensures forall r: Resource | r.ProductRow? :: r in a + p[..j] <==> r in p[..j]
  {
    assert p[j] in p;
    assert forall r <- p[..j] :: r in p;
    assert forall r: Resource :: r in a + p[..j] <==> r in a || r in p[..j];
  }

  lemma CrossAfterIff(a: seq<Resource>, p: seq<Resource>, b: seq<Resource>, q: seq<Resource>, j: nat, k: nat)
    requires OnlyInventory(a) && OnlyInventory(b) && OnlyProducts(p) && OnlyProducts(q) && j < |p| && k < |q|
    ensures CrossAt(a + p, b + q, |a| + j, |b| + k) <==> Disjoint(a, b) && CrossAt(p, q, j, k)
  {
    PartsSoFar(a, p, j);
    PartsSoFar(b, q, k);
    DisjointParts(a, p[..j], b, q[..k]);
  }

  lemma CrossOnlyAfter(a: seq<Resource>, p: seq<Resource>, b: seq<Resource>, q: seq<Resource>, j: nat, k: nat)
    requires OnlyInventory(a) && OnlyInventory(b) && OnlyProducts(p) && OnlyProducts(q) && Ordered(a) && Ordered(b)
    requires CrossAt(a + p, b + q, j, k)
    ensures |a| <= j && |b| <= k
  {
    PrefixPart(a, p, j, (b + q)[k]);
    PrefixPart(b, q, k, (a + p)[j]);
  }

  /** What an ordered part has taken comes before what it asks for; after it, only products. */
  lemma PrefixPart(a: seq<Resource>, p: seq<Resource>, j: nat, r: Resource)
    requires OnlyInventory(a) && OnlyProducts(p) && Ordered(a) && j < |a + p| && r in (a + p)[..j]
    ensures j < |a| ==> (a + p)[j].InventoryRow? && r.InventoryRow? && Before(r, (a + p)[j])
    ensures j >= |a| ==> (a + p)[j].ProductRow?
  {
    var m :| 0 <= m < j && (a + p)[m] == r;
    if j < |a| {
      assert a[m] in a && a[j] in a;
    } else {
      assert (a + p)[j] in p;
    }
  }

  /** Two admin cancels can deadlock exactly when their orders share no variant and the sets of their
      products come out in crossing orders. */
  lemma AdminCancelsDeadlockIff(vs: set<VariantId>, ps: seq<ProductId>, ws: set<VariantId>, qs: seq<ProductId>)
    ensures CanDeadlock(RestockPlan(vs, ps), RestockPlan(ws, qs)) <==>
            vs !! ws && Cross(ProductRows(ps), ProductRows(qs))
  {
    PlansCrossIff(InventoryRows(Ascending(vs)), ProductRows(ps), InventoryRows(Ascending(ws)), ProductRows(qs), vs, ws);
    CanDeadlockIff(RestockPlan(vs, ps), RestockPlan(ws, qs));
  }

  lemma PlansCrossIff(a: seq<Resource>, p: seq<Resource>, b: seq<Resource>, q: seq<Resource>,
                      vs: set<VariantId>, ws: set<VariantId>)
    requires a == InventoryRows(Ascending(vs)) && b == InventoryRows(Ascending(ws))
    requires OnlyProducts(p) && OnlyProducts(q)
    ensures Cross(a + p, b + q) <==> vs !! ws && Cross(p, q)
  {
    InventoryRowsOrdered(Ascending(vs));
    InventoryRowsOrdered(Ascending(ws));
    SharedRowsIff(vs, ws);
    PartsCrossIff(a, p, b, q);
  }

  lemma PartsCrossIff(a: seq<Resource>, p: seq<Resource>, b: seq<Resource>, q: seq<Resource>)
    requires OnlyInventory(a) && OnlyInventory(b) && OnlyProducts(p) && OnlyProducts(q) && Ordered(a) && Ordered(b)
    ensures Cross(a + p, b + q) <==> Disjoint(a, b) && Cross(p, q)
  {
    if Cross(a + p, b + q) {
      var j: nat, k: nat :| CrossAt(a + p, b + q, j, k);
      CrossOnlyAfter(a, p, b, q, j, k);
      CrossAfterIff(a, p, b, q, j - |a|, k - |b|);
    }
    if Disjoint(a, b) && Cross(p, q) {
      var j: nat, k: nat :| CrossAt(p, q, j, k);
      CrossAfterIff(a, p, b, q, j, k);
    }
  }

  lemma InventoryRowsHave(vs: set<VariantId>, r: Resource)
    ensures r in InventoryRows(Ascending(vs)) <==> r.InventoryRow? && r.variant in vs
  {
    var a := InventoryRows(Ascending(vs));
    if r.InventoryRow? && r.variant in vs {
      var j :| 0 <= j < |a| && Ascending(vs)[j] == r.variant;
      assert a[j] == r;
    }
  }

  lemma SharedRowsIff(vs: set<VariantId>, ws: set<VariantId>)
    ensures vs !! ws <==> Disjoint(InventoryRows(Ascending(vs)), InventoryRows(Ascending(ws)))
  {
    forall r: Resource
      ensures r in InventoryRows(Ascending(vs)) <==> r.InventoryRow? && r.variant in vs
      ensures r in InventoryRows(Ascending(ws)) <==> r.InventoryRow? && r.variant in ws
    {
      InventoryRowsHave(vs, r);
      InventoryRowsHave(ws, r);
    }
    if v :| v in vs && v in ws {
      assert InventoryRow(v) in InventoryRows(Ascending(vs)) && InventoryRow(v) in InventoryRows(Ascending(ws));
    }
  }

  /** Two products in opposite orders are enough. */
  lemma OppositeProductsDeadlock(vs: set<VariantId>, ws: set<VariantId>, x: ProductId, y: ProductId)
    requires vs !! ws && x != y
    ensures CanDeadlock(RestockPlan(vs, [x, y]), RestockPlan(ws, [y, x]))
  {
    assert CrossAt(ProductRows([x, y]), ProductRows([y, x]), 1, 1) by {
      assert ProductRows([x, y])[..1] == [ProductRow(x)] && ProductRows([y, x])[..1] == [ProductRow(y)];
    }
    AdminCancelsDeadlockIff(vs, [x, y], ws, [y, x]);
  }
}
