/** One online order under concurrency: its payment row, its order row and its units.  Captures, failures,
    admin cancels and admin moves read the rows without locking them, test what they read, and write later;
    nothing tests again.  What they write follows from what they read. */
module Races {
  import opened Tables
  import opened Inventory
  import opened CheckoutSessions
  import opened Lifecycle
  import opened Payments
  import opened AdminOrders
  import opened Linkage
  import opened Money
  import opened Fulfilment

  type TxnId = nat

  /** live: its session is being paid.  out: how often its units are out of stock. */
  datatype Account = Account(payment: GatewayStatus, refundDue: bool, paid: PaymentStatus, status: OrderStatus,
                             live: bool, out: int)

  datatype Kind = Capture | Failure | AdminCancel | Advance(move: Move)

  /** What a transaction has read of the order row. */
  datatype Seen = Seen(paid: PaymentStatus, status: OrderStatus)

  function Now(a: Account): Seen {
    Seen(a.paid, a.status)
  }

  /** A transaction that has read the payment row, and then the order row. */
  datatype Txn = Txn(kind: Kind, payment: GatewayStatus, order: Option<Seen>)

  datatype Sys = Sys(account: Account, txns: map<TxnId, Txn>)

  /** UserCancel and Backstop test and write while nobody can change what they test: one holds the session
      row, the other is one statement. */
  datatype Action =
    | Begin(txn: TxnId, kind: Kind)
    | Look(txn: TxnId)
    | Commit(txn: TxnId, inStock: bool)
    | UserCancel
    | Backstop

  /** The guards, on what was read. */
  predicate Passes(kind: Kind, payment: GatewayStatus, order: Seen) {
    match kind
    case Capture => payment != GatewayStatus.Captured
    case Failure => payment != GatewayStatus.Captured && order.paid != Paid
    case AdminCancel => order.status != OrderCancelled && order.status != Delivered
    case Advance(m) =>
      && order.status != TargetOf(m) && Allowed(order.status, TargetOf(m))
      && (m == Pack ==> order.paid == Paid) && (m.Ship? ==> m.hasMetadata)
  }

  predicate Enabled(s: Sys, a: Action) {
    match a
    case Begin(t, kind) => t !in s.txns && (kind == Capture ==> s.account.payment != GatewayStatus.Captured)
    case Look(t) =>
      t in s.txns && s.txns[t].order.None? &&
      Passes(s.txns[t].kind, s.txns[t].payment, Now(s.account))
    case Commit(t, _) => t in s.txns && s.txns[t].order.Some?
    case UserCancel => s.account.live
    case Backstop => s.account.live
  }

  /** A capture of a cancelled order, or without enough stock, is only flagged. */
  predicate Fulfils(order: Seen, inStock: bool) {
    order.status != OrderCancelled && inStock
  }

  /** The writes.  A column set to the value that was read is not written. */
  function Written(a: Account, kind: Kind, payment: GatewayStatus, order: Seen, inStock: bool): Account {
    match kind
    case Capture =>
      if Fulfils(order, inStock) then
        a.(payment := GatewayStatus.Captured, paid := if order.paid == Paid then a.paid else Paid, live := false,
           out := a.out + 1)
      else a.(payment := GatewayStatus.Captured, refundDue := true)
    case Failure =>
      a.(payment := if payment == GatewayFailed then a.payment else GatewayFailed,
         paid := if order.paid == Failed then a.paid else Failed, live := false)
    case AdminCancel =>
      if order.paid == Paid then a.(status := OrderCancelled, out := a.out - 1)
      else a.(status := OrderCancelled, live := false)
    case Advance(m) => a.(status := TargetOf(m))
  }

  function Dropped(a: Account): Account {
    if a.paid == Pending then a.(status := OrderCancelled, paid := Failed, live := false) else a.(live := false)
  }

  function TimedOut(a: Account): Account {
    a.(paid := if a.paid == Pending then Failed else a.paid, live := false)
  }

  function Next(s: Sys, a: Action): Sys
    requires Enabled(s, a)
  {
    match a
    case Begin(t, kind) => s.(txns := s.txns[t := Txn(kind, s.account.payment, None)])
    case Look(t) => s.(txns := s.txns[t := s.txns[t].(order := Some(Now(s.account)))])
    case Commit(t, inStock) =>
      var x := s.txns[t];
      Sys(Written(s.account, x.kind, x.payment, x.order.value, inStock), s.txns - {t})
    case UserCancel => s.(account := Dropped(s.account))
    case Backstop => s.(account := TimedOut(s.account))
  }

  // What should hold

  /** Units are out once for a paid order that stands; a captured payment is paid or owed back, never both;
      nothing unpaid has left the shop. */
  predicate Accounts(a: Account) {
    && a.out == (if a.paid == Paid && a.status != OrderCancelled then 1 else 0)
    && (a.payment == GatewayStatus.Captured <==> a.paid == Paid || a.refundDue)
    && !(a.paid == Paid && a.refundDue)
    && (LeftTheShop(a.status) ==> a.paid == Paid)
  }

  /** PAID, captures and refunds stay, and the status does not go back. */
  predicate Remembers(a: Account, b: Account) {
    && (a.paid == Paid ==> b.paid == Paid)
    && (a.payment == GatewayStatus.Captured ==> b.payment == GatewayStatus.Captured)
    && (a.refundDue ==> b.refundDue)
    && Forward(a.status, b.status)
  }

  predicate Keeps(a: Account, b: Account) {
    Accounts(b) && Remembers(a, b)
  }

  /** The test that is missing before the writes: the guards, on the rows as they are by then. */
  predicate StillGood(a: Account, kind: Kind, payment: GatewayStatus, order: Seen, inStock: bool) {
    match kind
    case Capture =>
      if Fulfils(order, inStock) then
        a.payment != GatewayStatus.Captured && a.status != OrderCancelled && order.paid != Paid
      else a.paid != Paid
    case Failure =>
      && (payment != GatewayFailed ==> a.payment != GatewayStatus.Captured)
      && (order.paid != Failed ==> a.paid != Paid)
    case AdminCancel =>
      a.status != Delivered && ((a.paid == Paid && a.status != OrderCancelled) <==> order.paid == Paid)
    case Advance(m) => a.paid == Paid && Forward(a.status, TargetOf(m))
  }

  /** A commit keeps the order's books exactly when its guards still hold of the rows it overwrites. */
  lemma CommitKeepsIff(a: Account, kind: Kind, payment: GatewayStatus, order: Seen, inStock: bool)
    requires Accounts(a) && Passes(kind, payment, order)
    ensures Keeps(a, Written(a, kind, payment, order, inStock)) <==> StillGood(a, kind, payment, order, inStock)
  {
  }

  // Runs

  ghost predicate Executes(s: Sys, actions: seq<Action>, r: Sys)
    decreases |actions|
  {
    if actions == [] then r == s
    else Enabled(s, actions[0]) && Executes(Next(s, actions[0]), actions[1..], r)
  }

  /** Every transaction that has read the order has passed its guards. */
  predicate Passed(s: Sys) {
    forall t <- s.txns | s.txns[t].order.Some? :: Passes(s.txns[t].kind, s.txns[t].payment, s.txns[t].order.value)
  }

  predicate CommitsGood(s: Sys, a: Action) {
    a.Commit? && a.txn in s.txns && s.txns[a.txn].order.Some? ==>
      var x := s.txns[a.txn];
      StillGood(s.account, x.kind, x.payment, x.order.value, a.inStock)
  }

  ghost predicate KeptThroughout(s: Sys, actions: seq<Action>)
    decreases |actions|
  {
    actions != [] && Enabled(s, actions[0]) ==>
      Keeps(s.account, Next(s, actions[0]).account) && KeptThroughout(Next(s, actions[0]), actions[1..])
  }

  ghost predicate GoodThroughout(s: Sys, actions: seq<Action>)
    decreases |actions|
  {
    actions != [] && Enabled(s, actions[0]) ==>
      CommitsGood(s, actions[0]) && GoodThroughout(Next(s, actions[0]), actions[1..])
  }

  lemma StepKeepsIff(s: Sys, a: Action)
    requires Accounts(s.account) && Passed(s) && Enabled(s, a)
    ensures Keeps(s.account, Next(s, a).account) <==> CommitsGood(s, a)
    ensures Passed(Next(s, a))
  {
    if a.Commit? {
      var x := s.txns[a.txn];
      CommitKeepsIff(s.account, x.kind, x.payment, x.order.value, a.inStock);
    }
  }

  /** Every step of a run keeps the books, and nothing is forgotten, exactly when every commit of it meets
      the rows as its guards need them. */
  lemma {:induction false} RunKeepsIff(s: Sys, actions: seq<Action>, r: Sys)
    requires Accounts(s.account) && Passed(s) && Executes(s, actions, r)
    ensures KeptThroughout(s, actions) <==> GoodThroughout(s, actions)
    decreases |actions|
  {
    if actions != [] {
      StepKeepsIff(s, actions[0]);
      if Keeps(s.account, Next(s, actions[0]).account) {
        RunKeepsIff(Next(s, actions[0]), actions[1..], r);
      }
    }
  }

  // One transaction at a time

  /** Everything read is still so. */
  predicate ReadsAreCurrent(s: Sys) {
    && Passed(s)
    && forall t <- s.txns ::
         && s.txns[t].payment == s.account.payment
         && (s.txns[t].kind == Capture ==> s.account.payment != GatewayStatus.Captured)
         && (s.txns[t].order.Some? ==> s.txns[t].order.value == Now(s.account))
  }

  /** An order is worked on by one transaction at a time. */
  predicate InTurn(s: Sys, a: Action) {
    a.Begin? || a.UserCancel? || a.Backstop? ==> s.txns == map[]
  }

  ghost predicate AllInTurn(s: Sys, actions: seq<Action>)
    decreases |actions|
  {
    actions != [] && Enabled(s, actions[0]) ==>
      InTurn(s, actions[0]) && AllInTurn(Next(s, actions[0]), actions[1..])
  }

  predicate AtMostOne(s: Sys) {
    forall t, u | t in s.txns && u in s.txns :: t == u
  }

  lemma CurrentIsGood(s: Sys, a: Action)
    requires Accounts(s.account) && ReadsAreCurrent(s) && Enabled(s, a)
    ensures CommitsGood(s, a)
  {
  }

  lemma TurnKeepsCurrent(s: Sys, a: Action)
    requires ReadsAreCurrent(s) && AtMostOne(s) && Enabled(s, a) && InTurn(s, a)
    ensures ReadsAreCurrent(Next(s, a)) && AtMostOne(Next(s, a))
  {
  }

  /** Whatever webhooks, cancels, moves and sweeps an order meets, one after another, its books are kept. */
  lemma {:induction false} OneAtATimeKeeps(s: Sys, actions: seq<Action>, r: Sys)
    requires Accounts(s.account) && ReadsAreCurrent(s) && AtMostOne(s)
    requires Executes(s, actions, r) && AllInTurn(s, actions)
    ensures Keeps(s.account, r.account) && GoodThroughout(s, actions)
    decreases |actions|
  {
    if actions != [] {
      var a, m := actions[0], Next(s, actions[0]);
      CurrentIsGood(s, a);
      StepKeepsIff(s, a);
      TurnKeepsCurrent(s, a);
      OneAtATimeKeeps(m, actions[1..], r);
      RemembersTwice(s.account, m.account, r.account);
    }
  }

  lemma RemembersTwice(a: Account, b: Account, c: Account)
    requires Remembers(a, b) && Remembers(b, c)
    ensures Remembers(a, c)
  {
  }

  // The same transactions, alone, are the services' operations

  /** What a payment, its order and its session come to. */
  function AccountOf(s: Shop, p: PaymentId): Account
    requires PaymentsResolve(s) && p < |s.payments|
  {
    var pay := s.payments[p];
    var order := s.orders[pay.order];
    var live := order.session.Some? && order.session.value < |s.sessions| &&
                s.sessions[order.session.value].status == Processing;
    Account(pay.status, pay.refundDue, order.paid, order.status, live,
            if order.paid == Paid && order.status != OrderCancelled then 1 else 0)
  }

  /** An online order of a shop whose books are in order. */
  ghost predicate Online(s: Shop, p: PaymentId) {
    && MoneyOk(s) && AllEarned(s) && p < |s.payments|
    && s.orders[s.payments[p].order].session.Some? && !s.orders[s.payments[p].order].cod
  }

  /** Its books are in order one by one, and out counts its units in the ledger. */
  lemma AccountIsLedger(s: Shop, p: PaymentId, v: VariantId)
    requires Online(s, p) && v in s.book.rows
    ensures var o, a := s.payments[p].order, AccountOf(s, p);
            Accounts(a) && Out(s.book.ledger, o, v) - In(s.book.ledger, o, v) == a.out * Total(s.orders[o].lines, v)
  {
    var o := s.payments[p].order;
    assert OrderOk(s.orders[o], s.sessions) && OrderEarned(s.orders[o]);
    assert Out(s.book.ledger, o, v) == Taken(s, o, v);
  }

  /** A capture whose reads are current is the sequential capture, and so on for the others. */
  lemma CaptureIs(s: Shop, p: PaymentId, event: Option<EventId>)
    requires Online(s, p) && Passes(Capture, s.payments[p].status, Now(AccountOf(s, p)))
    ensures var a, t := AccountOf(s, p), CaptureHandled(s, p, event).1;
            && PaymentsResolve(t) && p < |t.payments|
            && AccountOf(t, p) == Written(a, Capture, a.payment, Now(a), SaleOf(s, s.payments[p].order).Some?)
  {
    assert OrderOk(s.orders[s.payments[p].order], s.sessions);
  }

  lemma FailureIs(s: Shop, p: PaymentId, event: Option<EventId>)
    requires Online(s, p) && Passes(Failure, s.payments[p].status, Now(AccountOf(s, p)))
    ensures var a, t := AccountOf(s, p), MarkedFailed(s, p, event);
            && PaymentsResolve(t) && p < |t.payments|
            && AccountOf(t, p) == Written(a, Failure, a.payment, Now(a), true)
  {
    assert OrderOk(s.orders[s.payments[p].order], s.sessions);
  }

  lemma AdminCancelIs(s: Shop, p: PaymentId)
    requires Online(s, p) && Passes(AdminCancel, s.payments[p].status, Now(AccountOf(s, p)))
    ensures var a, t := AccountOf(s, p), OrderCancelledBy(s, s.payments[p].order).1;
            && PaymentsResolve(t) && p < |t.payments|
            && AccountOf(t, p) == Written(a, AdminCancel, a.payment, Now(a), true)
  {
    assert OrderOk(s.orders[s.payments[p].order], s.sessions);
  }

  lemma AdvanceIs(s: Shop, p: PaymentId, m: Move)
    requires Online(s, p) && Passes(Advance(m), s.payments[p].status, Now(AccountOf(s, p)))
    ensures var a, t := AccountOf(s, p), OrderMoved(s, s.payments[p].order, m).1;
            && PaymentsResolve(t) && p < |t.payments|
            && AccountOf(t, p) == Written(a, Advance(m), a.payment, Now(a), true)
  {
    assert OrderEarned(s.orders[s.payments[p].order]);
  }

  lemma UserCancelIs(s: Shop, p: PaymentId)
    requires Online(s, p) && AccountOf(s, p).live
    ensures var i := s.orders[s.payments[p].order].session.value;
            var t := CancelCheckout(s, i, s.sessions[i].user).1;
            PaymentsResolve(t) && p < |t.payments| && AccountOf(t, p) == Dropped(AccountOf(s, p))
  {
    assert OrderOk(s.orders[s.payments[p].order], s.sessions);
  }

  lemma BackstopIs(s: Shop, p: PaymentId)
    requires Online(s, p) && AccountOf(s, p).live
    requires Overdue(s.sessions[s.orders[s.payments[p].order].session.value], s.now, Processing)
    ensures var t := Sweep(s);
            PaymentsResolve(t) && p < |t.payments| && AccountOf(t, p) == TimedOut(AccountOf(s, p))
  {
  }

  // Two at a time

  lemma Then(s: Sys, a: Action, m: Sys, rest: seq<Action>, r: Sys)
    requires Enabled(s, a) && Next(s, a) == m && Executes(m, rest, r)
    ensures Executes(s, [a] + rest, r)
  {
    assert ([a] + rest)[1..] == rest;
  }

  /** x reads, y reads, y commits, x commits. */
  function Overlap(x: Kind, y: Kind): seq<Action> {
    [Begin(0, x)] + ([Look(0)] + ([Begin(1, y)] + ([Look(1)] + ([Commit(1, true)] + ([Commit(0, true)] + [])))))
  }

  function Overlapped(a: Account, x: Kind, y: Kind): Account {
    var seen := Now(a);
    Written(Written(a, y, a.payment, seen, true), x, a.payment, seen, true)
  }

  lemma OverlapRuns(a: Account, x: Kind, y: Kind)
    requires Passes(x, a.payment, Now(a)) && Passes(y, a.payment, Now(a))
    ensures Executes(Sys(a, map[]), Overlap(x, y), Sys(Overlapped(a, x, y), map[]))
  {
    var seen := Now(a);
    var begun, looked := Txn(x, a.payment, None), Txn(x, a.payment, Some(seen));
    var begun', looked' := Txn(y, a.payment, None), Txn(y, a.payment, Some(seen));
    var s0 := Sys(a, map[]);
    var s1 := Sys(a, map[0 := begun]);
    var s2 := Sys(a, map[0 := looked]);
    var s3 := Sys(a, map[0 := looked, 1 := begun']);
    var s4 := Sys(a, map[0 := looked, 1 := looked']);
    var s5 := Sys(Written(a, y, a.payment, seen, true), map[0 := looked]);
    var s6 := Sys(Overlapped(a, x, y), map[]);
    assert s4.txns - {1} == s5.txns && s5.txns - {0} == map[];
    assert Executes(s6, [], s6);
    Then(s5, Commit(0, true), s6, [], s6);
    var r5 := [Commit(0, true)] + [];
    Then(s4, Commit(1, true), s5, r5, s6);
    var r4 := [Commit(1, true)] + r5;
    Then(s3, Look(1), s4, r4, s6);
    var r3 := [Look(1)] + r4;
    Then(s2, Begin(1, y), s3, r3, s6);
    var r2 := [Begin(1, y)] + r3;
    Then(s1, Look(0), s2, r2, s6);
    Then(s0, Begin(0, x), s1, [Look(0)] + r2, s6);
  }

  predicate BooksFail(a: Account, x: Kind, y: Kind) {
    && Passes(x, a.payment, Now(a)) && Passes(y, a.payment, Now(a))
    && !Keeps(Written(a, y, a.payment, Now(a), true), Overlapped(a, x, y))
  }

  /** Which overlaps go wrong: y's commit takes away what x's guards have found. */
  predicate Conflict(a: Account, x: Kind, y: Kind) {
    match (x, y)
    case (Capture, Capture) => a.status != OrderCancelled
    case (Capture, AdminCancel) => true
    case (AdminCancel, Capture) => true
    case (Failure, Capture) => a.payment != GatewayFailed || (a.paid != Failed && a.status != OrderCancelled)
    case (AdminCancel, AdminCancel) => a.paid == Paid
    case (AdminCancel, Advance(m)) => m == Deliver
    case (Advance(_), AdminCancel) => true
    case (_, _) => false
  }

  /** The whole table: of any two transactions that both pass their guards and overlap, the second commit
      breaks the books, or forgets something, exactly in these cases. */
  lemma OverlapFailsIff(a: Account, x: Kind, y: Kind)
    requires Accounts(a)
    requires Passes(x, a.payment, Now(a)) && Passes(y, a.payment, Now(a))
    ensures Keeps(a, Written(a, y, a.payment, Now(a), true))
    ensures BooksFail(a, x, y) <==> Conflict(a, x, y)
  {
    CommitKeepsIff(a, y, a.payment, Now(a), true);
    CommitKeepsIff(Written(a, y, a.payment, Now(a), true), x, a.payment, Now(a), true);
  }

  /** An order placed and being paid for. */
  predicate BeingPaid(a: Account) {
    a == Account(Created, false, Pending, Placed, true, 0)
  }

  predicate PaidFor(a: Account) {
    a == Account(GatewayStatus.Captured, false, Paid, Placed, false, 1)
  }

  /** A failure that overlaps a capture erases it: units out, money taken, payment and order failed. */
  lemma FailureErasesCapture(a: Account)
    requires BeingPaid(a)
    ensures BooksFail(a, Failure, Capture)
    ensures var r := Overlapped(a, Failure, Capture);
            r.out == 1 && r.paid == Failed && r.payment == GatewayFailed && !r.refundDue
  {
  }

  /** An admin's cancel and a capture that overlap, in either order: the order is cancelled and paid, and its
      units are not put back. */
  lemma CancelAndCaptureMiss(a: Account)
    requires BeingPaid(a)
    ensures BooksFail(a, AdminCancel, Capture) && BooksFail(a, Capture, AdminCancel)
    ensures forall r | r in {Overlapped(a, AdminCancel, Capture), Overlapped(a, Capture, AdminCancel)} ::
              r.status == OrderCancelled && r.paid == Paid && r.out == 1 && !r.refundDue
  {
  }

  /** Two admin cancels of a paid order that overlap put its units back twice. */
  lemma CancelsRestockTwice(a: Account)
    requires PaidFor(a)
    ensures BooksFail(a, AdminCancel, AdminCancel) && Overlapped(a, AdminCancel, AdminCancel).out == -1
  {
  }

  /** A packing that overlaps a cancel takes the order out of cancelled, after its units went back. */
  lemma PackingRevives(a: Account)
    requires PaidFor(a)
    ensures BooksFail(a, Advance(Pack), AdminCancel)
    ensures var r := Overlapped(a, Advance(Pack), AdminCancel); r.status == Packed && r.out == 0
  {
  }

  /** A user's cancel between a capture's reads and its commit is missed as well. */
  lemma UserCancelIsMissed(a: Account) returns (r: Account)
    requires BeingPaid(a)
    ensures Executes(Sys(a, map[]), [Begin(0, Capture)] + ([Look(0)] + ([UserCancel] + ([Commit(0, true)] + []))),
                     Sys(r, map[]))
    ensures r.status == OrderCancelled && r.paid == Paid && r.out == 1 && !r.refundDue
  {
    var seen := Now(a);
    var looked := Txn(Capture, a.payment, Some(seen));
    var s0, s1 := Sys(a, map[]), Sys(a, map[0 := Txn(Capture, a.payment, None)]);
    var s2, s3 := Sys(a, map[0 := looked]), Sys(Dropped(a), map[0 := looked]);
    r := Written(Dropped(a), Capture, a.payment, seen, true);
    var s4 := Sys(r, map[]);
    assert s3.txns - {0} == map[];
    assert Executes(s4, [], s4);
    Then(s3, Commit(0, true), s4, [], s4);
    Then(s2, UserCancel, s3, [Commit(0, true)] + [], s4);
    Then(s1, Look(0), s2, [UserCancel] + ([Commit(0, true)] + []), s4);
    Then(s0, Begin(0, Capture), s1, [Look(0)] + ([UserCancel] + ([Commit(0, true)] + [])), s4);
  }

  /** The guards are the services' own: a transaction passes exactly when its operation would act. */
  lemma PassesIff(s: Shop, p: PaymentId, m: Move, event: Option<EventId>)
    requires Online(s, p)
    ensures var o, a := s.payments[p].order, AccountOf(s, p);
            && (Passes(Capture, a.payment, Now(a)) <==> CaptureHandled(s, p, event).0 != AlreadyCaptured)
            && (Passes(Failure, a.payment, Now(a)) <==> a.payment != GatewayStatus.Captured && a.paid != Paid)
            && (Passes(AdminCancel, a.payment, Now(a)) <==> OrderCancelledBy(s, o).0 == Moved)
            && (Passes(Advance(m), a.payment, Now(a)) <==> OrderMoved(s, o, m).0 == Moved)
  {
  }
}
