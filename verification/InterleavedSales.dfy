/** How often a session is sold, and what goes wrong: its units leave stock at most once in every
    interleaving in which its captures do not overlap; two captures that do, and a pay that gets its locks
    after its hold has lapsed, can always go wrong. */
module InterleavedSales {
  import opened Tables
  import opened Ordering
  import opened Inventory
  import opened Holds
  import opened CheckoutSessions
  import opened CheckoutPayments
  import opened Lifecycle
  import opened Interleaving

  // At most one sale per session

  /** A capture of a session begins only while no other capture of it is running. */
  predicate Single(s: Sys, a: Action) {
    a.BeginSale? ==> forall t <- s.txns | s.txns[t].kind == SaleTxn :: s.txns[t].session != a.session
  }

  ghost predicate SingleRun(s: Sys, actions: seq<Action>)
    decreases |actions|
  {
    actions == [] ||
    (Enabled(s, actions[0]) && Single(s, actions[0]) && SingleRun(Next(s, actions[0]), actions[1..]))
  }

  predicate SoldOnce(s: Sys, i: SessionId) {
    SalesOf(s, i) <= 1 && (SalesOf(s, i) == 1 ==> i < |s.sessions| && !Live(s.sessions[i].status))
  }

  /** A running checkout or pay works on an active session, a running sale on one not yet sold. */
  predicate Rightful(s: Sys, x: Txn) {
    && (LocksSession(x.kind) ==> x.session < |s.sessions| && s.sessions[x.session].status == Active)
    && (x.kind == SaleTxn ==>
          x.session < |s.sessions| && s.sessions[x.session].status != Active && SalesOf(s, x.session) == 0)
  }

  predicate Apart(x: Txn, y: Txn) {
    x.session == y.session ==>
      !(LocksSession(x.kind) && LocksSession(y.kind)) && !(x.kind == SaleTxn && y.kind == SaleTxn)
  }

  ghost predicate Sole(s: Sys) {
    && (forall i: SessionId :: SoldOnce(s, i))
    && (forall t <- s.txns :: Rightful(s, s.txns[t]))
    && (forall t, u | t in s.txns && u in s.txns && t != u :: Apart(s.txns[t], s.txns[u]))
  }

  lemma RestIsSole(s: Sys)
    requires s.txns == map[] && s.sales == map[]
    ensures Sole(s)
  {
  }

  /** Statuses and sales stay; running transactions keep kind and session, or end. */
  ghost predicate Bystander(s: Sys, r: Sys) {
    && r.sales == s.sales && |s.sessions| <= |r.sessions|
    && (forall i | 0 <= i < |s.sessions| :: r.sessions[i].status == s.sessions[i].status)
    && (forall t <- r.txns ::
          t in s.txns && r.txns[t].kind == s.txns[t].kind && r.txns[t].session == s.txns[t].session)
  }

  lemma BystanderSole(s: Sys, r: Sys)
    requires Sole(s) && Bystander(s, r)
    ensures Sole(r)
  {
    forall i: SessionId
      ensures SoldOnce(r, i)
    {
      assert SoldOnce(s, i);
    }
    forall t, u | t in r.txns && u in r.txns && t != u
      ensures Apart(r.txns[t], r.txns[u])
    {
      assert Apart(s.txns[t], s.txns[u]);
    }
    forall t <- r.txns
      ensures Rightful(r, r.txns[t])
    {
      assert Rightful(s, s.txns[t]);
    }
  }

  lemma BeginSole(s: Sys, t: TxnId, kind: Kind, i: SessionId, lines: seq<Line>, want: seq<VariantId>)
    requires Sole(s) && t !in s.txns
    requires Rightful(s, Txn(kind, i, lines, want, 0, false, s.now))
    requires LocksSession(kind) ==> !SessionLocked(s, i)
    requires kind == SaleTxn ==> Single(s, BeginSale(t, i))
    ensures Sole(Begin(s, t, kind, i, lines, want))
  {
    var r := Begin(s, t, kind, i, lines, want);
    forall j: SessionId
      ensures SoldOnce(r, j)
    {
      assert SoldOnce(s, j);
    }
    forall u <- r.txns
      ensures Rightful(r, r.txns[u])
    {
      assert u != t ==> Rightful(s, s.txns[u]);
    }
    forall u, w | u in r.txns && w in r.txns && u != w
      ensures Apart(r.txns[u], r.txns[w])
    {
      if u != t && w != t {
        assert Apart(s.txns[u], s.txns[w]);
      }
    }
  }

  lemma BeginningSole(s: Sys, a: Action)
    requires Sole(s) && Enabled(s, a) && Single(s, a)
    requires a.BeginCheckout? || a.BeginPay? || a.BeginSale? || a.BeginAdjust?
    ensures Sole(Next(s, a))
  {
    match a
    case BeginCheckout(t, i, cart) => BeginSole(s, t, CheckoutTxn, i, cart, Ascending(VariantsOf(cart)));
    case BeginPay(t, i) =>
      BeginSole(s, t, PayTxn, i, LinesOf(s.sessions[i]), Ascending(s.sessions[i].rows.Keys));
    case BeginSale(t, i) =>
      assert SoldOnce(s, i);
      BeginSole(s, t, SaleTxn, i, LinesOf(s.sessions[i]), Ascending(s.sessions[i].rows.Keys));
    case BeginAdjust(t, v, target) => BeginSole(s, t, AdjustTxn(target), 0, [], [v]);
  }

  /** Ending a hold, or a sweep, touches no session that a checkout or a pay works on. */
  lemma EndingSole(s: Sys, i: SessionId, sess: Session)
    requires Sole(s) && i < |s.sessions| && !SessionLocked(s, i)
    requires sess.status == s.sessions[i].status || !Live(sess.status)
    ensures Sole(s.(sessions := s.sessions[i := sess]))
  {
    var r := s.(sessions := s.sessions[i := sess]);
    forall u <- r.txns
      ensures Rightful(r, r.txns[u])
    {
      assert Rightful(s, s.txns[u]);
    }
    forall j: SessionId
      ensures SoldOnce(r, j)
    {
      assert SoldOnce(s, j);
    }
  }

  /** What the commit of t leaves: only its own session and that session's sales change. */
  ghost predicate Settles(s: Sys, t: TxnId, r: Sys) {
    && t in s.txns && r.txns == s.txns - {t} && |r.sessions| == |s.sessions|
    && (forall i | 0 <= i < |s.sessions| && i != s.txns[t].session :: r.sessions[i] == s.sessions[i])
    && (forall i: SessionId | i != s.txns[t].session :: SalesOf(r, i) == SalesOf(s, i))
  }

  lemma OwnSole(s: Sys, t: TxnId, r: Sys)
    requires Sole(s) && Settles(s, t, r) && (s.txns[t].kind == SaleTxn || LocksSession(s.txns[t].kind))
    requires SoldOnce(r, s.txns[t].session)
    requires s.txns[t].kind == SaleTxn ==> r.sessions[s.txns[t].session].status == Completed
    requires LocksSession(s.txns[t].kind) ==> r.sales == s.sales
    ensures Sole(r)
  {
    forall u <- r.txns
      ensures Rightful(r, r.txns[u])
    {
      assert Rightful(s, s.txns[u]) && Rightful(s, s.txns[t]) && Apart(s.txns[u], s.txns[t]);
    }
    forall u, w | u in r.txns && w in r.txns && u != w
      ensures Apart(r.txns[u], r.txns[w])
    {
      assert Apart(s.txns[u], s.txns[w]);
    }
    forall i: SessionId
      ensures SoldOnce(r, i)
    {
      assert SoldOnce(s, i);
    }
  }

  lemma CommitSettles(s: Sys, t: TxnId)
    requires Enabled(s, Commit(t)) && s.txns[t].session < |s.sessions|
    ensures var x, r := s.txns[t], Next(s, Commit(t));
            && Settles(s, t, r)
            && SalesOf(r, x.session) == SalesOf(s, x.session) + (if x.kind == SaleTxn then 1 else 0)
            && (x.kind == SaleTxn ==> r.sessions[x.session].status == Completed)
            && (x.kind != SaleTxn ==> r.sales == s.sales)
  {
  }

  lemma CommitSole(s: Sys, t: TxnId)
    requires Sole(s) && Enabled(s, Commit(t))
    ensures Sole(Next(s, Commit(t)))
  {
    var x, r := s.txns[t], Next(s, Commit(t));
    if x.kind.AdjustTxn? {
      BystanderSole(s, r);
    } else {
      assert Rightful(s, x) && SoldOnce(s, x.session);
      CommitSettles(s, t);
      OwnSole(s, t, r);
    }
  }

  lemma StepSole(s: Sys, a: Action)
    requires Sole(s) && Enabled(s, a) && Single(s, a)
    ensures Sole(Next(s, a))
  {
    if a.Commit? {
      CommitSole(s, a.txn);
    } else if a.BeginCheckout? || a.BeginPay? || a.BeginSale? || a.BeginAdjust? {
      BeginningSole(s, a);
    } else if a.Sweep? {
      var sess := s.sessions[a.session];
      EndingSole(s, a.session, Lapsed(Lapsed(sess, s.now, Active, Expired), s.now, Processing, Cancelled));
    } else if a.EndHold? {
      EndingSole(s, a.session, Closed(s.sessions[a.session], Cancelled));
    } else {
      BystanderSole(s, Next(s, a));
    }
  }

  /** In every interleaving in which a session's captures do not overlap, its units leave stock at most
      once: however late the captures, however often repeated, whatever else runs beside them. */
  lemma {:induction false} SingleCapturesSellOnce(s: Sys, actions: seq<Action>, r: Sys, i: SessionId)
    requires Sole(s) && SingleRun(s, actions) && Executes(s, actions, r)
    ensures SalesOf(r, i) <= 1
    decreases |actions|
  {
    if actions != [] {
      StepSole(s, actions[0]);
      SingleCapturesSellOnce(Next(s, actions[0]), actions[1..], r, i);
    } else {
      assert SoldOnce(s, i);
    }
  }

  // Running one transaction with nobody else holding locks

  lemma {:induction false} ExecutesThen(s: Sys, a: seq<Action>, m: Sys, b: seq<Action>, r: Sys)
    requires Executes(s, a, m) && Executes(m, b, r)
    ensures Executes(s, a + b, r)
    decreases |a|
  {
    if a == [] {
      assert a + b == b;
    } else {
      ExecutesThen(Next(s, a[0]), a[1..], m, b, r);
      assert (a + b)[1..] == a[1..] + b;
    }
  }

  function Locking(t: TxnId, n: nat): seq<Action> {
    seq(n, _ => Lock(t))
  }

  /** The first k locks of want, all t's. */
  function FirstLocks(want: seq<VariantId>, k: nat, t: TxnId): (locks: map<VariantId, TxnId>)
    requires k <= |want|
    ensures forall v <- locks :: locks[v] == t && exists i | 0 <= i < k :: want[i] == v
  {
    if k == 0 then map[] else FirstLocks(want, k - 1, t)[want[k - 1] := t]
  }

  /** Whatever t still wants is free. */
  predicate Unblocked(s: Sys, t: TxnId) {
    t in s.txns &&
    var x := s.txns[t];
    && Increasing(x.want) && x.locked <= |x.want| && !x.checked
    && (forall k | 0 <= k < x.locked :: x.want[k] in s.locks && s.locks[x.want[k]] == t)
    && (forall k | x.locked <= k < |x.want| :: x.want[k] !in s.locks)
  }

  /** t with its first k locks, and whatever the others hold. */
  function LockedState(s: Sys, t: TxnId, k: nat): Sys
    requires t in s.txns && k <= |s.txns[t].want|
  {
    s.(locks := s.locks + FirstLocks(s.txns[t].want, k, t), txns := s.txns[t := s.txns[t].(locked := k)])
  }

  lemma LockIs(s: Sys, t: TxnId)
    requires t in s.txns && s.txns[t].locked < |s.txns[t].want| && s.txns[t].want[s.txns[t].locked] !in s.locks
    ensures Enabled(s, Lock(t))
    ensures var x := s.txns[t];
            Next(s, Lock(t)) ==
            s.(locks := s.locks[x.want[x.locked] := t], txns := s.txns[t := x.(locked := x.locked + 1)])
  {
  }

  lemma OneMoreLock(locks: map<VariantId, TxnId>, want: seq<VariantId>, k: nat, t: TxnId)
    requires Increasing(want) && k < |want| && want[k] !in locks
    ensures want[k] !in locks + FirstLocks(want, k, t)
    ensures locks + FirstLocks(want, k + 1, t) == (locks + FirstLocks(want, k, t))[want[k] := t]
  {
  }

  lemma OneMoreIs(s: Sys, t: TxnId, k: nat)
    requires t in s.txns && Increasing(s.txns[t].want) && k < |s.txns[t].want| && s.txns[t].want[k] !in s.locks
    ensures var m, x := LockedState(s, t, k), s.txns[t];
            && x.want[k] !in m.locks && m.txns[t] == x.(locked := k)
            && LockedState(s, t, k + 1)
               == m.(locks := m.locks[x.want[k] := t], txns := m.txns[t := m.txns[t].(locked := k + 1)])
  {
    var x := s.txns[t];
    OneMoreLock(s.locks, x.want, k, t);
    SetAgain(s.txns, t, x.(locked := k), x.(locked := k + 1));
  }

  lemma SetAgain(txns: map<TxnId, Txn>, t: TxnId, x: Txn, y: Txn)
    ensures txns[t := x][t := y] == txns[t := y]
  {
  }

  lemma LocksOneMore(s: Sys, t: TxnId, k: nat)
    requires t in s.txns && Increasing(s.txns[t].want) && k < |s.txns[t].want| && s.txns[t].want[k] !in s.locks
    ensures Enabled(LockedState(s, t, k), Lock(t))
    ensures Next(LockedState(s, t, k), Lock(t)) == LockedState(s, t, k + 1)
  {
    OneMoreIs(s, t, k);
    LockIs(LockedState(s, t, k), t);
  }

  lemma ExecutesSnoc(s: Sys, a: seq<Action>, m: Sys, x: Action)
    requires Executes(s, a, m) && Enabled(m, x)
    ensures Executes(s, a + [x], Next(m, x))
  {
    assert [x][1..] == [];
    assert Executes(Next(m, x), [x][1..], Next(m, x));
    ExecutesThen(s, a, m, [x], Next(m, x));
  }

  lemma LockedAlready(s: Sys, t: TxnId)
    requires Unblocked(s, t)
    ensures LockedState(s, t, s.txns[t].locked) == s
  {
    var x := s.txns[t];
    assert s.locks + FirstLocks(x.want, x.locked, t) == s.locks;
    assert s.txns[t := x.(locked := x.locked)] == s.txns;
  }

  predicate Leads(s: Sys, x: Action, r: Sys) {
    Enabled(s, x) && Next(s, x) == r
  }

  /** From s to r by repeating x, through these states. */
  ghost predicate Passes(s: Sys, states: seq<Sys>, x: Action, actions: seq<Action>, r: Sys) {
    && |states| == |actions| + 1 && states[0] == s && states[|actions|] == r
    && forall k | 0 <= k < |actions| :: actions[k] == x && Leads(states[k], x, states[k + 1])
  }

  lemma {:induction false} Repeated(s: Sys, states: seq<Sys>, x: Action, actions: seq<Action>, r: Sys)
    requires Passes(s, states, x, actions, r)
    ensures Executes(s, actions, r)
    decreases |states|
  {
    if |states| > 1 {
      Repeated(states[1], states[1..], x, actions[1..], r);
      assert Leads(states[0], x, states[1]);
    }
  }

  function LockedStates(s: Sys, t: TxnId, j: nat, k: nat): seq<Sys>
    requires t in s.txns && j <= k <= |s.txns[t].want|
  {
    seq(k - j + 1, i requires 0 <= i <= k - j => LockedState(s, t, j + i))
  }

  lemma LocksLead(s: Sys, t: TxnId, j: nat, k: nat, i: nat)
    requires t in s.txns && j <= i < k <= |s.txns[t].want| && Increasing(s.txns[t].want)
    requires s.txns[t].want[i] !in s.locks
    ensures Leads(LockedStates(s, t, j, k)[i - j], Lock(t), LockedStates(s, t, j, k)[i - j + 1])
  {
    LocksOneMore(s, t, i);
  }

  lemma LocksAllLead(s: Sys, t: TxnId, j: nat, k: nat, states: seq<Sys>)
    requires t in s.txns && j <= k <= |s.txns[t].want| && Increasing(s.txns[t].want)
    requires forall i | j <= i < |s.txns[t].want| :: s.txns[t].want[i] !in s.locks
    requires states == LockedStates(s, t, j, k)
    ensures forall i | 0 <= i < k - j :: Leads(states[i], Lock(t), states[i + 1])
  {
    forall i | 0 <= i < k - j
      ensures Leads(states[i], Lock(t), states[i + 1])
    {
      LocksLead(s, t, j, k, j + i);
    }
  }

  lemma LeadsPass(s: Sys, states: seq<Sys>, t: TxnId, n: nat, r: Sys)
    requires |states| == n + 1 && states[0] == s && states[n] == r
    requires forall i | 0 <= i < n :: Leads(states[i], Lock(t), states[i + 1])
    ensures Passes(s, states, Lock(t), Locking(t, n), r)
  {
  }

  lemma LockedStatesEnds(s: Sys, t: TxnId, j: nat, k: nat)
    requires t in s.txns && j <= k <= |s.txns[t].want|
    ensures var states := LockedStates(s, t, j, k);
            && |states| == k - j + 1 && states[0] == LockedState(s, t, j) && states[k - j] == LockedState(s, t, k)
  {
  }

  lemma StatesExecute(s: Sys, states: seq<Sys>, t: TxnId, n: nat, r: Sys)
    requires |states| == n + 1 && states[0] == s && states[n] == r
    requires forall i | 0 <= i < n :: Leads(states[i], Lock(t), states[i + 1])
    ensures Executes(s, Locking(t, n), r)
  {
    LeadsPass(s, states, t, n, r);
    Repeated(s, states, Lock(t), Locking(t, n), r);
  }

  lemma LocksAlone(s: Sys, t: TxnId, j: nat, k: nat)
    requires t in s.txns && j <= k <= |s.txns[t].want| && LockedState(s, t, j) == s && Increasing(s.txns[t].want)
    requires forall i | j <= i < |s.txns[t].want| :: s.txns[t].want[i] !in s.locks
    ensures Executes(s, Locking(t, k - j), LockedState(s, t, k))
  {
    LockedStatesEnds(s, t, j, k);
    LocksAllLead(s, t, j, k, LockedStates(s, t, j, k));
    StatesExecute(s, LockedStates(s, t, j, k), t, k - j, LockedState(s, t, k));
  }

  /** The rest of t: its missing locks, its test, its commit. */
  function Script(s: Sys, t: TxnId): seq<Action>
    requires t in s.txns && s.txns[t].locked <= |s.txns[t].want|
  {
    Locking(t, |s.txns[t].want| - s.txns[t].locked) + [Check(t), Commit(t)]
  }

  /** What t leaves when it runs to its end. */
  function Finished(s: Sys, t: TxnId): Sys
    requires t in s.txns
  {
    Released(Written(s, s.txns[t]), t)
  }

  /** If its test passes, a transaction that nobody blocks runs to its commit. */
  lemma RunsAlone(s: Sys, t: TxnId)
    requires Unblocked(s, t) && CheckPasses(s, s.txns[t])
    ensures Executes(s, Script(s, t), Finished(s, t))
  {
    var n, j := |s.txns[t].want|, s.txns[t].locked;
    LockedAlready(s, t);
    LocksAlone(s, t, j, n);
    LockedEnds(s, t);
    ExecutesThen(s, Locking(t, n - j), LockedState(s, t, n), [Check(t), Commit(t)], Finished(s, t));
  }

  lemma LockedChecks(s: Sys, t: TxnId, m: Sys, c: Sys)
    requires t in s.txns && !s.txns[t].checked && CheckPasses(s, s.txns[t])
    requires m == LockedState(s, t, |s.txns[t].want|)
    requires c == m.(txns := m.txns[t := m.txns[t].(checked := true)])
    ensures Leads(m, Check(t), c)
  {
    assert CheckPasses(m, m.txns[t]);
  }

  lemma LockedEnds(s: Sys, t: TxnId)
    requires Unblocked(s, t) && CheckPasses(s, s.txns[t])
    ensures Executes(LockedState(s, t, |s.txns[t].want|), [Check(t), Commit(t)], Finished(s, t))
  {
    var m := LockedState(s, t, |s.txns[t].want|);
    var c := m.(txns := m.txns[t := m.txns[t].(checked := true)]);
    LockedChecks(s, t, m, c);
    FinishedIs(s, t, m, c);
    EndsAlone(m, t, c, Finished(s, t));
  }

  lemma EndsAlone(m: Sys, t: TxnId, c: Sys, r: Sys)
    requires Leads(m, Check(t), c) && c.txns[t].checked && r == Released(Written(c, c.txns[t]), t)
    ensures Executes(m, [Check(t), Commit(t)], r)
  {
    assert Executes(r, [], r);
    Prepend(c, Commit(t), r, [], r);
    Prepend(m, Check(t), c, [Commit(t)] + [], r);
    assert [Check(t)] + ([Commit(t)] + []) == [Check(t), Commit(t)];
  }

  /** What a transaction writes does not depend on anybody's locks or progress. */
  lemma WritesTheSame(s: Sys, x: Txn, c: Sys, y: Txn)
    requires c == s.(txns := c.txns, locks := c.locks) && y == x.(locked := y.locked, checked := y.checked)
    ensures Written(c, y) == Written(s, x).(txns := c.txns, locks := c.locks)
  {
  }

  /** With all its locks or none, the others keep theirs. */
  lemma OthersLocks(locks: map<VariantId, TxnId>, want: seq<VariantId>, k: nat, t: TxnId)
    requires k <= |want| && forall v <- want :: v in locks ==> locks[v] == t
    ensures var all := locks + FirstLocks(want, k, t);
            (map v | v in all && all[v] != t :: all[v]) == (map v | v in locks && locks[v] != t :: locks[v])
  {
  }

  lemma FinishedIs(s: Sys, t: TxnId, m: Sys, c: Sys)
    requires t in s.txns && forall v <- s.txns[t].want :: v in s.locks ==> s.locks[v] == t
    requires m == LockedState(s, t, |s.txns[t].want|)
    requires c == m.(txns := m.txns[t := m.txns[t].(checked := true)])
    ensures Released(Written(c, c.txns[t]), t) == Finished(s, t)
  {
    assert c.txns - {t} == s.txns - {t};
    OthersLocks(s.locks, s.txns[t].want, |s.txns[t].want|, t);
    WritesTheSame(s, s.txns[t], c, c.txns[t]);
  }

  // Late pays

  /** m is s with everybody but p gone. */
  ghost predicate LeftTo(s: Sys, p: TxnId, m: Sys) {
    && p in s.txns && m == s.(txns := map[p := s.txns[p]], locks := m.locks)
    && (forall v <- m.locks :: m.locks[v] == p)
    && (forall v: VariantId :: v in m.locks <==> v in s.locks && s.locks[v] == p)
  }

  lemma AloneAlready(s: Sys, p: TxnId)
    requires LocksOk(s) && p in s.txns && forall u <- s.txns :: u == p
    ensures LeftTo(s, p, s)
  {
    assert s.txns == map[p := s.txns[p]];
  }

  lemma OneLeaves(s: Sys, p: TxnId, u: TxnId, m: Sys)
    requires p in s.txns && u in s.txns && u != p && LeftTo(Released(s, u), p, m)
    ensures LeftTo(s, p, m) && |Released(s, u).txns| < |s.txns|
  {
    assert Released(s, u).txns.Keys == s.txns.Keys - {u};
  }

  lemma {:induction false} OthersGone(s: Sys, a: Sys, p: TxnId, u: TxnId) returns (script: seq<Action>, m: Sys)
    requires p in s.txns && u in s.txns && u != p && a == Released(s, u) && Safe(a)
    ensures Executes(s, script, m) && Safe(m) && LeftTo(s, p, m)
    decreases |s.txns|, 0
  {
    assert a.txns.Keys == s.txns.Keys - {u};
    var rest;
    rest, m := OthersAbort(a, p);
    OneLeaves(s, p, u, m);
    Prepend(s, Abort(u), a, rest, m);
    script := [Abort(u)] + rest;
  }

  lemma Prepend(s: Sys, x: Action, a: Sys, rest: seq<Action>, r: Sys)
    requires Enabled(s, x) && Next(s, x) == a && Executes(a, rest, r)
    ensures Executes(s, [x] + rest, r)
  {
    assert ([x] + rest)[1..] == rest;
  }

  /** Everybody but p can give up, which frees all rows but p's. */
  lemma {:induction false} OthersAbort(s: Sys, p: TxnId) returns (script: seq<Action>, m: Sys)
    requires Safe(s) && p in s.txns
    ensures Executes(s, script, m) && Safe(m) && LeftTo(s, p, m)
    decreases |s.txns|, 1
  {
    if forall u <- s.txns :: u == p {
      AloneAlready(s, p);
      script, m := [], s;
    } else {
      var u :| u in s.txns && u != p;
      ReleaseSafe(s, u);
      script, m := OthersGone(s, Released(s, u), p, u);
    }
  }

  lemma {:induction false} HeldBefore(ss: seq<Session>, v: VariantId, now: int, own: SessionId)
    requires |ss| <= own
    ensures HeldByOthers(ss, v, now, own) == Held(ss, v, now)
  {
    OwnAndOthers(ss, v, now, own);
  }

  /** The state in which a new user's checkout of the last room units of v waits for its lock. */
  function Arrived(s: Sys, b: TxnId, user: UserId, v: VariantId, room: Qty): Sys {
    Begin(WithNewcomer(s, user), b, CheckoutTxn, |s.sessions|, [Line(v, room)], Ascending(VariantsOf([Line(v, room)])))
  }

  lemma Arrives(s: Sys, b: TxnId, user: UserId, v: VariantId, room: Qty)
    requires Safe(s) && b !in s.txns
    ensures Executes(s, [NewSession(user), BeginCheckout(b, |s.sessions|, [Line(v, room)])],
                     Arrived(s, b, user, v, room))
  {
    var cart := [Line(v, room)];
    var m := Next(s, NewSession(user));
    forall t <- m.txns | LocksSession(m.txns[t].kind)
      ensures m.txns[t].session != |s.sessions|
    {
      assert TxnOk(s, t);
    }
    var begin := BeginCheckout(b, |s.sessions|, cart);
    TwoThen(s, NewSession(user), m, begin, Arrived(s, b, user, v, room), [], Arrived(s, b, user, v, room));
    assert [NewSession(user), begin] + [] == [NewSession(user), begin];
  }

  /** m is s with v's shelf fully held, and otherwise at most with sessions of other users added. */
  ghost predicate Shelved(s: Sys, m: Sys, v: VariantId) {
    && m == s.(sessions := m.sessions) && |s.sessions| <= |m.sessions|
    && m.sessions[..|s.sessions|] == s.sessions
    && Held(m.sessions, v, m.now) == StockIn(m, v)
  }

  function Taker(user: UserId, v: VariantId, room: Qty, expires: int): Session {
    Session(user, Active, expires, RowsFor([Line(v, room)], expires))
  }

  lemma TakerTakes(s: Sys, user: UserId, v: VariantId, room: Qty)
    requires Held(s.sessions, v, s.now) + room == StockIn(s, v)
    ensures Shelved(s, s.(sessions := s.sessions + [Taker(user, v, room, s.now + RESERVATION_TTL)]), v)
  {
    var sess := Taker(user, v, room, s.now + RESERVATION_TTL);
    HeldAppended(s.sessions, v, s.now, sess);
    var cart := [Line(v, room)];
    assert cart[0].variant == v;
    assert (s.sessions + [sess])[..|s.sessions|] == s.sessions;
  }

  lemma TakerFinishes(s: Sys, b: TxnId, user: UserId, v: VariantId, room: Qty)
    requires b !in s.txns && LocksOk(s)
    ensures Finished(Arrived(s, b, user, v, room), b)
            == s.(sessions := s.sessions + [Taker(user, v, room, s.now + RESERVATION_TTL)])
  {
    var a := Arrived(s, b, user, v, room);
    assert a.txns - {b} == s.txns;
    assert (map w | w in s.locks && s.locks[w] != b :: s.locks[w]) == s.locks;
    LastReplaced(s.sessions, Session(user, Active, s.now + RESERVATION_TTL, map[]),
                 Taker(user, v, room, s.now + RESERVATION_TTL));
  }

  lemma LastReplaced(ss: seq<Session>, a: Session, b: Session)
    ensures (ss + [a])[|ss| := b] == ss + [b]
  {
  }

  lemma TakerPasses(s: Sys, b: TxnId, user: UserId, v: VariantId, room: Qty)
    requires b !in s.txns && Held(s.sessions, v, s.now) + room <= StockIn(s, v)
    ensures var a := Arrived(s, b, user, v, room); CheckPasses(a, a.txns[b])
  {
    var a := Arrived(s, b, user, v, room);
    assert a.sessions[..|s.sessions|] == s.sessions;
    HeldBefore(s.sessions, v, s.now, |s.sessions|);
  }

  /** Somebody can always take whatever is left of v. */
  lemma ShelfFills(s: Sys, b: TxnId, user: UserId, v: VariantId) returns (script: seq<Action>, m: Sys)
    requires Safe(s) && v !in s.locks && b !in s.txns
    ensures Executes(s, script, m) && Shelved(s, m, v)
  {
    var room := StockIn(s, v) - Held(s.sessions, v, s.now);
    if room == 0 {
      script, m := [], s;
    } else {
      var a := Arrived(s, b, user, v, room);
      Arrives(s, b, user, v, room);
      TakerPasses(s, b, user, v, room);
      RunsAlone(a, b);
      TakerFinishes(s, b, user, v, room);
      TakerTakes(s, user, v, room);
      m := Finished(a, b);
      var arrive := [NewSession(user), BeginCheckout(b, |s.sessions|, [Line(v, room)])];
      script := arrive + Script(a, b);
      ExecutesThen(s, arrive, a, Script(a, b), m);
    }
  }

  /** On a full shelf, a pay whose hold has lapsed revives it on top of everybody else's. */
  lemma RevivedOverfills(s: Sys, x: Txn, v: VariantId)
    requires x.kind == PayTxn && x.session < |s.sessions| && v in s.sessions[x.session].rows
    requires s.sessions[x.session].rows[v].expires <= s.now && s.sessions[x.session].rows[v].status == Active
    requires Held(s.sessions, v, s.now) == StockIn(s, v)
    ensures Held(Written(s, x).sessions, v, s.now) == StockIn(s, v) + s.sessions[x.session].rows[v].qty
  {
    HeldReplaced(s.sessions, v, s.now, x.session, Processed(s.sessions[x.session], s.now + PAYMENT_TTL));
  }

  /** Timeliness cannot be dropped for pays.  Whenever a hold has lapsed before its pay has locked v, and
      the pay's own test would pass, some continuation ends with more of v held than there is in stock,
      by that hold: whatever the pay has locked so far, and whatever else is running. */
  lemma LatePayCanOversell(s: Sys, p: TxnId, v: VariantId, b: TxnId, user: UserId)
    returns (script: seq<Action>, r: Sys)
    requires Safe(s) && p in s.txns && b !in s.txns
    requires s.txns[p].kind == PayTxn && !s.txns[p].checked && CheckPasses(s, s.txns[p])
    requires s.sessions[s.txns[p].session].expires <= s.now && v in s.sessions[s.txns[p].session].rows
    requires v in s.locks ==> s.locks[v] != p
    ensures Executes(s, script, r) && !Fitting(r)
    ensures Held(r.sessions, v, r.now) == StockIn(r, v) + s.sessions[s.txns[p].session].rows[v].qty
  {
    var others, a := OthersAbort(s, p);
    var taking, m := ShelfFills(a, b, user, v);
    LateIsUnblocked(s, p, m);
    var paying;
    paying, r := LapsedPayRevives(s, p, v, m);
    ExecutesThen(s, others, a, taking, m);
    ExecutesThen(s, others + taking, m, paying, r);
    script := others + taking + paying;
  }

  /** On a full shelf. */
  lemma LapsedPayRevives(s: Sys, p: TxnId, v: VariantId, m: Sys) returns (script: seq<Action>, r: Sys)
    requires Safe(s) && p in s.txns && s.txns[p].kind == PayTxn && CheckPasses(s, s.txns[p])
    requires s.sessions[s.txns[p].session].expires <= s.now && v in s.sessions[s.txns[p].session].rows
    requires m.now == s.now && m.stock == s.stock && |s.sessions| <= |m.sessions| &&
             m.sessions[..|s.sessions|] == s.sessions
    requires Held(m.sessions, v, m.now) == StockIn(m, v)
    requires p in m.txns && m.txns[p] == s.txns[p] && Unblocked(m, p)
    ensures Executes(m, script, r)
    ensures Held(r.sessions, v, r.now) == StockIn(r, v) + s.sessions[s.txns[p].session].rows[v].qty
  {
    var x := s.txns[p];
    assert TxnOk(s, p) && RowsShare(s.sessions[x.session]);
    assert m.sessions[x.session] == m.sessions[..|s.sessions|][x.session];
    RunsAlone(m, p);
    RevivedOverfills(m, x, v);
    script, r := Script(m, p), Finished(m, p);
  }

  lemma LateIsUnblocked(s: Sys, p: TxnId, m: Sys)
    requires Safe(s) && p in s.txns && !s.txns[p].checked && p in m.txns && m.txns[p] == s.txns[p]
    requires forall v: VariantId :: v in m.locks <==> v in s.locks && s.locks[v] == p
    requires forall v <- m.locks :: m.locks[v] == p
    ensures Unblocked(m, p)
  {
    var x := s.txns[p];
    assert TxnOk(s, p);
    assert forall v: VariantId | v in m.locks :: HasLocked(x, v);
  }

  lemma {:induction false} LineInTotal(lines: seq<Line>, k: nat)
    requires k < |lines|
    ensures lines[k].qty <= Total(lines, lines[k].variant)
    decreases |lines|
  {
    if k < |lines| - 1 {
      LineInTotal(lines[..|lines| - 1], k);
    }
  }

  /** A standing hold passes its own pay's test. */
  lemma StandingPasses(s: Sys, x: Txn)
    requires Safe(s) && TargetOk(s, x) && x.kind == PayTxn && Standing(s.sessions[x.session], s.now, Active)
    ensures CheckPasses(s, x)
  {
    forall k | 0 <= k < |x.lines|
      ensures x.lines[k].qty <= StockIn(s, x.lines[k].variant)
    {
      HoldIsCounted(s, x, x.lines[k].variant);
      LineInTotal(x.lines, k);
    }
  }

  /** That state is always near: from any safe state, any standing hold of v can be paid for, lapse while
      its pay waits, be given away and still be revived. */
  lemma StandingHoldCanOversell(s: Sys, i: SessionId, v: VariantId, p: TxnId, b: TxnId, user: UserId)
    returns (script: seq<Action>, r: Sys)
    requires Safe(s) && p !in s.txns && b !in s.txns && p != b
    requires Enabled(s, BeginPay(p, i)) && v in s.sessions[i].rows
    ensures Executes(s, script, r)
    ensures Held(r.sessions, v, r.now) == StockIn(r, v) + s.sessions[i].rows[v].qty
  {
    var a, m := PayWaits(s, i, p);
    var late;
    late, r := LapsedPayOversells(s, i, v, p, b, user, m);
    TwoThen(s, BeginPay(p, i), a, Wait(s.sessions[i].expires - s.now), m, late, r);
    script := [BeginPay(p, i), Wait(s.sessions[i].expires - s.now)] + late;
  }

  lemma TwoThen(s: Sys, x: Action, a: Sys, y: Action, m: Sys, rest: seq<Action>, r: Sys)
    requires Enabled(s, x) && Next(s, x) == a && Enabled(a, y) && Next(a, y) == m && Executes(m, rest, r)
    ensures Executes(s, [x, y] + rest, r)
  {
    Prepend(a, y, m, rest, r);
    Prepend(s, x, a, [y] + rest, r);
    assert [x] + ([y] + rest) == [x, y] + rest;
  }

  lemma LapsedPayOversells(s: Sys, i: SessionId, v: VariantId, p: TxnId, b: TxnId, user: UserId, m: Sys)
    returns (script: seq<Action>, r: Sys)
    requires LocksOk(s) && p !in s.txns && b !in s.txns && p != b && i < |s.sessions| && v in s.sessions[i].rows
    requires Safe(m) && m.sessions == s.sessions && m.locks == s.locks && m.now >= s.sessions[i].expires
    requires p in m.txns && m.txns.Keys == s.txns.Keys + {p} && CheckPasses(m, m.txns[p])
    requires m.txns[p].kind == PayTxn && m.txns[p].session == i && !m.txns[p].checked
    ensures Executes(m, script, r) && Held(r.sessions, v, r.now) == StockIn(r, v) + s.sessions[i].rows[v].qty
  {
    FreshHoldsNothing(s, p);
    script, r := LatePayCanOversell(m, p, v, b, user);
  }

  lemma PayBegins(s: Sys, i: SessionId, p: TxnId)
    requires Safe(s) && Enabled(s, BeginPay(p, i))
    ensures var a := Next(s, BeginPay(p, i)); Safe(a) && CheckPasses(a, a.txns[p])
  {
    StepSafe(s, BeginPay(p, i));
    var a := Next(s, BeginPay(p, i));
    assert TxnOk(a, p);
    StandingPasses(a, a.txns[p]);
  }

  lemma PayLapses(a: Sys, p: TxnId, seconds: nat) returns (m: Sys)
    requires Safe(a) && p in a.txns && a.txns[p].kind == PayTxn && CheckPasses(a, a.txns[p])
    ensures m == Later(a, seconds) && Safe(m) && CheckPasses(m, m.txns[p])
  {
    m := Later(a, seconds);
    WaitSafe(a, seconds);
  }

  /** A pay begins in time and then waits until its hold has lapsed. */
  lemma PayWaits(s: Sys, i: SessionId, p: TxnId) returns (a: Sys, m: Sys)
    requires Safe(s) && Enabled(s, BeginPay(p, i))
    ensures a == Next(s, BeginPay(p, i)) && m == Later(a, s.sessions[i].expires - s.now)
    ensures Safe(m) && m.sessions == s.sessions && m.locks == s.locks && m.now == s.sessions[i].expires
    ensures p in m.txns && m.txns.Keys == s.txns.Keys + {p} && CheckPasses(m, m.txns[p])
    ensures m.txns[p].kind == PayTxn && m.txns[p].session == i && !m.txns[p].checked
  {
    PayBegins(s, i, p);
    a := Next(s, BeginPay(p, i));
    m := PayLapses(a, p, s.sessions[i].expires - s.now);
  }

  lemma FreshHoldsNothing(s: Sys, p: TxnId)
    requires LocksOk(s) && p !in s.txns
    ensures forall v <- s.locks :: s.locks[v] != p
  {
  }

  // Overlapping captures

  /** A transaction that has begun and holds no row lock yet. */
  predicate Waiting(s: Sys, t: TxnId) {
    t in s.txns && s.txns[t].locked == 0 && !s.txns[t].checked && Increasing(s.txns[t].want)
  }

  /** Singleness cannot be dropped either.  Two captures of one order that overlap both take its units,
      whenever there is enough physical stock for both. */
  lemma OverlappingSalesTakeTwice(s: Sys, t: TxnId, u: TxnId) returns (script: seq<Action>, r: Sys)
    requires s.locks == map[] && t != u && Waiting(s, t) && Waiting(s, u)
    requires s.txns[t].kind == SaleTxn && s.txns[u].kind == SaleTxn
    requires s.txns[t].session == s.txns[u].session < |s.sessions| && s.txns[t].lines == s.txns[u].lines
    requires CheckPasses(s, s.txns[t])
    requires forall k | 0 <= k < |s.txns[t].lines| ::
               Total(s.txns[t].lines, s.txns[t].lines[k].variant) + s.txns[t].lines[k].qty
               <= StockIn(s, s.txns[t].lines[k].variant)
    ensures Executes(s, script, r)
    ensures SalesOf(r, s.txns[t].session) == SalesOf(s, s.txns[t].session) + 2
    ensures forall v <- s.stock :: StockIn(r, v) == StockIn(s, v) - 2 * Total(s.txns[t].lines, v)
  {
    RunsAlone(s, t);
    var m := Finished(s, t);
    assert CheckPasses(m, m.txns[u]);
    RunsAlone(m, u);
    r := Finished(m, u);
    script := Script(s, t) + Script(m, u);
    ExecutesThen(s, Script(s, t), m, Script(m, u), r);
  }

  /** That state is two steps from rest: one session being paid, delivered twice, with physical stock for
      twice its rows, is sold twice. */
  lemma TwoDeliveriesSellTwice(s: Sys, i: SessionId, t: TxnId, u: TxnId)
    returns (script: seq<Action>, r: Sys)
    requires s.locks == map[] && s.txns == map[] && t != u
    requires Enabled(s, BeginSale(t, i))
    requires forall v <- s.sessions[i].rows :: 2 * s.sessions[i].rows[v].qty <= StockIn(s, v)
    ensures Executes(s, script, r) && SalesOf(r, i) == SalesOf(s, i) + 2
    ensures forall v <- s.stock ::
              StockIn(r, v) ==
              StockIn(s, v) - 2 * if v in s.sessions[i].rows then s.sessions[i].rows[v].qty else 0
  {
    var a, m := DeliveredTwice(s, i, t, u);
    var rest;
    rest, r := BothDelivered(s, i, t, u, m);
    TwoThen(s, BeginSale(t, i), a, BeginSale(u, i), m, rest, r);
    script := [BeginSale(t, i), BeginSale(u, i)] + rest;
  }

  lemma BothDelivered(s: Sys, i: SessionId, t: TxnId, u: TxnId, m: Sys) returns (script: seq<Action>, r: Sys)
    requires t != u && i < |s.sessions| && m == s.(txns := m.txns) && s.locks == map[]
    requires Waiting(m, t) && m.txns[t].kind == SaleTxn && m.txns[t].session == i
    requires Waiting(m, u) && m.txns[u].kind == SaleTxn && m.txns[u].session == i
    requires m.txns[t].lines == m.txns[u].lines == LinesOf(s.sessions[i])
    requires forall v <- s.sessions[i].rows :: 2 * s.sessions[i].rows[v].qty <= StockIn(s, v)
    ensures Executes(m, script, r) && SalesOf(r, i) == SalesOf(s, i) + 2
    ensures forall v <- s.stock ::
              StockIn(r, v) ==
              StockIn(s, v) - 2 * if v in s.sessions[i].rows then s.sessions[i].rows[v].qty else 0
  {
    LinesOfRows(s.sessions[i]);
    DoubleFits(m, s.sessions[i]);
    script, r := OverlappingSalesTakeTwice(m, t, u);
  }

  lemma DeliveredTwice(s: Sys, i: SessionId, t: TxnId, u: TxnId) returns (a: Sys, m: Sys)
    requires s.locks == map[] && s.txns == map[] && t != u && Enabled(s, BeginSale(t, i))
    ensures a == Next(s, BeginSale(t, i)) && Enabled(a, BeginSale(u, i)) && m == Next(a, BeginSale(u, i))
    ensures m == s.(txns := m.txns) && Waiting(m, t) && Waiting(m, u)
    ensures m.txns[t].kind == SaleTxn && m.txns[t].session == i && m.txns[t].lines == LinesOf(s.sessions[i])
    ensures m.txns[u].kind == SaleTxn && m.txns[u].session == i && m.txns[u].lines == LinesOf(s.sessions[i])
  {
    a := Next(s, BeginSale(t, i));
    m := Next(a, BeginSale(u, i));
  }

  lemma DoubleFits(s: Sys, sess: Session)
    requires forall v <- sess.rows :: 2 * sess.rows[v].qty <= StockIn(s, v)
    ensures var lines := LinesOf(sess);
            forall k | 0 <= k < |lines| ::
              && lines[k].qty <= StockIn(s, lines[k].variant)
              && Total(lines, lines[k].variant) + lines[k].qty <= StockIn(s, lines[k].variant)
  {
    LinesOfRows(sess);
    var lines := LinesOf(sess);
    forall k | 0 <= k < |lines|
      ensures lines[k].qty <= Total(lines, lines[k].variant)
      ensures 2 * Total(lines, lines[k].variant) <= StockIn(s, lines[k].variant)
    {
      LineInTotal(lines, k);
    }
  }
}
