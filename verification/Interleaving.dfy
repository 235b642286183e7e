/** Transactions that lock, read and commit in steps, interleaved in any order.  Inventory row locks
    are held to commit; checkouts and pays also hold their session row.  A statement reads what is
    committed when it runs, at the time its transaction started (SQL now()); expiries are stamped
    and tested with the wall clock. */
module Interleaving {
  import opened Tables
  import opened Ordering
  import opened Inventory
  import opened Holds
  import opened CheckoutSessions
  import opened CheckoutPayments
  import opened Lifecycle
  import opened Linkage
  import opened NoOversell
  import opened Promise

  type TxnId = nat

  datatype Kind = CheckoutTxn | PayTxn | SaleTxn | AdjustTxn(target: int)

  /** locked counts the rows of want, in id order, whose lock is held. */
  datatype Txn = Txn(kind: Kind, session: SessionId, lines: seq<Line>, want: seq<VariantId>,
                     locked: nat, checked: bool, started: int)

  datatype Sys = Sys(now: int, stock: map<VariantId, int>, sessions: seq<Session>, txns: map<TxnId, Txn>,
                     locks: map<VariantId, TxnId>, sales: map<SessionId, nat>)

  datatype Action =
    | Wait(seconds: nat)
    | NewSession(user: UserId)
    | BeginCheckout(txn: TxnId, session: SessionId, cart: seq<Line>)
    | BeginPay(txn: TxnId, session: SessionId)
    | BeginSale(txn: TxnId, session: SessionId)
    | BeginAdjust(txn: TxnId, variant: VariantId, target: nat)
    | Lock(txn: TxnId)
    | Check(txn: TxnId)
    | Commit(txn: TxnId)
    | Abort(txn: TxnId)
    | Sweep(session: SessionId)
    | EndHold(session: SessionId)

  function StockIn(s: Sys, v: VariantId): int {
    if v in s.stock then s.stock[v] else 0
  }

  function SalesOf(s: Sys, i: SessionId): nat {
    if i in s.sales then s.sales[i] else 0
  }

  predicate LocksSession(k: Kind) {
    k == CheckoutTxn || k == PayTxn
  }

  predicate SessionLocked(s: Sys, i: SessionId) {
    exists t <- s.txns :: LocksSession(s.txns[t].kind) && s.txns[t].session == i
  }

  /** Active and not past its expiry, or being paid and not past it. */
  predicate Standing(sess: Session, now: int, status: SessionStatus) {
    sess.status == status && now < sess.expires
  }

  function VariantsOf(lines: seq<Line>): set<VariantId> {
    set k | 0 <= k < |lines| :: lines[k].variant
  }

  /** What a row-holding session would have ordered. */
  function LinesOf(sess: Session): seq<Line> {
    OrderLines(sess, Ascending(sess.rows.Keys))
  }

  predicate CheckPasses(s: Sys, x: Txn) {
    match x.kind
    case CheckoutTxn =>
      forall k | 0 <= k < |x.lines| ::
        HeldByOthers(s.sessions, x.lines[k].variant, x.started, x.session) + x.lines[k].qty
        <= StockIn(s, x.lines[k].variant)
    case PayTxn => forall k | 0 <= k < |x.lines| :: x.lines[k].qty <= StockIn(s, x.lines[k].variant)
    case SaleTxn => forall k | 0 <= k < |x.lines| :: x.lines[k].qty <= StockIn(s, x.lines[k].variant)
    case AdjustTxn(target) => forall k | 0 <= k < |x.want| :: Held(s.sessions, x.want[k], x.started) <= target
  }

  /** A capture begins on any session that has been paid for and not sold, ended ones included: it looks at
      the payment, not at the session. */
  predicate Enabled(s: Sys, a: Action) {
    match a
    case Wait(_) => true
    case NewSession(_) => true
    case BeginCheckout(t, i, cart) =>
      t !in s.txns && cart != [] && Distinct(cart) &&
      i < |s.sessions| && s.sessions[i].status == Active && !SessionLocked(s, i)
    case BeginPay(t, i) =>
      t !in s.txns && i < |s.sessions| && s.sessions[i].rows != map[] && Standing(s.sessions[i], s.now, Active) &&
        !SessionLocked(s, i)
    case BeginSale(t, i) =>
      && t !in s.txns && i < |s.sessions| && s.sessions[i].rows != map[]
      && s.sessions[i].status != Active && SalesOf(s, i) == 0
    case BeginAdjust(t, _, _) => t !in s.txns
    case Lock(t) => t in s.txns && s.txns[t].locked < |s.txns[t].want| && s.txns[t].want[s.txns[t].locked] !in s.locks
    case Check(t) =>
      t in s.txns && s.txns[t].locked == |s.txns[t].want| && !s.txns[t].checked && CheckPasses(s, s.txns[t])
    case Commit(t) => t in s.txns && s.txns[t].checked
    case Abort(t) => t in s.txns
    case Sweep(i) => i < |s.sessions| && !SessionLocked(s, i)
    case EndHold(i) => i < |s.sessions| && !SessionLocked(s, i)
  }

  function Begin(s: Sys, t: TxnId, kind: Kind, i: SessionId, lines: seq<Line>, want: seq<VariantId>): Sys {
    s.(txns := s.txns[t := Txn(kind, i, lines, want, 0, false, s.now)])
  }

  function Later(s: Sys, seconds: nat): Sys {
    s.(now := s.now + seconds)
  }

  function WithNewcomer(s: Sys, user: UserId): Sys {
    s.(sessions := s.sessions + [Session(user, Active, s.now + RESERVATION_TTL, map[])])
  }

  function Released(s: Sys, t: TxnId): Sys {
    s.(txns := s.txns - {t}, locks := map v | v in s.locks && s.locks[v] != t :: s.locks[v])
  }

  function SessionsAfter(ss: seq<Session>, now: int, kind: Kind, i: SessionId, lines: seq<Line>,
                         started: int): seq<Session> {
    if i >= |ss| then ss
    else
      match kind
      case CheckoutTxn =>
        var expires := started + RESERVATION_TTL;
        ss[i := Session(ss[i].user, Active, expires, RowsFor(lines, expires))]
      case PayTxn => ss[i := Processed(ss[i], now + PAYMENT_TTL)]
      case SaleTxn => ss[i := Closed(ss[i], Completed)]
      case AdjustTxn(_) => ss
  }

  function StockAfter(stock: map<VariantId, int>, kind: Kind, lines: seq<Line>,
                      want: seq<VariantId>): map<VariantId, int> {
    match kind
    case CheckoutTxn => stock
    case PayTxn => stock
    case SaleTxn => map v <- stock :: stock[v] - Total(lines, v)
    case AdjustTxn(target) =>
      map v | v in stock.Keys + (set w | w in want) :: if v in want then target else stock[v]
  }

  /** The writes of a transaction, which become visible at its commit. */
  function Written(s: Sys, x: Txn): Sys {
    s.(sessions := SessionsAfter(s.sessions, s.now, x.kind, x.session, x.lines, x.started),
       stock := StockAfter(s.stock, x.kind, x.lines, x.want),
       sales := if x.kind == SaleTxn then s.sales[x.session := SalesOf(s, x.session) + 1] else s.sales)
  }

  function Next(s: Sys, a: Action): Sys
    requires Enabled(s, a)
  {
    match a
    case Wait(seconds) => Later(s, seconds)
    case NewSession(user) => WithNewcomer(s, user)
    case BeginCheckout(t, i, cart) => Begin(s, t, CheckoutTxn, i, cart, Ascending(VariantsOf(cart)))
    case BeginPay(t, i) => Begin(s, t, PayTxn, i, LinesOf(s.sessions[i]), Ascending(s.sessions[i].rows.Keys))
    case BeginSale(t, i) => Begin(s, t, SaleTxn, i, LinesOf(s.sessions[i]), Ascending(s.sessions[i].rows.Keys))
    case BeginAdjust(t, v, target) => Begin(s, t, AdjustTxn(target), 0, [], [v])
    case Lock(t) =>
      var x := s.txns[t];
      s.(locks := s.locks[x.want[x.locked] := t], txns := s.txns[t := x.(locked := x.locked + 1)])
    case Check(t) => s.(txns := s.txns[t := s.txns[t].(checked := true)])
    case Commit(t) => Released(Written(s, s.txns[t]), t)
    case Abort(t) => Released(s, t)
    case Sweep(i) =>
      var one := Lapsed(s.sessions[i], s.now, Active, Expired);
      s.(sessions := s.sessions[i := Lapsed(one, s.now, Processing, Cancelled)])
    case EndHold(i) => s.(sessions := s.sessions[i := Closed(s.sessions[i], Cancelled)])
  }

  /** A pay, or a sale, is timely if its hold still stands whenever it obtains a row lock.  The code
      tests a pay's expiry before it asks for the locks, and a sale's not at all. */
  predicate Timely(s: Sys, a: Action) {
    a.Lock? && a.txn in s.txns ==>
      var x := s.txns[a.txn];
      && (x.kind == PayTxn ==> x.session < |s.sessions| && Standing(s.sessions[x.session], s.now, Active))
      && (x.kind == SaleTxn ==> x.session < |s.sessions| && Standing(s.sessions[x.session], s.now, Processing))
  }

  // The invariant

  ghost predicate Fitting(s: Sys) {
    forall v: VariantId :: Held(s.sessions, v, s.now) <= StockIn(s, v)
  }

  /** Rows of a live session share its status and expiry. */
  predicate RowsShare(sess: Session) {
    if Live(sess.status) then
      forall v <- sess.rows :: sess.rows[v].status == sess.status && sess.rows[v].expires == sess.expires
    else
      forall v <- sess.rows :: !Live(sess.rows[v].status)
  }

  /** t holds v's lock with a claim on v: pending lines, beside everyone else's holds, fit in stock. */
  ghost predicate ClaimOk(s: Sys, t: TxnId)
    requires t in s.txns
  {
    var x := s.txns[t];
    forall v <- s.locks | s.locks[v] == t ::
      match x.kind
      case CheckoutTxn =>
        x.checked ==> HeldByOthers(s.sessions, v, s.now, x.session) + Total(x.lines, v) <= StockIn(s, v)
      case PayTxn => HeldByOthers(s.sessions, v, s.now, x.session) + Total(x.lines, v) <= StockIn(s, v)
      case SaleTxn => HeldByOthers(s.sessions, v, s.now, x.session) + Total(x.lines, v) <= StockIn(s, v)
      case AdjustTxn(target) => x.checked ==> Held(s.sessions, v, s.now) <= target
  }

  ghost predicate TxnOk(s: Sys, t: TxnId)
    requires t in s.txns
  {
    var x := s.txns[t];
    && x.locked <= |x.want| && x.started <= s.now && Increasing(x.want)
    && (x.checked ==> x.locked == |x.want|)
    && (forall k | 0 <= k < x.locked :: x.want[k] in s.locks && s.locks[x.want[k]] == t)
    && (forall v: VariantId | Total(x.lines, v) > 0 :: v in x.want)
    && TargetOk(s, x)
  }

  /** The transaction's session is still as its kind needs it. */
  ghost predicate TargetOk(s: Sys, x: Txn) {
    match x.kind
    case CheckoutTxn => x.session < |s.sessions| && s.sessions[x.session].status == Active && Distinct(x.lines)
    case PayTxn => x.session < |s.sessions| && s.sessions[x.session].status == Active
                   && SameQuantities(x.lines, s.sessions[x.session].rows)
    case SaleTxn => x.session < |s.sessions| && s.sessions[x.session].status != Active
                    && (s.sessions[x.session].status == Processing ==>
                        SameQuantities(x.lines, s.sessions[x.session].rows))
    case AdjustTxn(_) => x.lines == []
  }

  predicate HasLocked(x: Txn, v: VariantId) {
    exists k | 0 <= k < x.locked && k < |x.want| :: x.want[k] == v
  }

  /** Locks belong to running transactions, and at most one transaction has a session row locked. */
  ghost predicate LocksOk(s: Sys) {
    && (forall v <- s.locks :: s.locks[v] in s.txns && HasLocked(s.txns[s.locks[v]], v))
    && (forall t, u | t in s.txns && u in s.txns && t != u && LocksSession(s.txns[t].kind) &&
        LocksSession(s.txns[u].kind) ::
          s.txns[t].session != s.txns[u].session)
  }

  ghost predicate Safe(s: Sys) {
    && Fitting(s)
    && (forall i | 0 <= i < |s.sessions| :: RowsShare(s.sessions[i]))
    && (forall t <- s.txns :: TxnOk(s, t) && ClaimOk(s, t))
    && LocksOk(s)
  }

  // Frames

  /** On v, nobody but session own holds more in r than in s, and stock is no smaller. */
  ghost predicate Quiet(s: Sys, r: Sys, v: VariantId) {
    |r.sessions| == |s.sessions| && StockIn(s, v) <= StockIn(r, v) &&
    forall i | 0 <= i < |s.sessions| :: HeldBy(r.sessions[i], v, r.now) <= HeldBy(s.sessions[i], v, s.now)
  }

  lemma QuietHolds(s: Sys, r: Sys, v: VariantId, own: SessionId)
    requires Quiet(s, r, v)
    ensures Held(r.sessions, v, r.now) <= Held(s.sessions, v, s.now)
    ensures HeldByOthers(r.sessions, v, r.now, own) <= HeldByOthers(s.sessions, v, s.now, own)
  {
    HeldShrinks(s.sessions, r.sessions, v, s.now, r.now);
    OthersShrink(s.sessions, r.sessions, v, s.now, r.now, own);
  }

  /** A claim survives whatever is quiet on the rows that its transaction has locked. */
  lemma ClaimFrame(s: Sys, r: Sys, t: TxnId)
    requires t in s.txns && t in r.txns && r.txns[t] == s.txns[t] && ClaimOk(s, t)
    requires forall v <- r.locks | r.locks[v] == t :: v in s.locks && s.locks[v] == t && Quiet(s, r, v)
    ensures ClaimOk(r, t)
  {
    forall v <- r.locks | r.locks[v] == t
      ensures Held(r.sessions, v, r.now) <= Held(s.sessions, v, s.now)
      ensures HeldByOthers(r.sessions, v, r.now, s.txns[t].session)
              <= HeldByOthers(s.sessions, v, s.now, s.txns[t].session)
    {
      QuietHolds(s, r, v, s.txns[t].session);
    }
  }

  // Steps

  lemma WaitSafe(s: Sys, seconds: nat)
    requires Safe(s)
    ensures Safe(Later(s, seconds))
  {
    var r := Later(s, seconds);
    forall v: VariantId
      ensures Held(r.sessions, v, r.now) <= StockIn(r, v)
    {
      QuietHolds(s, r, v, 0);
    }
    forall t <- r.txns
      ensures TxnOk(r, t) && ClaimOk(r, t)
    {
      ClaimFrame(s, r, t);
    }
  }

  lemma NewSessionSafe(s: Sys, user: UserId)
    requires Safe(s)
    ensures Safe(WithNewcomer(s, user))
  {
    var r := WithNewcomer(s, user);
    assert r.sessions[..|s.sessions|] == s.sessions;
    assert forall v: VariantId :: HeldBy(r.sessions[|s.sessions|], v, r.now) == 0;
    forall t <- r.txns
      ensures TxnOk(r, t) && ClaimOk(r, t)
    {
      assert TxnOk(s, t) && ClaimOk(s, t);
    }
  }

  /** Starting a transaction takes no row lock yet. */
  lemma BeginSafe(s: Sys, t: TxnId, kind: Kind, i: SessionId, lines: seq<Line>, want: seq<VariantId>)
    requires Safe(s) && t !in s.txns
    requires LocksSession(kind) ==> !SessionLocked(s, i)
    requires TargetOk(s, Txn(kind, i, lines, want, 0, false, s.now))
    requires Increasing(want) && forall v: VariantId | Total(lines, v) > 0 :: v in want
    ensures Safe(Begin(s, t, kind, i, lines, want))
  {
    var r := Begin(s, t, kind, i, lines, want);
    forall u <- r.txns
      ensures TxnOk(r, u) && ClaimOk(r, u)
    {
      if u != t {
        assert TxnOk(s, u);
        ClaimFrame(s, r, u);
      }
    }
  }

  /** The row a timely pay or sale locks has room for its hold: the hold stands, so it is already
      counted within stock. */
  lemma HoldIsCounted(s: Sys, x: Txn, v: VariantId)
    requires Safe(s) && TargetOk(s, x) && x.session < |s.sessions|
    requires (x.kind == PayTxn && Standing(s.sessions[x.session], s.now, Active)) ||
               (x.kind == SaleTxn && Standing(s.sessions[x.session], s.now, Processing))
    ensures HeldByOthers(s.sessions, v, s.now, x.session) + Total(x.lines, v) <= StockIn(s, v)
  {
    OwnAndOthers(s.sessions, v, s.now, x.session);
    assert RowsShare(s.sessions[x.session]);
    assert Held(s.sessions, v, s.now) <= StockIn(s, v);
  }

  lemma LockTxnOk(s: Sys, t: TxnId)
    requires Enabled(s, Lock(t)) && TxnOk(s, t)
    ensures TxnOk(Next(s, Lock(t)), t)
  {
  }

  lemma LockClaim(s: Sys, t: TxnId)
    requires Safe(s) && Enabled(s, Lock(t)) && Timely(s, Lock(t))
    ensures ClaimOk(Next(s, Lock(t)), t)
  {
    var x := s.txns[t];
    assert TxnOk(s, t) && ClaimOk(s, t);
    if x.kind == PayTxn || x.kind == SaleTxn {
      HoldIsCounted(s, x, x.want[x.locked]);
    }
  }

  lemma LockLocks(s: Sys, t: TxnId)
    requires Safe(s) && Enabled(s, Lock(t))
    ensures var r := Next(s, Lock(t)); forall v <- r.locks | r.locks[v] == t :: HasLocked(r.txns[t], v)
  {
    var r := Next(s, Lock(t));
    var w := s.txns[t].want[s.txns[t].locked];
    forall v <- r.locks | r.locks[v] == t
      ensures HasLocked(r.txns[t], v)
    {
      if v == w {
        assert r.txns[t].want[s.txns[t].locked] == w;
      } else {
        assert HasLocked(s.txns[t], v);
      }
    }
  }

  /** r is s but for transaction t's own record and locks. */
  ghost predicate OnlyMoves(s: Sys, t: TxnId, r: Sys) {
    && t in s.txns && t in r.txns
    && r == s.(txns := r.txns, locks := r.locks)
    && r.txns.Keys == s.txns.Keys
    && r.txns[t].kind == s.txns[t].kind && r.txns[t].session == s.txns[t].session
    && (forall u <- s.txns | u != t :: r.txns[u] == s.txns[u])
    && (forall v: VariantId | v in s.locks && s.locks[v] != t :: v in r.locks && r.locks[v] == s.locks[v])
    && (forall v: VariantId | v in r.locks && r.locks[v] != t :: v in s.locks && r.locks[v] == s.locks[v])
  }

  lemma MoveSpares(s: Sys, t: TxnId, r: Sys, u: TxnId)
    requires Safe(s) && OnlyMoves(s, t, r) && u in s.txns && u != t
    ensures TxnOk(r, u) && ClaimOk(r, u)
  {
    assert TxnOk(s, u) && ClaimOk(s, u);
    ClaimFrame(s, r, u);
  }

  lemma MoveSafe(s: Sys, t: TxnId, r: Sys)
    requires Safe(s) && OnlyMoves(s, t, r)
    requires TxnOk(r, t) && ClaimOk(r, t)
    requires forall v <- r.locks | r.locks[v] == t :: HasLocked(r.txns[t], v)
    ensures Safe(r)
  {
    forall u <- s.txns | u != t
      ensures TxnOk(r, u) && ClaimOk(r, u)
    {
      MoveSpares(s, t, r, u);
    }
    forall v <- r.locks
      ensures r.locks[v] in r.txns && HasLocked(r.txns[r.locks[v]], v)
    {
      if r.locks[v] != t {
        assert HasLocked(s.txns[s.locks[v]], v);
      }
    }
  }

  lemma LockSafe(s: Sys, t: TxnId)
    requires Safe(s) && Enabled(s, Lock(t)) && Timely(s, Lock(t))
    ensures Safe(Next(s, Lock(t)))
  {
    LockTxnOk(s, t);
    LockClaim(s, t);
    LockLocks(s, t);
    MoveSafe(s, t, Next(s, Lock(t)));
  }

  /** A checkout's test, read at its start time under all its locks, secures its claims. */
  lemma CheckoutTestSecures(s: Sys, x: Txn, v: VariantId)
    requires Fitting(s) && x.kind == CheckoutTxn && Distinct(x.lines) && x.started <= s.now && CheckPasses(s, x)
    ensures HeldByOthers(s.sessions, v, s.now, x.session) + Total(x.lines, v) <= StockIn(s, v)
  {
    OwnAndOthers(s.sessions, v, s.now, x.session);
    OthersShrink(s.sessions, s.sessions, v, x.started, s.now, x.session);
    CartTotal(x.lines, v);
    assert Held(s.sessions, v, s.now) <= StockIn(s, v);
    if exists k | 0 <= k < |x.lines| :: x.lines[k].variant == v {
      var k :| 0 <= k < |x.lines| && x.lines[k].variant == v;
      QtyOfLine(x.lines, k);
    }
  }

  lemma CheckClaim(s: Sys, t: TxnId)
    requires Safe(s) && Enabled(s, Check(t))
    ensures ClaimOk(s.(txns := s.txns[t := s.txns[t].(checked := true)]), t)
  {
    var x := s.txns[t];
    assert TxnOk(s, t) && ClaimOk(s, t);
    if x.kind == CheckoutTxn {
      forall v: VariantId
        ensures HeldByOthers(s.sessions, v, s.now, x.session) + Total(x.lines, v) <= StockIn(s, v)
      {
        CheckoutTestSecures(s, x, v);
      }
    } else if x.kind.AdjustTxn? {
      forall v <- s.locks | s.locks[v] == t
        ensures Held(s.sessions, v, s.now) <= x.kind.target
      {
        assert HasLocked(x, v);
        HeldShrinks(s.sessions, s.sessions, v, x.started, s.now);
      }
    }
  }

  lemma CheckSafe(s: Sys, t: TxnId)
    requires Safe(s) && Enabled(s, Check(t))
    ensures Safe(Next(s, Check(t)))
  {
    var r := s.(txns := s.txns[t := s.txns[t].(checked := true)]);
    CheckClaim(s, t);
    assert TxnOk(s, t);
    forall v <- r.locks | r.locks[v] == t
      ensures HasLocked(r.txns[t], v)
    {
      assert HasLocked(s.txns[t], v);
    }
    MoveSafe(s, t, r);
  }

  lemma ReleaseSafe(s: Sys, t: TxnId)
    requires Safe(s)
    ensures Safe(Released(s, t))
  {
    var r := Released(s, t);
    forall u <- r.txns
      ensures TxnOk(r, u) && ClaimOk(r, u)
    {
      assert TxnOk(s, u) && ClaimOk(s, u);
      ClaimFrame(s, r, u);
    }
    forall v <- r.locks
      ensures r.locks[v] in r.txns && HasLocked(r.txns[r.locks[v]], v)
    {
      assert HasLocked(s.txns[s.locks[v]], v);
    }
  }

  /** Sweeps and cancels: the session's hold ends, or stays as it was. */
  lemma EndingSafe(s: Sys, i: SessionId, sess: Session)
    requires Safe(s) && i < |s.sessions| && !SessionLocked(s, i)
    requires sess == s.sessions[i] || (RowsShare(sess) && !Live(sess.status))
    ensures Safe(s.(sessions := s.sessions[i := sess]))
  {
    var r := s.(sessions := s.sessions[i := sess]);
    forall v: VariantId
      ensures Quiet(s, r, v) && Held(r.sessions, v, r.now) <= StockIn(r, v)
    {
      assert Quiet(s, r, v);
      QuietHolds(s, r, v, 0);
    }
    forall u <- r.txns
      ensures TxnOk(r, u) && ClaimOk(r, u)
    {
      assert TxnOk(s, u) && ClaimOk(s, u);
      ClaimFrame(s, r, u);
    }
  }

  // Commits

  /** By the time it commits, a transaction holds the lock of every variant in its lines. */
  lemma LinesAreLocked(s: Sys, t: TxnId, v: VariantId)
    requires t in s.txns && TxnOk(s, t) && s.txns[t].checked && v in s.txns[t].want
    ensures v in s.locks && s.locks[v] == t
  {
    var k :| 0 <= k < |s.txns[t].want| && s.txns[t].want[k] == v;
  }

  lemma CheckoutCommitFits(s: Sys, t: TxnId, v: VariantId)
    requires Safe(s) && Enabled(s, Commit(t)) && s.txns[t].kind == CheckoutTxn
    ensures var r := Written(s, s.txns[t]);
            && Held(r.sessions, v, r.now) <= StockIn(r, v)
            && RowsShare(r.sessions[s.txns[t].session])
            && (v !in s.locks || s.locks[v] != t ==> Quiet(s, r, v))
  {
    var x := s.txns[t];
    assert TxnOk(s, t) && ClaimOk(s, t);
    var r := Written(s, x);
    HeldReplaced(s.sessions, v, s.now, x.session, r.sessions[x.session]);
    CartTotal(x.lines, v);
    assert Held(s.sessions, v, s.now) <= StockIn(s, v);
    if Total(x.lines, v) > 0 {
      LinesAreLocked(s, t, v);
    }
  }

  lemma PayCommitFits(s: Sys, t: TxnId, v: VariantId)
    requires Safe(s) && Enabled(s, Commit(t)) && s.txns[t].kind == PayTxn
    ensures var r := Written(s, s.txns[t]);
            && Held(r.sessions, v, r.now) <= StockIn(r, v)
            && RowsShare(r.sessions[s.txns[t].session])
            && (v !in s.locks || s.locks[v] != t ==> Quiet(s, r, v))
  {
    var x := s.txns[t];
    assert TxnOk(s, t) && ClaimOk(s, t);
    assert RowsShare(s.sessions[x.session]);
    var r := Written(s, x);
    HeldReplaced(s.sessions, v, s.now, x.session, r.sessions[x.session]);
    assert Held(s.sessions, v, s.now) <= StockIn(s, v);
    if Total(x.lines, v) > 0 {
      LinesAreLocked(s, t, v);
    }
  }

  lemma SaleCommitFits(s: Sys, t: TxnId, v: VariantId)
    requires Safe(s) && Enabled(s, Commit(t)) && s.txns[t].kind == SaleTxn
    ensures var r := Written(s, s.txns[t]);
            && Held(r.sessions, v, r.now) <= StockIn(r, v)
            && RowsShare(r.sessions[s.txns[t].session])
            && (v !in s.locks || s.locks[v] != t ==> Quiet(s, r, v))
  {
    var x := s.txns[t];
    assert TxnOk(s, t) && ClaimOk(s, t);
    var r := Written(s, x);
    HeldReplaced(s.sessions, v, s.now, x.session, r.sessions[x.session]);
    assert Held(s.sessions, v, s.now) <= StockIn(s, v);
    if Total(x.lines, v) > 0 {
      LinesAreLocked(s, t, v);
    }
  }

  lemma AdjustCommitFits(s: Sys, t: TxnId, v: VariantId)
    requires Safe(s) && Enabled(s, Commit(t)) && s.txns[t].kind.AdjustTxn?
    ensures var r := Written(s, s.txns[t]);
            && Held(r.sessions, v, r.now) <= StockIn(r, v)
            && (v !in s.locks || s.locks[v] != t ==> Quiet(s, r, v))
  {
    assert TxnOk(s, t) && ClaimOk(s, t);
    assert Held(s.sessions, v, s.now) <= StockIn(s, v);
    if v in s.txns[t].want {
      LinesAreLocked(s, t, v);
    }
  }

  lemma CommitFits(s: Sys, t: TxnId, v: VariantId)
    requires Safe(s) && Enabled(s, Commit(t))
    ensures var r := Next(s, Commit(t));
            && Held(r.sessions, v, r.now) <= StockIn(r, v)
            && (v !in s.locks || s.locks[v] != t ==> Quiet(s, r, v))
  {
    match s.txns[t].kind
    case CheckoutTxn => CheckoutCommitFits(s, t, v);
    case PayTxn => PayCommitFits(s, t, v);
    case SaleTxn => SaleCommitFits(s, t, v);
    case AdjustTxn(_) => AdjustCommitFits(s, t, v);
  }

  lemma CommitShares(s: Sys, t: TxnId)
    requires Safe(s) && Enabled(s, Commit(t))
    ensures forall i | 0 <= i < |Next(s, Commit(t)).sessions| :: RowsShare(Next(s, Commit(t)).sessions[i])
  {
    var own, after := s.txns[t].session, Next(s, Commit(t)).sessions;
    OwnShares(s, t);
    OthersStay(s, t);
    forall i | 0 <= i < |after|
      ensures RowsShare(after[i])
    {
      if i != own {
        assert RowsShare(s.sessions[i]);
      }
    }
  }

  lemma OwnShares(s: Sys, t: TxnId)
    requires Safe(s) && Enabled(s, Commit(t))
    ensures var own, after := s.txns[t].session, Next(s, Commit(t)).sessions; own < |after| ==> RowsShare(after[own])
  {
    match s.txns[t].kind
    case CheckoutTxn => CheckoutCommitFits(s, t, 0);
    case PayTxn => PayCommitFits(s, t, 0);
    case SaleTxn => SaleCommitFits(s, t, 0);
    case AdjustTxn(_) => assert s.txns[t].session < |s.sessions| ==> RowsShare(s.sessions[s.txns[t].session]);
  }

  lemma OthersStay(s: Sys, t: TxnId)
    requires Enabled(s, Commit(t))
    ensures var after := Next(s, Commit(t)).sessions;
            && |after| == |s.sessions|
            && forall i | 0 <= i < |after| && i != s.txns[t].session :: after[i] == s.sessions[i]
  {
  }

  /** A commit leaves every other transaction's session as that transaction needs it. */
  lemma CommitSparesTargets(s: Sys, t: TxnId, u: TxnId)
    requires Safe(s) && Enabled(s, Commit(t)) && u in s.txns && u != t
    ensures TargetOk(Written(s, s.txns[t]), s.txns[u])
  {
    assert TxnOk(s, t) && TxnOk(s, u);
  }

  /** What a commit of t leaves: t and its locks are gone, everything fits, only rows that t had locked
      are disturbed, and the others' sessions are as they need them. */
  ghost predicate Landed(s: Sys, t: TxnId, r: Sys) {
    && r.now == s.now && r.txns == s.txns - {t}
    && r.locks == (map v | v in s.locks && s.locks[v] != t :: s.locks[v])
    && Fitting(r)
    && (forall v: VariantId | v !in s.locks || s.locks[v] != t :: Quiet(s, r, v))
    && (forall i | 0 <= i < |r.sessions| :: RowsShare(r.sessions[i]))
    && (forall u <- r.txns :: TargetOk(r, r.txns[u]))
  }

  lemma CommitShape(s: Sys, t: TxnId)
    requires Enabled(s, Commit(t))
    ensures var r := Next(s, Commit(t));
            r.now == s.now && r.txns == s.txns - {t} &&
              r.locks == (map v | v in s.locks && s.locks[v] != t :: s.locks[v])
  {
  }

  lemma CommitTargets(s: Sys, t: TxnId)
    requires Safe(s) && Enabled(s, Commit(t))
    ensures var r := Next(s, Commit(t)); forall u <- r.txns :: TargetOk(r, r.txns[u])
  {
    var r := Next(s, Commit(t));
    forall u <- r.txns
      ensures TargetOk(r, r.txns[u])
    {
      CommitSparesTargets(s, t, u);
    }
  }

  lemma CommitLands(s: Sys, t: TxnId)
    requires Safe(s) && Enabled(s, Commit(t))
    ensures Landed(s, t, Next(s, Commit(t)))
  {
    forall v: VariantId
      ensures var r := Next(s, Commit(t));
              Held(r.sessions, v, r.now) <= StockIn(r, v) && (v !in s.locks || s.locks[v] != t ==> Quiet(s, r, v))
    {
      CommitFits(s, t, v);
    }
    CommitShape(s, t);
    CommitShares(s, t);
    CommitTargets(s, t);
  }

  lemma LandedSpares(s: Sys, t: TxnId, r: Sys, u: TxnId)
    requires Safe(s) && Landed(s, t, r) && u in r.txns
    ensures TxnOk(r, u) && ClaimOk(r, u)
  {
    assert TxnOk(s, u) && ClaimOk(s, u);
    ClaimFrame(s, r, u);
  }

  lemma LandedSafe(s: Sys, t: TxnId, r: Sys)
    requires Safe(s) && Landed(s, t, r)
    ensures Safe(r)
  {
    forall u <- r.txns
      ensures TxnOk(r, u) && ClaimOk(r, u)
    {
      LandedSpares(s, t, r, u);
    }
    forall v <- r.locks
      ensures r.locks[v] in r.txns && HasLocked(r.txns[r.locks[v]], v)
    {
      assert HasLocked(s.txns[s.locks[v]], v);
    }
  }

  lemma CommitSafe(s: Sys, t: TxnId)
    requires Safe(s) && Enabled(s, Commit(t))
    ensures Safe(Next(s, Commit(t)))
  {
    CommitLands(s, t);
    LandedSafe(s, t, Next(s, Commit(t)));
  }

  // Every interleaving

  lemma SweptShares(sess: Session, now: int)
    requires RowsShare(sess)
    ensures var two := Lapsed(Lapsed(sess, now, Active, Expired), now, Processing, Cancelled);
            two == sess || (RowsShare(two) && !Live(two.status))
  {
    var one := Lapsed(sess, now, Active, Expired);
    var two := Lapsed(one, now, Processing, Cancelled);
    if !Overdue(sess, now, Active) {
      assert one.rows == sess.rows;
      if !Overdue(sess, now, Processing) {
        assert two.rows == sess.rows;
      }
    }
  }

  lemma LinesOfRows(sess: Session)
    ensures SameQuantities(LinesOf(sess), sess.rows)
    ensures forall v: VariantId | Total(LinesOf(sess), v) > 0 :: v in Ascending(sess.rows.Keys)
  {
    forall v: VariantId
      ensures Total(LinesOf(sess), v) == if v in sess.rows then sess.rows[v].qty else 0
    {
      OrderLinesTotal(sess, Ascending(sess.rows.Keys), v);
    }
  }

  lemma BeginningSafe(s: Sys, a: Action)
    requires Safe(s) && Enabled(s, a)
    requires a.BeginCheckout? || a.BeginPay? || a.BeginSale? || a.BeginAdjust?
    ensures Safe(Next(s, a))
  {
    match a
    case BeginCheckout(t, i, cart) =>
      forall v: VariantId | Total(cart, v) > 0
        ensures v in Ascending(VariantsOf(cart))
      {
        CartTotal(cart, v);
      }
      BeginSafe(s, t, CheckoutTxn, i, cart, Ascending(VariantsOf(cart)));
    case BeginPay(t, i) =>
      LinesOfRows(s.sessions[i]);
      BeginSafe(s, t, PayTxn, i, LinesOf(s.sessions[i]), Ascending(s.sessions[i].rows.Keys));
    case BeginSale(t, i) =>
      LinesOfRows(s.sessions[i]);
      BeginSafe(s, t, SaleTxn, i, LinesOf(s.sessions[i]), Ascending(s.sessions[i].rows.Keys));
    case BeginAdjust(t, v, target) => BeginSafe(s, t, AdjustTxn(target), 0, [], [v]);
  }

  lemma SweepSafe(s: Sys, i: SessionId)
    requires Safe(s) && Enabled(s, Sweep(i))
    ensures Safe(Next(s, Sweep(i)))
  {
    SweptShares(s.sessions[i], s.now);
    EndingSafe(s, i, Lapsed(Lapsed(s.sessions[i], s.now, Active, Expired), s.now, Processing, Cancelled));
  }

  lemma MovingSafe(s: Sys, a: Action)
    requires Safe(s) && Enabled(s, a) && Timely(s, a)
    requires a.Lock? || a.Check? || a.Commit? || a.Abort?
    ensures Safe(Next(s, a))
  {
    if a.Lock? {
      LockSafe(s, a.txn);
    } else if a.Check? {
      CheckSafe(s, a.txn);
    } else if a.Commit? {
      CommitSafe(s, a.txn);
    } else {
      ReleaseSafe(s, a.txn);
    }
  }

  lemma ClosedShares(sess: Session, status: SessionStatus)
    requires !Live(status)
    ensures RowsShare(Closed(sess, status)) && !Live(Closed(sess, status).status)
  {
  }

  lemma EndHoldSafe(s: Sys, i: SessionId)
    requires Safe(s) && Enabled(s, EndHold(i))
    ensures Safe(Next(s, EndHold(i)))
  {
    ClosedShares(s.sessions[i], Cancelled);
    EndingSafe(s, i, Closed(s.sessions[i], Cancelled));
  }

  lemma StepSafe(s: Sys, a: Action)
    requires Safe(s) && Enabled(s, a) && Timely(s, a)
    ensures Safe(Next(s, a))
  {
    if a.Wait? {
      WaitSafe(s, a.seconds);
    } else if a.NewSession? {
      NewSessionSafe(s, a.user);
    } else if a.Sweep? {
      SweepSafe(s, a.session);
    } else if a.EndHold? {
      EndHoldSafe(s, a.session);
    } else if a.Lock? || a.Check? || a.Commit? || a.Abort? {
      MovingSafe(s, a);
    } else {
      BeginningSafe(s, a);
    }
  }

  /** The states reached by a sequence of actions, each enabled where it is taken. */
  ghost predicate Executes(s: Sys, actions: seq<Action>, r: Sys)
    decreases |actions|
  {
    if actions == [] then r == s
    else Enabled(s, actions[0]) && Executes(Next(s, actions[0]), actions[1..], r)
  }

  ghost predicate TimelyRun(s: Sys, actions: seq<Action>)
    decreases |actions|
  {
    actions == [] ||
    (Enabled(s, actions[0]) && Timely(s, actions[0]) && TimelyRun(Next(s, actions[0]), actions[1..]))
  }

  /** Under every interleaving of begin, lock, read, commit, abort, sweep, cancel and clock steps in
      which pays and sales obtain their row locks before their hold expires, committed active holds
      stay within stock, and so does every lock holder's pending claim on top of the others'. */
  lemma {:induction false} InterleavingsAreSafe(s: Sys, actions: seq<Action>, r: Sys)
    requires Safe(s) && TimelyRun(s, actions) && Executes(s, actions, r)
    ensures Safe(r)
    decreases |actions|
  {
    if actions != [] {
      StepSafe(s, actions[0]);
      InterleavingsAreSafe(Next(s, actions[0]), actions[1..], r);
    }
  }
}
