/** app/repositories/reservation_repo.py: reserved stock derived from the reservation rows. */
module Holds {
  import opened Tables

  /** What one session holds of v: its row, if the row is active and not past its expiry. */
  function HeldBy(sess: Session, v: VariantId, now: int): nat {
    if v in sess.rows && Live(sess.rows[v].status) && now < sess.rows[v].expires then sess.rows[v].qty else 0
  }

  /** SUM(quantity) of v over active, unexpired rows. */
  function Held(ss: seq<Session>, v: VariantId, now: int): nat {
    if ss == [] then 0
    else
      var n := |ss| - 1;
      Held(ss[..n], v, now) + HeldBy(ss[n], v, now)
  }

  /** The same sum without the rows of one session. */
  function HeldByOthers(ss: seq<Session>, v: VariantId, now: int, own: SessionId): nat {
    if ss == [] then 0
    else
      var n := |ss| - 1;
      HeldByOthers(ss[..n], v, now, own) + if n == own then 0 else HeldBy(ss[n], v, now)
  }

  /** The user's one live session: first index with the user and a live status. */
  function LiveSession(ss: seq<Session>, user: UserId): (r: Option<SessionId>)
    ensures r.Some? ==> r.value < |ss| && ss[r.value].user == user && Live(ss[r.value].status)
    ensures r.None? ==> forall i | 0 <= i < |ss| :: ss[i].user == user ==> !Live(ss[i].status)
  {
    if ss == [] then None
    else
      var n := |ss| - 1;
      match LiveSession(ss[..n], user)
      case Some(i) => Some(i)
      case None => if ss[n].user == user && Live(ss[n].status) then Some(n) else None
  }

  lemma {:induction false} OwnAndOthers(ss: seq<Session>, v: VariantId, now: int, own: SessionId)
    ensures own < |ss| ==> Held(ss, v, now) == HeldByOthers(ss, v, now, own) + HeldBy(ss[own], v, now)
    ensures own >= |ss| ==> Held(ss, v, now) == HeldByOthers(ss, v, now, own)
  {
    if ss != [] {
      OwnAndOthers(ss[..|ss| - 1], v, now, own);
    }
  }

  lemma {:induction false} OthersIgnoreOwn(ss: seq<Session>, v: VariantId, now: int, own: SessionId, sess: Session)
    requires own < |ss|
    ensures HeldByOthers(ss[own := sess], v, now, own) == HeldByOthers(ss, v, now, own)
  {
    if ss != [] {
      var n := |ss| - 1;
      if own < n {
        assert ss[own := sess][..n] == ss[..n][own := sess];
        OthersIgnoreOwn(ss[..n], v, now, own, sess);
      } else {
        assert ss[own := sess][..n] == ss[..n];
      }
    }
  }

  /** Replacing one session's rows changes the sum by exactly the difference of its own part. */
  lemma HeldReplaced(ss: seq<Session>, v: VariantId, now: int, own: SessionId, sess: Session)
    requires own < |ss|
    ensures Held(ss[own := sess], v, now) == HeldByOthers(ss, v, now, own) + HeldBy(sess, v, now)
    ensures Held(ss, v, now) == HeldByOthers(ss, v, now, own) + HeldBy(ss[own], v, now)
  {
    OwnAndOthers(ss, v, now, own);
    OwnAndOthers(ss[own := sess], v, now, own);
    OthersIgnoreOwn(ss, v, now, own, sess);
  }

  lemma HeldAppended(ss: seq<Session>, v: VariantId, now: int, sess: Session)
    ensures Held(ss + [sess], v, now) == Held(ss, v, now) + HeldBy(sess, v, now)
  {
    assert (ss + [sess])[..|ss|] == ss;
  }

  lemma {:induction false} OthersShrink(ss: seq<Session>, tt: seq<Session>, v: VariantId, now: int, later: int,
                                        own: SessionId)
    requires |ss| == |tt|
    requires forall i | 0 <= i < |ss| && i != own :: HeldBy(tt[i], v, later) <= HeldBy(ss[i], v, now)
    ensures HeldByOthers(tt, v, later, own) <= HeldByOthers(ss, v, now, own)
  {
    if ss != [] {
      var n := |ss| - 1;
      OthersShrink(ss[..n], tt[..n], v, now, later, own);
    }
  }

  /** If no session holds more than before, neither does the table. */
  lemma {:induction false} HeldShrinks(ss: seq<Session>, tt: seq<Session>, v: VariantId, now: int, later: int)
    requires |ss| == |tt|
    requires forall i | 0 <= i < |ss| :: HeldBy(tt[i], v, later) <= HeldBy(ss[i], v, now)
    ensures Held(tt, v, later) <= Held(ss, v, now)
  {
    if ss != [] {
      var n := |ss| - 1;
      HeldShrinks(ss[..n], tt[..n], v, now, later);
    }
  }
}
