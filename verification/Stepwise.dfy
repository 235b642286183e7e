/** Taking steps one after another, any of which may abort, and adding up what they report. */
module Stepwise {
  import opened Tables

  datatype Tally = Tally(created: nat, updated: nat)

  const NONE := Tally(0, 0)

  function Add(a: Tally, b: Tally): Tally {
    Tally(a.created + b.created, a.updated + b.updated)
  }

  function Each<S, Op>(step: (S, Op) -> Option<(S, Tally)>, s: S, ops: seq<Op>): Option<(S, Tally)> {
    if ops == [] then Some((s, NONE))
    else
      var n := |ops| - 1;
      match Each(step, s, ops[..n])
      case None => None
      case Some((m, t)) =>
        (match step(m, ops[n])
         case None => None
         case Some((r, u)) => Some((r, Add(t, u))))
  }

  function Continued<S, Op>(step: (S, Op) -> Option<(S, Tally)>, sofar: Option<(S, Tally)>,
                            ops: seq<Op>): Option<(S, Tally)> {
    match sofar
    case None => None
    case Some((m, t)) =>
      match Each(step, m, ops)
      case None => None
      case Some((r, u)) => Some((r, Add(t, u)))
  }

  lemma {:induction false} EachInTurn<S, Op>(step: (S, Op) -> Option<(S, Tally)>, s: S, a: seq<Op>, b: seq<Op>)
    ensures Each(step, s, a + b) == Continued(step, Each(step, s, a), b)
  {
    if b == [] {
      assert a + b == a;
    } else {
      assert (a + b)[..|a + b| - 1] == a + b[..|b| - 1];
      EachInTurn(step, s, a, b[..|b| - 1]);
    }
  }

  /** From s, with report t, exactly these steps lead to r, with report u. */
  ghost predicate Takes<S, Op>(step: (S, Op) -> Option<(S, Tally)>, s: S, t: Tally, ops: seq<Op>, r: S, u: Tally) {
    t.created <= u.created && t.updated <= u.updated &&
    Each(step, s, ops) == Some((r, Tally(u.created - t.created, u.updated - t.updated)))
  }

  lemma OneAfterTheOther<S, Op>(step: (S, Op) -> Option<(S, Tally)>, s: S, a: seq<Op>, m: S, x: Tally, b: seq<Op>,
                                r: S, y: Tally)
    requires Each(step, s, a) == Some((m, x)) && Each(step, m, b) == Some((r, y))
    ensures Each(step, s, a + b) == Some((r, Add(x, y)))
  {
    EachInTurn(step, s, a, b);
  }

  lemma TakesThen<S, Op>(step: (S, Op) -> Option<(S, Tally)>, s: S, t: Tally, a: seq<Op>, m: S, u: Tally, b: seq<Op>,
                         r: S, v: Tally)
    requires Takes(step, s, t, a, m, u) && Takes(step, m, u, b, r, v)
    ensures Takes(step, s, t, a + b, r, v)
  {
    var x, y := Tally(u.created - t.created, u.updated - t.updated),
      Tally(v.created - u.created, v.updated - u.updated);
    OneAfterTheOther(step, s, a, m, x, b, r, y);
  }

  /** The next of a list of steps. */
  lemma TakesNext<S, Op>(step: (S, Op) -> Option<(S, Tally)>, s: S, t: Tally, ops: seq<Op>, k: nat, m: S, u: Tally,
                         r: S, v: Tally)
    requires k < |ops| && Takes(step, s, t, ops[..k], m, u) && Takes(step, m, u, [ops[k]], r, v)
    ensures Takes(step, s, t, ops[..k + 1], r, v)
  {
    TakesThen(step, s, t, ops[..k], m, u, [ops[k]], r, v);
    assert ops[..k + 1] == ops[..k] + [ops[k]];
  }

  /** If one part aborts, so does the whole. */
  lemma AbortsThen<S, Op>(step: (S, Op) -> Option<(S, Tally)>, s: S, t: Tally, a: seq<Op>, m: S, u: Tally, b: seq<Op>)
    requires Takes(step, s, t, a, m, u) && Each(step, m, b).None?
    ensures Each(step, s, a + b).None?
  {
    EachInTurn(step, s, a, b);
  }

  lemma AbortsEarly<S, Op>(step: (S, Op) -> Option<(S, Tally)>, s: S, a: seq<Op>, b: seq<Op>)
    requires Each(step, s, a).None?
    ensures Each(step, s, a + b).None?
  {
    EachInTurn(step, s, a, b);
  }

  lemma OneStep<S, Op>(step: (S, Op) -> Option<(S, Tally)>, s: S, t: Tally, op: Op, r: S, u: Tally)
    requires step(s, op) == Some((r, u))
    ensures Takes(step, s, t, [op], r, Add(t, u))
  {
    assert [op][..0] == [];
  }

  lemma OneAborts<S, Op>(step: (S, Op) -> Option<(S, Tally)>, s: S, op: Op)
    requires step(s, op).None?
    ensures Each(step, s, [op]).None?
  {
    assert [op][..0] == [];
  }
}
