/** sorted(set(ids)) and ORDER BY variant_id: the increasing enumeration of a finite set of ids. */
module Ordering {
  predicate Increasing(s: seq<nat>) {
    forall i, j | 0 <= i < j < |s| :: s[i] < s[j]
  }

  lemma {:induction false} HasLeast(s: set<nat>)
    requires s != {}
    ensures exists x <- s :: forall y <- s :: x <= y
  {
    var x :| x in s;
    var below := set y <- s | y < x;
    if below == {} {
      assert forall y <- s :: y !in below;
      assert forall y <- s :: x <= y;
    } else {
      assert x !in below;
      HasLeast(below);
      var m :| m in below && forall y <- below :: m <= y;
      assert forall y <- s :: y in below || x <= y;
      assert forall y <- s :: m <= y;
    }
  }

  function Least(s: set<nat>): nat
    requires s != {}
  {
    HasLeast(s);
    var x :| x in s && forall y <- s :: x <= y;
    x
  }

  function Ascending(s: set<nat>): (r: seq<nat>)
    ensures Increasing(r)
    ensures forall i | 0 <= i < |r| :: r[i] in s
    ensures forall x <- s :: x in r
    ensures |r| == |s|
  {
    if s == {} then []
    else
      var x := Least(s);
      [x] + Ascending(s - {x})
  }
}
