/** Parent maps: chains of ancestors, cycles, and what changing a parent does to them. */
module Forests {
  import opened Tables

  type ParentMap<K> = map<K, Option<K>>

  /** The node k steps above c. */
  function Up<K(==,!new)>(g: ParentMap<K>, c: K, k: nat): Option<K>
    decreases k
  {
    if k == 0 then Some(c)
    else if c !in g || g[c].None? then None
    else Up(g, g[c].value, k - 1)
  }

  lemma {:induction false} UpAdds<K(!new)>(g: ParentMap<K>, c: K, j: nat, k: nat)
    ensures Up(g, c, j + k) == match Up(g, c, j) case None => None case Some(d) => Up(g, d, k)
    decreases j
  {
    if j > 0 && c in g && g[c].Some? {
      UpAdds(g, g[c].value, j - 1, k);
    }
  }

  ghost predicate Below<K(!new)>(g: ParentMap<K>, c: K, root: K) {
    c in g && exists k: nat :: Up(g, c, k) == Some(root)
  }

  ghost predicate Acyclic<K(!new)>(g: ParentMap<K>) {
    forall c: K, k: nat | k > 0 :: Up(g, c, k) != Some(c)
  }

  /** Every parent is a node, as a foreign key demands. */
  predicate Closed<K(==,!new)>(g: ParentMap<K>) {
    forall c <- g | g[c].Some? :: g[c].value in g
  }

  ghost predicate Forest<K(!new)>(g: ParentMap<K>) {
    Closed(g) && Acyclic(g)
  }

  // Changing one parent

  /** A chain that does not pass through c does not notice what c's parent is. */
  lemma {:induction false} SameUntil<K(!new)>(g: ParentMap<K>, c: K, parent: Option<K>, x: K, k: nat)
    requires forall j: nat | j < k :: Up(g, x, j) != Some(c)
    ensures Up(g[c := parent], x, k) == Up(g, x, k)
    decreases k
  {
    if k > 0 {
      assert Up(g, x, 0) == Some(x);
      if x in g && g[x].Some? {
        forall j: nat | j < k - 1
          ensures Up(g, g[x].value, j) != Some(c)
        {
          assert Up(g, x, j + 1) == Up(g, g[x].value, j);
        }
        SameUntil(g, c, parent, g[x].value, k - 1);
      }
    }
  }

  /** The same the other way round: a chain of the new graph that avoids c is one of the old. */
  lemma SameBack<K(!new)>(g: ParentMap<K>, c: K, h: ParentMap<K>, x: K, k: nat)
    requires c in g && c in h && h[c := g[c]] == g
    requires forall j: nat | j < k :: Up(h, x, j) != Some(c)
    ensures Up(h, x, k) == Up(g, x, k)
  {
    SameUntil(h, c, g[c], x, k);
  }

  /** The first time a chain reaches c. */
  lemma {:induction false} FirstVisit<K(!new)>(g: ParentMap<K>, x: K, c: K, k: nat) returns (m: nat)
    requires Up(g, x, k) == Some(c)
    ensures m <= k && Up(g, x, m) == Some(c) && forall j: nat | j < m :: Up(g, x, j) != Some(c)
    decreases k
  {
    if j: nat :| j < k && Up(g, x, j) == Some(c) {
      m := FirstVisit(g, x, c, j);
    } else {
      m := k;
    }
  }

  /** Hanging c under a node that is not below it leaves c above no chain that starts there. */
  lemma ParentAvoids<K(!new)>(g: ParentMap<K>, c: K, p: K, k: nat)
    requires c in g && p in g && !Below(g, p, c)
    ensures Up(g[c := Some(p)], p, k) == Up(g, p, k)
    ensures Up(g[c := Some(p)], p, k) != Some(c)
  {
    assert forall j: nat :: Up(g, p, j) != Some(c);
    SameUntil(g, c, Some(p), p, k);
  }

  lemma MoveStaysAcyclic<K(!new)>(g: ParentMap<K>, c: K, p: K)
    requires Acyclic(g) && c in g && p in g && !Below(g, p, c)
    ensures Acyclic(g[c := Some(p)])
  {
    var h := g[c := Some(p)];
    forall x: K, k: nat | k > 0
      ensures Up(h, x, k) != Some(x)
    {
      if Up(h, x, k) == Some(x) {
        if j: nat :| j < k && Up(h, x, j) == Some(c) {
          // round the circle from c: up to x, and on to c again
          UpAdds(h, x, j, k - j);
          UpAdds(h, c, k - j, j);
          assert Up(h, c, k) == Some(c);
          assert Up(h, c, k) == Up(h, p, k - 1);
          ParentAvoids(g, c, p, k - 1);
        } else {
          SameBack(g, c, h, x, k);
        }
      }
    }
  }

  /** The cycle guard is exact: a move is refused as a cycle only if it would close one. */
  lemma MoveStaysAcyclicIff<K(!new)>(g: ParentMap<K>, c: K, p: K)
    requires Acyclic(g) && c in g && p in g
    ensures Acyclic(g[c := Some(p)]) <==> !Below(g, p, c)
  {
    if Below(g, p, c) {
      var k: nat :| Up(g, p, k) == Some(c);
      var m := FirstVisit(g, p, c, k);
      SameUntil(g, c, Some(p), p, m);
      assert Up(g[c := Some(p)], c, m + 1) == Some(c);
    } else {
      MoveStaysAcyclic(g, c, p);
    }
  }

  lemma RootStaysAcyclic<K(!new)>(g: ParentMap<K>, c: K)
    requires Acyclic(g) && c in g
    ensures Acyclic(g[c := None])
  {
    var h := g[c := None];
    forall x: K, k: nat | k > 0
      ensures Up(h, x, k) != Some(x)
    {
      if Up(h, x, k) == Some(x) {
        if j: nat :| j < k && Up(h, x, j) == Some(c) {
          UpAdds(h, x, j, k - j);
        } else {
          SameBack(g, c, h, x, k);
        }
      }
    }
  }

  /** Nothing hangs under a node that did not exist, so a chain from anywhere else misses it. */
  lemma {:induction false} NewIsNotReached<K(!new)>(g: ParentMap<K>, id: K, x: K, k: nat)
    requires Closed(g) && id !in g && x in g
    ensures Up(g, x, k) != Some(id)
    decreases k
  {
    if k > 0 && g[x].Some? {
      NewIsNotReached(g, id, g[x].value, k - 1);
    }
  }

  lemma NewStaysAcyclic<K(!new)>(g: ParentMap<K>, id: K, parent: Option<K>)
    requires Forest(g) && id !in g && (parent.Some? ==> parent.value in g)
    ensures Acyclic(g[id := parent])
  {
    var h := g[id := parent];
    forall x: K, k: nat | k > 0
      ensures Up(h, x, k) != Some(x)
    {
      if x in g {
        forall j: nat
          ensures Up(g, x, j) != Some(id)
        {
          NewIsNotReached(g, id, x, j);
        }
        SameUntil(g, id, parent, x, k);
      } else if x == id && parent.Some? {
        forall j: nat
          ensures Up(g, parent.value, j) != Some(id)
        {
          NewIsNotReached(g, id, parent.value, j);
        }
        SameUntil(g, id, parent, parent.value, k - 1);
      }
    }
  }

  /** A chain that ends where c has lost its parent did not pass c. */
  lemma {:induction false} SeveredChain<K(!new)>(g: ParentMap<K>, c: K, x: K, k: nat, b: K)
    requires Up(g[c := None], x, k) == Some(b) && b != c
    ensures Up(g, x, k) == Some(b)
    decreases k
  {
    if k > 0 && x != c {
      SeveredChain(g, c, g[x].value, k - 1, b);
    }
  }

  lemma RootThenMove<K(!new)>(g: ParentMap<K>, a: K, b: K, q: K)
    requires Acyclic(g[a := None]) && a in g && b in g && q in g && a != b && !Below(g, q, b)
    ensures Acyclic(g[a := None][b := Some(q)])
  {
    if Below(g[a := None], q, b) {
      var k: nat :| Up(g[a := None], q, k) == Some(b);
      SeveredChain(g, a, q, k, b);
    }
    MoveStaysAcyclic(g[a := None], b, q);
  }

  /** Once a hangs under p, b is above q exactly when a was above q and b above p. */
  lemma BelowThrough<K(!new)>(g: ParentMap<K>, a: K, p: K, b: K, q: K)
    requires a in g && p in g && q in g && a != b && !Below(g, p, a) && !Below(g, q, b)
    ensures Below(g[a := Some(p)], q, b) <==> Below(g, p, b) && Below(g, q, a)
  {
    var h := g[a := Some(p)];
    if Below(h, q, b) {
      var k: nat :| Up(h, q, k) == Some(b);
      ThroughBack(g, a, p, b, q, k);
    }
    if Below(g, p, b) && Below(g, q, a) {
      var i: nat, k: nat :| Up(g, p, i) == Some(b) && Up(g, q, k) == Some(a);
      var m := FirstVisit(g, q, a, k);
      SameUntil(g, a, Some(p), q, m);
      ParentAvoids(g, a, p, i);
      UpAdds(h, q, m, i + 1);
      assert Up(h, q, m + (i + 1)) == Some(b);
    }
  }

  lemma ThroughBack<K(!new)>(g: ParentMap<K>, a: K, p: K, b: K, q: K, k: nat)
    requires a in g && p in g && q in g && a != b && !Below(g, p, a) && !Below(g, q, b)
    requires Up(g[a := Some(p)], q, k) == Some(b)
    ensures Below(g, p, b) && Below(g, q, a)
  {
    var h := g[a := Some(p)];
    if j: nat :| j < k && Up(h, q, j) == Some(a) {
      var m := FirstVisit(h, q, a, j);
      SameBack(g, a, h, q, m);
      UpAdds(h, q, m, k - m);
      assert Up(h, a, k - m) == Up(h, p, k - m - 1);
      ParentAvoids(g, a, p, k - m - 1);
    } else {
      SameBack(g, a, h, q, k);
    }
  }

  /** Two moves, each of which would keep g acyclic, close a circle between them exactly when each hangs
      its node below the other's. */
  lemma TwoMovesCycleIff<K(!new)>(g: ParentMap<K>, a: K, p: K, b: K, q: K)
    requires Acyclic(g) && a in g && p in g && b in g && q in g && a != b
    requires !Below(g, p, a) && !Below(g, q, b)
    ensures !Acyclic(g[a := Some(p)][b := Some(q)]) <==> Below(g, p, b) && Below(g, q, a)
  {
    MoveStaysAcyclic(g, a, p);
    MoveStaysAcyclicIff(g[a := Some(p)], b, q);
    BelowThrough(g, a, p, b, q);
  }

  /** A node lifted to the top can take its old parent below it. */
  lemma LiftAndHang<K(!new)>(g: ParentMap<K>, a: K, b: K)
    requires Forest(g) && a in g && g[a] == Some(b) && a != b
    ensures b in g && !Below(g[a := None], a, b)
    ensures var h := g[a := None][b := Some(a)]; Forest(h) && Below(h, b, a)
  {
    var lifted := g[a := None];
    RootStaysAcyclic(g, a);
    assert forall k: nat | k > 0 :: Up(lifted, a, k).None?;
    MoveStaysAcyclic(lifted, b, a);
    var h := lifted[b := Some(a)];
    assert Up(h, b, 1) == Up(h, a, 0) == Some(a);
  }
}
