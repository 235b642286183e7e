/** app/repositories/category_repo.py and app/services/admin_category_service.py: the category forest,
    its two walks and the guard on new parents. */
module Categories {
  import opened Tables
  import opened Forests

  type CategoryId = nat

  /** parent_id by category; soft-deleted categories keep their row. */
  type Parents = ParentMap<CategoryId>

  const MAX_DEPTH: nat := 3

  // The walks

  ghost predicate HasDepth(g: Parents, c: CategoryId, d: nat) {
    Up(g, c, d).Some? && Up(g, c, d + 1).None?
  }

  function Children(g: Parents, s: set<CategoryId>): set<CategoryId> {
    set c <- g | g[c].Some? && g[c].value in s
  }

  /** Whatever contains the root's children and the children of its members contains all descendants. */
  lemma {:induction false} ClosedUnderChildren(g: Parents, root: CategoryId, s: set<CategoryId>, c: CategoryId, k: nat)
    requires forall d <- g | g[d].Some? && (g[d].value in s || g[d].value == root) :: d in s || d == root
    requires c in g && Up(g, c, k) == Some(root)
    ensures c in s || c == root
    decreases k
  {
    if k > 0 && g[c].value in g {
      ClosedUnderChildren(g, root, s, g[c].value, k - 1);
    }
  }

  lemma ChildrenAreBelow(g: Parents, root: CategoryId, s: set<CategoryId>, c: CategoryId)
    requires forall d <- s :: d == root || Below(g, d, root)
    requires c in Children(g, s)
    ensures Below(g, c, root)
  {
    var p := g[c].value;
    if p == root {
      assert Up(g, c, 1) == Some(root);
    } else {
      var k: nat :| Up(g, p, k) == Some(root);
      assert Up(g, c, k + 1) == Some(root);
    }
  }

  /** get_depth's walk: it stops at a root, or at the first category it has seen. */
  function DepthWalk<K(==,!new)>(g: ParentMap<K>, c: K, seen: set<K>, depth: nat): nat
    decreases g.Keys - seen
  {
    if c in seen || c !in g || g[c].None? then depth
    else DepthWalk(g, g[c].value, seen + {c}, depth + 1)
  }

  ghost predicate Path(g: Parents, c: CategoryId, seen: set<CategoryId>, n: nat) {
    forall d: CategoryId :: d in seen <==> exists j: nat | j < n :: Up(g, c, j) == Some(d)
  }

  ghost predicate Repeats(g: Parents, c: CategoryId, d: nat) {
    exists j: nat | j < d :: Up(g, c, j) == Up(g, c, d)
  }

  /** On any graph the walk counts the steps to the top, or to the first repetition if there is no top. */
  lemma {:induction false} WalkIs(g: Parents, c: CategoryId, x: CategoryId, seen: set<CategoryId>, n: nat)
    requires Up(g, c, n) == Some(x) && Path(g, c, seen, n)
    requires forall i, j | 0 <= i < j < n :: Up(g, c, i) != Up(g, c, j)
    ensures var d := DepthWalk(g, x, seen, n);
            && Up(g, c, d).Some?
            && (forall i, j | 0 <= i < j < d :: Up(g, c, i) != Up(g, c, j))
            && (HasDepth(g, c, d) || Repeats(g, c, d))
    decreases g.Keys - seen
  {
    UpAdds(g, c, n, 1);
    if x in seen {
      var j: nat :| j < n && Up(g, c, j) == Some(x);
      assert Repeats(g, c, n);
    } else if x !in g || g[x].None? {
      assert Up(g, x, 1).None?;
    } else {
      assert Up(g, x, 1) == Some(g[x].value) by {
        assert Up(g, g[x].value, 0) == Some(g[x].value);
      }
      forall i, j | 0 <= i < j < n + 1
        ensures Up(g, c, i) != Up(g, c, j)
      {
      }
      WalkIs(g, c, g[x].value, seen + {x}, n + 1);
    }
  }

  /** In an acyclic graph get_depth is the distance to the root ancestor. */
  lemma WalkIsDepth(g: Parents, c: CategoryId)
    requires Acyclic(g)
    ensures HasDepth(g, c, DepthWalk(g, c, {}, 0))
  {
    WalkIs(g, c, c, {}, 0);
    var d := DepthWalk(g, c, {}, 0);
    if j: nat :| j < d && Up(g, c, j) == Up(g, c, d) {
      UpAdds(g, c, j, d - j);
      assert Up(g, Up(g, c, j).value, d - j) == Some(Up(g, c, j).value);
    }
  }

  lemma DepthIsUnique(g: Parents, c: CategoryId, d: nat, e: nat)
    requires HasDepth(g, c, d) && HasDepth(g, c, e)
    ensures d == e
  {
    if d < e {
      UpAdds(g, c, d + 1, e - d - 1);
    } else if e < d {
      UpAdds(g, c, e + 1, d - e - 1);
    }
  }

  // The guard, for any kind of key

  datatype Refusal = SelfParent | ParentNotFound | WouldCycle | TooDeep

  /** The first reason to refuse p as a parent: of the moving category, or of one being created. */
  ghost function Refusals<K(!new)>(g: ParentMap<K>, deleted: set<K>, p: K, moving: Option<K>): Option<Refusal> {
    if moving == Some(p) then Some(SelfParent)
    else if p !in g || p in deleted then Some(ParentNotFound)
    else if moving.Some? && Below(g, p, moving.value) then Some(WouldCycle)
    else if DepthWalk(g, p, {}, 0) + 1 >= MAX_DEPTH then Some(TooDeep)
    else None
  }

  datatype Outcome = Saved | NotFound | Refused(why: Refusal)

  ghost function CategoryCreated(g: Parents, deleted: set<CategoryId>, id: CategoryId,
                                 parent: Option<CategoryId>): (Outcome, Parents) {
    var why := if parent.None? then None else Refusals(g, deleted, parent.value, None);
    if why.Some? then (Refused(why.value), g) else (Saved, g[id := parent])
  }

  ghost function CategoryMoved<K(!new)>(g: ParentMap<K>, deleted: set<K>, id: K,
                                             parent: Option<K>): (Outcome, ParentMap<K>) {
    if id !in g || id in deleted then (NotFound, g)
    else
      var why := if parent.None? then None else Refusals(g, deleted, parent.value, Some(id));
      if why.Some? then (Refused(why.value), g) else (Saved, g[id := parent])
  }

  class CategoryRepository {
    var parents: Parents
    var deleted: set<CategoryId>

    constructor ()
      ensures parents == map[] && deleted == {}
    {
      parents, deleted := map[], {};
    }

    /** Exactly the categories under the root, on any graph, cyclic ones included. */
    method DescendantIds(root: CategoryId) returns (result: set<CategoryId>)
      ensures forall c: CategoryId :: c in result <==> c != root && Below(parents, c, root)
    {
      result := {};
      var frontier := {root};
      while frontier != {}
        invariant frontier <= result + {root}
        invariant forall c <- result :: c != root && Below(parents, c, root)
        invariant forall c <- parents | parents[c].Some? && parents[c].value in result + {root} - frontier ::
                  c in result || c == root
        decreases parents.Keys - result, frontier
      {
        var children := Children(parents, frontier);
        forall c <- children
          ensures Below(parents, c, root)
        {
          ChildrenAreBelow(parents, root, frontier, c);
        }
        children := children - result;
        children := children - {root};
        result := result + children;
        frontier := children;
      }
      forall c: CategoryId | c != root && Below(parents, c, root)
        ensures c in result
      {
        var k: nat :| Up(parents, c, k) == Some(root);
        ClosedUnderChildren(parents, root, result, c, k);
      }
    }

    method GetDepth(c: CategoryId) returns (depth: nat)
      ensures depth == DepthWalk(parents, c, {}, 0)
    {
      depth := 0;
      var current := Some(c);
      var seen: set<CategoryId> := {};
      while current.Some?
        invariant current.Some? ==> DepthWalk(parents, current.value, seen, depth) == DepthWalk(parents, c, {}, 0)
        invariant current.None? ==> depth == DepthWalk(parents, c, {}, 0)
        decreases current.Some?, parents.Keys - seen
      {
        if current.value in seen {
          return;
        }
        seen := seen + {current.value};
        current := if current.value in parents then parents[current.value] else None;
        if current.Some? {
          depth := depth + 1;
        }
      }
    }
  }

  class AdminCategoryService {
    const categories: CategoryRepository

    constructor (categories: CategoryRepository)
      ensures this.categories == categories
    {
      this.categories := categories;
    }

    method ValidateParent(p: CategoryId, moving: Option<CategoryId>) returns (r: Option<Refusal>)
      ensures r == Refusals(categories.parents, categories.deleted, p, moving)
    {
      if moving == Some(p) {
        return Some(SelfParent);
      }
      if p !in categories.parents || p in categories.deleted {
        return Some(ParentNotFound);
      }
      if moving.Some? {
        var descendants := categories.DescendantIds(moving.value);
        if p in descendants {
          return Some(WouldCycle);
        }
      }
      var parentDepth := categories.GetDepth(p);
      if parentDepth + 1 >= MAX_DEPTH {
        return Some(TooDeep);
      }
      return None;
    }

    /** id is the new row's generated key. */
    method CreateCategory(id: CategoryId, parent: Option<CategoryId>) returns (r: Outcome)
      requires id !in categories.parents
      modifies categories`parents
      ensures (r, categories.parents) == CategoryCreated(old(categories.parents), categories.deleted, id, parent)
    {
      if parent.Some? {
        var why := ValidateParent(parent.value, None);
        if why.Some? {
          return Refused(why.value);
        }
      }
      categories.parents := categories.parents[id := parent];
      return Saved;
    }

    method UpdateParent(id: CategoryId, parent: Option<CategoryId>) returns (r: Outcome)
      modifies categories`parents
      ensures (r, categories.parents) == CategoryMoved(old(categories.parents), categories.deleted, id, parent)
    {
      if id !in categories.parents || id in categories.deleted {
        return NotFound;
      }
      if parent.Some? {
        var why := ValidateParent(parent.value, Some(id));
        if why.Some? {
          return Refused(why.value);
        }
      }
      categories.parents := categories.parents[id := parent];
      return Saved;
    }
  }

  // What the guard keeps

  datatype Event =
    | Create(id: CategoryId, parent: Option<CategoryId>)
    | Move(id: CategoryId, parent: Option<CategoryId>)
    | SoftDelete(id: CategoryId)

  datatype Tree = Tree(parents: Parents, deleted: set<CategoryId>)

  predicate Fresh(t: Tree, e: Event) {
    e.Create? ==> e.id !in t.parents
  }

  ghost function Step(t: Tree, e: Event): Tree {
    match e
    case Create(id, parent) => t.(parents := CategoryCreated(t.parents, t.deleted, id, parent).1)
    case Move(id, parent) => t.(parents := CategoryMoved(t.parents, t.deleted, id, parent).1)
    case SoftDelete(id) => t.(deleted := t.deleted + {id})
  }

  /** How the service answers the event. */
  ghost function Answer(t: Tree, e: Event): Outcome {
    match e
    case Create(id, parent) => CategoryCreated(t.parents, t.deleted, id, parent).0
    case Move(id, parent) => CategoryMoved(t.parents, t.deleted, id, parent).0
    case SoftDelete(_) => Saved
  }

  ghost predicate Reaches(t: Tree, es: seq<Event>, u: Tree)
    decreases |es|
  {
    if es == [] then u == t else Fresh(t, es[0]) && Reaches(Step(t, es[0]), es[1..], u)
  }

  lemma StepKeepsForest(t: Tree, e: Event)
    requires Forest(t.parents) && Fresh(t, e)
    ensures Forest(Step(t, e).parents)
  {
    if e.Create? {
      if Step(t, e) != t {
        NewStaysAcyclic(t.parents, e.id, e.parent);
      }
    } else if e.Move? && Step(t, e) != t {
      if e.parent.None? {
        RootStaysAcyclic(t.parents, e.id);
      } else {
        MoveStaysAcyclic(t.parents, e.id, e.parent.value);
      }
    }
  }

  /** Every run of guarded creates, moves and soft deletes, from the empty table on, keeps a forest. */
  lemma {:induction false} RunKeepsForest(t: Tree, es: seq<Event>, u: Tree)
    requires Forest(t.parents) && Reaches(t, es, u)
    ensures Forest(u.parents)
    decreases |es|
  {
    if es != [] {
      StepKeepsForest(t, es[0]);
      RunKeepsForest(Step(t, es[0]), es[1..], u);
    }
  }

  // What the guard answers

  /** In a forest a move is saved iff the category is there and the parent, if there is one, is another one,
      there, not below it, and at depth 0 or 1; and then only the category's parent has changed. */
  lemma MoveAnswers(g: Parents, deleted: set<CategoryId>, id: CategoryId, p: CategoryId)
    requires Forest(g)
    ensures var (r, h) := CategoryMoved(g, deleted, id, Some(p));
            && (r == Saved <==>
                && id in g && id !in deleted && p != id && p in g && p !in deleted && !Below(g, p, id)
                && (HasDepth(g, p, 0) || HasDepth(g, p, 1)))
            && (r == NotFound <==> id !in g || id in deleted)
            && (id in g && id !in deleted ==>
                  && (r == Refused(SelfParent) <==> p == id)
                  && (r == Refused(ParentNotFound) <==> p != id && (p !in g || p in deleted))
                  && (r == Refused(WouldCycle) <==> p != id && p in g && p !in deleted && Below(g, p, id)))
            && h == if r == Saved then g[id := Some(p)] else g
  {
    DepthIsSmallIff(g, p);
  }

  lemma DepthIsSmallIff(g: Parents, p: CategoryId)
    requires Forest(g)
    ensures DepthWalk(g, p, {}, 0) < 2 <==> HasDepth(g, p, 0) || HasDepth(g, p, 1)
  {
    var d := DepthWalk(g, p, {}, 0);
    WalkIsDepth(g, p);
    if HasDepth(g, p, 0) {
      DepthIsUnique(g, p, 0, d);
    } else if HasDepth(g, p, 1) {
      DepthIsUnique(g, p, 1, d);
    }
  }

  /** A category may always be moved to the top, and be created there or under a parent at depth 0 or 1. */
  lemma CreateAnswers(g: Parents, deleted: set<CategoryId>, id: CategoryId, p: CategoryId)
    requires Forest(g)
    ensures CategoryCreated(g, deleted, id, None) == (Saved, g[id := None])
    ensures id in g && id !in deleted ==> CategoryMoved(g, deleted, id, None) == (Saved, g[id := None])
    ensures var (r, h) := CategoryCreated(g, deleted, id, Some(p));
            && (r == Saved <==> p in g && p !in deleted && (HasDepth(g, p, 0) || HasDepth(g, p, 1)))
            && (r == Refused(ParentNotFound) <==> p !in g || p in deleted)
            && h == if r == Saved then g[id := Some(p)] else g
  {
    DepthIsSmallIff(g, p);
  }

  // Depth

  /** p's own depth is not affected by what is hung under it. */
  lemma ParentDepth(g: Parents, c: CategoryId, p: CategoryId, d: nat)
    requires p in g && HasDepth(g, p, d) && (c in g ==> !Below(g, p, c)) && (c !in g ==> Closed(g))
    ensures HasDepth(g[c := Some(p)], c, d + 1)
  {
    forall j: nat
      ensures Up(g, p, j) != Some(c)
    {
      if c !in g {
        NewIsNotReached(g, c, p, j);
      }
    }
    SameUntil(g, c, Some(p), p, d);
    SameUntil(g, c, Some(p), p, d + 1);
    var h := g[c := Some(p)];
    assert Up(h, c, d + 1) == Up(h, p, d) && Up(h, c, d + 2) == Up(h, p, d + 1);
  }

  /** Whenever a create or a move is saved, one that keeps the parent included, the category is within
      the cap. */
  lemma PlacedWithinCap(t: Tree, e: Event, d: nat)
    requires Forest(t.parents) && Fresh(t, e) && !e.SoftDelete? && Answer(t, e) == Saved
    requires HasDepth(Step(t, e).parents, e.id, d)
    ensures d < MAX_DEPTH
  {
    var h := Step(t, e).parents;
    if e.parent.None? {
      assert Up(h, e.id, 1).None?;
      assert HasDepth(h, e.id, 0);
      DepthIsUnique(h, e.id, d, 0);
    } else {
      var p := e.parent.value;
      WalkIsDepth(t.parents, p);
      ParentDepth(t.parents, e.id, p, DepthWalk(t.parents, p, {}, 0));
      DepthIsUnique(h, e.id, d, DepthWalk(t.parents, p, {}, 0) + 1);
    }
  }

  ghost predicate WithinCap(g: Parents) {
    forall c: CategoryId, d: nat | c in g && HasDepth(g, c, d) :: d < MAX_DEPTH
  }

  /** Moving c under p puts a category k levels below c at p's depth + 1 + k. */
  lemma MovedDepth(g: Parents, c: CategoryId, p: CategoryId, d: nat, x: CategoryId, k: nat)
    requires Acyclic(g) && c in g && p in g && !Below(g, p, c) && HasDepth(g, p, d)
    requires Up(g, x, k) == Some(c)
    ensures HasDepth(g[c := Some(p)], x, d + 1 + k)
  {
    var h := g[c := Some(p)];
    forall j: nat | j < k
      ensures Up(g, x, j) != Some(c)
    {
      if Up(g, x, j) == Some(c) {
        UpAdds(g, x, j, k - j);
      }
    }
    SameUntil(g, c, Some(p), x, k);
    ParentDepth(g, c, p, d);
    UpAdds(h, x, k, d + 1);
    UpAdds(h, x, k, d + 2);
    assert k + (d + 2) == (d + 1 + k) + 1;
  }

  /** Everything that is not below c keeps its depth. */
  lemma UnmovedDepth(g: Parents, c: CategoryId, p: CategoryId, x: CategoryId, d: nat)
    requires !Below(g, x, c) && x in g && HasDepth(g[c := Some(p)], x, d)
    ensures HasDepth(g, x, d)
  {
    assert forall j: nat :: Up(g, x, j) != Some(c);
    SameUntil(g, c, Some(p), x, d);
    SameUntil(g, c, Some(p), x, d + 1);
  }

  /** The categories below c, hung under a parent at depth d, all fit. */
  ghost predicate SubtreeFits(g: Parents, c: CategoryId, d: nat) {
    forall x: CategoryId, k: nat | x in g && Up(g, x, k) == Some(c) :: d + 1 + k < MAX_DEPTH
  }

  lemma FittingMoveKeepsCap(g: Parents, c: CategoryId, p: CategoryId, d: nat, x: CategoryId, e: nat)
    requires Forest(g) && WithinCap(g) && c in g && p in g && !Below(g, p, c) && HasDepth(g, p, d)
    requires SubtreeFits(g, c, d) && x in g && HasDepth(g[c := Some(p)], x, e)
    ensures e < MAX_DEPTH
  {
    if Below(g, x, c) {
      var k: nat :| Up(g, x, k) == Some(c);
      MovedDepth(g, c, p, d, x, k);
      DepthIsUnique(g[c := Some(p)], x, e, d + 1 + k);
    } else {
      UnmovedDepth(g, c, p, x, e);
    }
  }

  /** The guard looks at the moved category only.  A move keeps the whole forest within the cap exactly
      when the deepest category below the moved one still fits under the new parent. */
  lemma MoveKeepsCapIff(g: Parents, c: CategoryId, p: CategoryId, d: nat)
    requires Forest(g) && WithinCap(g) && c in g && p in g && p != c && !Below(g, p, c) && HasDepth(g, p, d)
    ensures WithinCap(g[c := Some(p)]) <==> SubtreeFits(g, c, d)
  {
    var h := g[c := Some(p)];
    if WithinCap(h) {
      forall x: CategoryId, k: nat | x in g && Up(g, x, k) == Some(c)
        ensures d + 1 + k < MAX_DEPTH
      {
        MovedDepth(g, c, p, d, x, k);
      }
    }
    if SubtreeFits(g, c, d) {
      forall x: CategoryId, e: nat | x in h && HasDepth(h, x, e)
        ensures e < MAX_DEPTH
      {
        FittingMoveKeepsCap(g, c, p, d, x, e);
      }
    }
  }

  /** A root with a child, moved under the child of another root: allowed, and its own child is too deep. */
  lemma MoveCanExceedCap(g: Parents)
    requires g == map[0 := None, 1 := Some(0), 2 := None, 3 := Some(2)]
    ensures Forest(g) && WithinCap(g) && CategoryMoved(g, {}, 2, Some(1)).0 == Saved
    ensures !WithinCap(CategoryMoved(g, {}, 2, Some(1)).1)
  {
    assert forall c: CategoryId, k: nat | k > 1 :: Up(g, c, k).None?;
    assert forall c: CategoryId :: Up(g, c, 1) != Some(c);
    assert DepthWalk(g, 1, {}, 0) == 1 by {
      assert DepthWalk(g, 0, {1}, 1) == 1;
    }
    assert Up(g, 1, 0) != Some(2) && Up(g, 1, 1) != Some(2) && !Below(g, 1, 2);
    assert HasDepth(g, 1, 1) && Up(g, 3, 1) == Some(2) by {
      assert Up(g, 1, 1) == Up(g, 0, 0) && Up(g, 3, 1) == Up(g, 2, 0);
    }
    MoveKeepsCapIff(g, 2, 1, 1);
    assert !SubtreeFits(g, 2, 1);
  }

  ghost predicate Allowed(g: Parents, deleted: set<CategoryId>, id: CategoryId, parent: Option<CategoryId>) {
    CategoryMoved(g, deleted, id, parent).0 == Saved
  }

  /** Two roots moved under each other at the same time. */
  lemma RootsUnderEachOther(g: Parents, a: CategoryId, b: CategoryId)
    requires Acyclic(g) && a in g && b in g && a != b && g[a].None? && g[b].None?
    ensures Allowed(g, {}, a, Some(b)) && Allowed(g, {}, b, Some(a))
    ensures var first: Parents := g[a := Some(b)];
            var both: Parents := first[b := Some(a)];
            !Acyclic(both)
  {
    assert forall k: nat | k > 0 :: Up(g, a, k).None? && Up(g, b, k).None?;
    assert Up(g, a, 0) == Some(a) && Up(g, b, 0) == Some(b);
    ConcurrentMovesCycleIff(g, {}, a, Some(b), b, Some(a));
  }

  lemma MovedStaysAcyclic(g: Parents, id: CategoryId, parent: Option<CategoryId>)
    requires Acyclic(g) && id in g && (parent.Some? ==> parent.value in g && !Below(g, parent.value, id))
    ensures Acyclic(g[id := parent])
  {
    if parent.None? {
      RootStaysAcyclic(g, id);
    } else {
      MoveStaysAcyclic(g, id, parent.value);
    }
  }

  /** Nothing locks the table between test and write.  Two moves that the same snapshot allows close a
      circle between them exactly when each hangs its category into the other's subtree. */
  lemma ConcurrentMovesCycleIff(g: Parents, deleted: set<CategoryId>, a: CategoryId, x: Option<CategoryId>,
                                b: CategoryId, y: Option<CategoryId>)
    requires Acyclic(g) && Allowed(g, deleted, a, x) && Allowed(g, deleted, b, y)
    ensures var first: Parents := g[a := x];
            var both: Parents := first[b := y];
            !Acyclic(both) <==> a != b && x.Some? && y.Some? && Below(g, x.value, b) && Below(g, y.value, a)
  {
    var first: Parents := g[a := x];
    if a == b {
      assert g[a := x][b := y] == g[b := y];
      MovedStaysAcyclic(g, b, y);
    } else if y.None? {
      MovedStaysAcyclic(g, a, x);
      MovedStaysAcyclic(first, b, y);
    } else if x.None? {
      RootStaysAcyclic(g, a);
      RootThenMove(g, a, b, y.value);
    } else {
      TwoMovesCycleIff(g, a, x.value, b, y.value);
    }
  }
}
