/** app/services/admin_import_service.py, products and variants: which valid rows of a chunk are applied.
    refuses stands for the constraint violations the database finds at a row's own flush. */
module CatalogImport {
  type Key = string

  /** key is the slug or the SKU; parent is the slug of a variant's product. */
  datatype Row = Row(number: nat, key: Key, parent: Key)

  /** The numbers of the rows that test refuses, in order. */
  function Numbers(rows: seq<Row>, refused: (seq<Row>, Row) -> bool): seq<nat> {
    if rows == [] then []
    else
      var n := |rows| - 1;
      Numbers(rows[..n], refused) + if refused(rows[..n], rows[n]) then [rows[n].number] else []
  }

  predicate KeySeen(before: seq<Row>, row: Row) {
    exists j | 0 <= j < |before| :: before[j].key == row.key
  }

  /** A product row is refused if an earlier row of the chunk has its slug, the catalog has it, or the
      database refuses the row. */
  predicate ProductRefused(before: seq<Row>, row: Row, existing: set<Key>, refuses: nat -> bool) {
    KeySeen(before, row) || row.key in existing || refuses(row.number)
  }

  /** A variant row: an earlier row has its SKU, its product is unknown, or the database refuses it. */
  predicate VariantRefused(before: seq<Row>, row: Row, products: set<Key>, refuses: nat -> bool) {
    KeySeen(before, row) || row.parent !in products || refuses(row.number)
  }

  function Keys(rows: seq<Row>): set<Key> {
    set k | 0 <= k < |rows| :: rows[k].key
  }

  /** The rows that test does not refuse. */
  function Passed(rows: seq<Row>, refused: (seq<Row>, Row) -> bool): seq<Row> {
    if rows == [] then []
    else
      var n := |rows| - 1;
      Passed(rows[..n], refused) + if refused(rows[..n], rows[n]) then [] else [rows[n]]
  }

  predicate Clashes(row: Row, existing: set<Key>, refuses: nat -> bool) {
    row.key in existing || refuses(row.number)
  }

  lemma SeenIff(rows: seq<Row>, k: nat)
    requires k < |rows|
    ensures rows[k].key in Keys(rows[..k]) <==> KeySeen(rows[..k], rows[k])
    ensures Keys(rows[..k + 1]) == Keys(rows[..k]) + {rows[k].key}
  {
    forall key: Key
      ensures key in Keys(rows[..k + 1]) <==> key in Keys(rows[..k]) + {rows[k].key}
    {
      if key in Keys(rows[..k]) {
        var j :| 0 <= j < k && rows[..k][j].key == key;
        assert rows[..k + 1][j].key == key;
      }
      if key == rows[k].key {
        assert rows[..k + 1][k].key == key;
      }
      if key in Keys(rows[..k + 1]) {
        var j :| 0 <= j < k + 1 && rows[..k + 1][j].key == key;
        assert j < k ==> rows[..k][j].key == key;
      }
    }
  }

  /** How often a number is refused. */
  function Count(rows: seq<Row>, refused: (seq<Row>, Row) -> bool, number: nat): nat {
    if rows == [] then 0
    else
      var n := |rows| - 1;
      Count(rows[..n], refused, number) + if refused(rows[..n], rows[n]) && rows[n].number == number then 1 else 0
  }

  lemma {:induction false} CountIs(rows: seq<Row>, refused: (seq<Row>, Row) -> bool, number: nat)
    ensures multiset(Numbers(rows, refused))[number] == Count(rows, refused, number)
  {
    if rows != [] {
      CountIs(rows[..|rows| - 1], refused, number);
    }
  }

  /** Two tests in two passes, the second one looking at single rows, refuse what both together do. */
  lemma {:induction false} TwoPasses(rows: seq<Row>, first: (seq<Row>, Row) -> bool, second: (seq<Row>, Row) -> bool,
                                     refused: (seq<Row>, Row) -> bool, number: nat)
    requires forall a: seq<Row>, row: Row :: second(a, row) == second([], row)
    requires forall before: seq<Row>, row: Row :: refused(before, row) == (first(before, row) || second(before, row))
    ensures Count(rows, first, number) + Count(Passed(rows, first), second, number) == Count(rows, refused, number)
  {
    if rows != [] {
      var n := |rows| - 1;
      var front, row := rows[..n], rows[n];
      TwoPasses(front, first, second, refused, number);
      var p := Passed(front, first);
      if first(front, row) {
        assert Passed(rows, first) == p;
      } else {
        assert Passed(rows, first) == p + [row];
        assert (p + [row])[..|p|] == p;
        assert second(p, row) == second(front, row);
        assert Count(p + [row], second, number) ==
               Count(p, second, number) + if second(p, row) && row.number == number then 1 else 0;
      }
    }
  }

  /** Earlier rows of the chunk come first: only the first row with a slug stays a candidate. */
  method FindCandidates(rows: seq<Row>) returns (candidates: seq<Row>, errors: seq<nat>)
    ensures candidates == Passed(rows, KeySeen) && errors == Numbers(rows, KeySeen)
    ensures |errors| + |candidates| == |rows|
  {
    candidates, errors := [], [];
    var seenSlugs: set<Key> := {};
    for k := 0 to |rows|
      invariant seenSlugs == Keys(rows[..k]) && candidates == Passed(rows[..k], KeySeen)
      invariant errors == Numbers(rows[..k], KeySeen)
      invariant |errors| + |candidates| == k
    {
      assert rows[..k + 1][..k] == rows[..k];
      SeenIff(rows, k);
      if rows[k].key in seenSlugs {
        errors := errors + [rows[k].number];
      } else {
        candidates := candidates + [rows[k]];
      }
      seenSlugs := seenSlugs + {rows[k].key};
    }
    assert rows[..|rows|] == rows;
  }

  function Clash(existing: set<Key>, refuses: nat -> bool): (seq<Row>, Row) -> bool {
    (_, row) => Clashes(row, existing, refuses)
  }

  method InsertCandidates(candidates: seq<Row>, existing: set<Key>, refuses: nat -> bool)
    returns (applied: nat, errors: seq<nat>)
    ensures applied + |errors| == |candidates|
    ensures errors == Numbers(candidates, Clash(existing, refuses))
  {
    applied, errors := 0, [];
    for k := 0 to |candidates|
      invariant errors == Numbers(candidates[..k], Clash(existing, refuses))
      invariant applied + |errors| == k
    {
      assert candidates[..k + 1][..k] == candidates[..k];
      if candidates[k].key in existing || refuses(candidates[k].number) {
        errors := errors + [candidates[k].number];
      } else {
        applied := applied + 1;
      }
    }
    assert candidates[..|candidates|] == candidates;
  }

  method ApplyProducts(rows: seq<Row>, existing: set<Key>, refuses: nat -> bool)
    returns (applied: nat, errors: seq<nat>)
    ensures applied + |errors| == |rows|
    ensures forall number: nat :: multiset(errors)[number] == Count(rows, ProductTest(existing, refuses), number)
    ensures forall number: nat :: number in errors <==>
              exists k | 0 <= k < |rows| ::
                && rows[k].number == number
                && ((exists j | 0 <= j < k :: rows[j].key == rows[k].key) || rows[k].key in existing || refuses(number))
  {
    var candidates, repeated := FindCandidates(rows);
    var inserted, clashing := InsertCandidates(candidates, existing, refuses);
    applied, errors := inserted, repeated + clashing;
    forall number: nat
      ensures multiset(errors)[number] == Count(rows, ProductTest(existing, refuses), number)
    {
      TwoPasses(rows, KeySeen, Clash(existing, refuses), ProductTest(existing, refuses), number);
      CountIs(rows, KeySeen, number);
      CountIs(candidates, Clash(existing, refuses), number);
    }
    ProductErrorsAre(rows, existing, refuses, errors);
  }

  lemma ProductErrorsAre(rows: seq<Row>, existing: set<Key>, refuses: nat -> bool, errors: seq<nat>)
    requires forall number: nat :: multiset(errors)[number] == Count(rows, ProductTest(existing, refuses), number)
    ensures forall number: nat :: number in errors <==>
              exists k | 0 <= k < |rows| ::
                && rows[k].number == number
                && ((exists j | 0 <= j < k :: rows[j].key == rows[k].key) || rows[k].key in existing || refuses(number))
  {
    forall number: nat
      ensures number in errors <==>
              exists k | 0 <= k < |rows| ::
                rows[k].number == number && ProductTest(existing, refuses)(rows[..k], rows[k])
    {
      assert number in errors <==> multiset(errors)[number] > 0;
      CountedIff(rows, ProductTest(existing, refuses), number);
    }
    forall k | 0 <= k < |rows|
      ensures KeySeen(rows[..k], rows[k]) <==> exists j | 0 <= j < k :: rows[j].key == rows[k].key
    {
      SeenBefore(rows, k);
    }
  }

  lemma SeenBefore(rows: seq<Row>, k: nat)
    requires k < |rows|
    ensures KeySeen(rows[..k], rows[k]) <==> exists j | 0 <= j < k :: rows[j].key == rows[k].key
  {
    if j :| 0 <= j < k && rows[j].key == rows[k].key {
      assert rows[..k][j].key == rows[k].key;
    }
  }

  lemma {:induction false} CountedIff(rows: seq<Row>, refused: (seq<Row>, Row) -> bool, number: nat)
    ensures Count(rows, refused, number) > 0 <==>
            exists k | 0 <= k < |rows| :: rows[k].number == number && refused(rows[..k], rows[k])
  {
    if rows != [] {
      var n := |rows| - 1;
      CountedIff(rows[..n], refused, number);
      assert forall k | 0 <= k < n :: rows[..n][k] == rows[k] && rows[..n][..k] == rows[..k];
    }
  }

  lemma NumberedIff(rows: seq<Row>, refused: (seq<Row>, Row) -> bool, number: nat)
    ensures number in Numbers(rows, refused) <==>
            exists k | 0 <= k < |rows| :: rows[k].number == number && refused(rows[..k], rows[k])
  {
    CountIs(rows, refused, number);
    CountedIff(rows, refused, number);
  }

  function ProductTest(existing: set<Key>, refuses: nat -> bool): (seq<Row>, Row) -> bool {
    (before, row) => ProductRefused(before, row, existing, refuses)
  }

  method ApplyVariants(rows: seq<Row>, products: set<Key>, refuses: nat -> bool)
    returns (applied: nat, errors: seq<nat>)
    ensures applied + |errors| == |rows|
    ensures errors == Numbers(rows, (before, row) => VariantRefused(before, row, products, refuses))
    ensures forall number: nat :: number in errors <==>
              exists k | 0 <= k < |rows| ::
                && rows[k].number == number
                && ((exists j | 0 <= j < k :: rows[j].key == rows[k].key) ||
                    rows[k].parent !in products || refuses(number))
  {
    ghost var refused := (before, row) => VariantRefused(before, row, products, refuses);
    applied, errors := 0, [];
    var seenSkus: set<Key> := {};
    for k := 0 to |rows|
      invariant seenSkus == Keys(rows[..k])
      invariant errors == Numbers(rows[..k], refused)
      invariant applied + |errors| == k
    {
      assert rows[..k + 1][..k] == rows[..k];
      SeenIff(rows, k);
      var seen := rows[k].key in seenSkus;
      seenSkus := seenSkus + {rows[k].key};
      if seen || rows[k].parent !in products || refuses(rows[k].number) {
        errors := errors + [rows[k].number];
      } else {
        applied := applied + 1;
      }
    }
    assert rows[..|rows|] == rows;
    forall number: nat
      ensures number in errors <==>
              exists k | 0 <= k < |rows| :: rows[k].number == number && refused(rows[..k], rows[k])
    {
      NumberedIff(rows, refused, number);
    }
    forall k | 0 <= k < |rows|
      ensures KeySeen(rows[..k], rows[k]) <==> exists j | 0 <= j < k :: rows[j].key == rows[k].key
    {
      SeenBefore(rows, k);
    }
  }
}
