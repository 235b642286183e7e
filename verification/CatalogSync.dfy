/** app/seeds/base.py and app/seeds/sync.py: the merchandising sync.  Rows are found and referred to by
    their natural keys (slug, SKU, title and placement); ids are kept in the rows to show that they stay. */
module CatalogSync {
  import opened Stepwise
  import opened Tables
  import opened Forests
  import Categories

  type Slug = string
  type Sku = string

  // Tables

  datatype CategoryRow = CategoryRow(id: nat, kind: string, copy: string, active: bool, parent: Option<Slug>)

  datatype Face = Face(copy: string, featured: bool, bestseller: bool, isNew: bool)

  datatype ProductRow = ProductRow(id: nat, face: Face, status: ProductStatus)

  datatype VariantRow = VariantRow(id: nat, product: Slug, copy: string, active: bool)

  datatype StockRow = StockRow(id: nat, stock: int, reserved: int, threshold: int)

  datatype BannerRow = BannerRow(id: nat, copy: string, category: Option<Slug>, active: bool)

  datatype BannerKey = BannerKey(title: string, placement: string)

  /** images counts a product's images; nextId is the next generated key. */
  datatype Catalog = Catalog(
    nextId: nat,
    categories: map<Slug, CategoryRow>,
    products: map<Slug, ProductRow>,
    links: set<(Slug, Slug)>,
    variants: map<Sku, VariantRow>,
    inventory: map<Sku, StockRow>,
    images: map<Slug, nat>,
    banners: map<BannerKey, BannerRow>)

  // Canonical data

  datatype CategoryData = CategoryData(slug: Slug, kind: string, copy: string, parent: Option<Slug>)

  datatype VariantData = VariantData(sku: Sku, copy: string, stock: nat)

  datatype ProductData = ProductData(slug: Slug, face: Face, categories: seq<Slug>, variants: seq<VariantData>,
                                     images: nat)

  datatype BannerData = BannerData(key: BannerKey, copy: string, category: Option<Slug>)

  datatype Canon = Canon(
    categories: seq<CategoryData>,
    retiredCategories: seq<Slug>,
    products: seq<ProductData>,
    retiredProducts: seq<Slug>,
    banners: seq<BannerData>)

  // Steps

  /** One row that the sync looks at, in the order in which it does. */
  datatype Op =
    | UpsertCategory(category: CategoryData)
    | LinkParent(child: CategoryData, canonical: set<Slug>)
    | Deactivate(slug: Slug)
    | UpsertProduct(product: ProductData)
    | LinkProduct(owner: Slug, to: Slug)
    | UpsertVariant(of: Slug, variant: VariantData)
    | ReconcileStock(item: VariantData)
    | AddImages(shown: ProductData)
    | ArchiveProduct(slug: Slug)
    | UpsertBanner(banner: BannerData)

  /** get_or_create on one key: the row it leaves, and whether it was created or updated. */
  function Upserted<K, R(==)>(rows: map<K, R>, key: K, first: R, refreshed: R -> R): (map<K, R>, Tally) {
    if key !in rows then (rows[key := first], Tally(1, 0))
    else if refreshed(rows[key]) != rows[key] then (rows[key := refreshed(rows[key])], Tally(0, 1))
    else (rows, NONE)
  }

  function RefreshCategory(d: CategoryData): CategoryRow -> CategoryRow {
    (r: CategoryRow) => r.(copy := d.copy, active := true)
  }

  function RefreshProduct(d: ProductData): ProductRow -> ProductRow {
    (r: ProductRow) => r.(face := d.face, status := Published)
  }

  function RefreshVariant(v: VariantData): VariantRow -> VariantRow {
    (r: VariantRow) => r.(copy := v.copy, active := true)
  }

  function RefreshStock(v: VariantData): StockRow -> StockRow {
    (r: StockRow) => r.(stock := v.stock)
  }

  function Shown(s: Catalog, category: Option<Slug>): Option<Slug> {
    if category.Some? && category.value in s.categories then category else None
  }

  function RefreshBanner(s: Catalog, b: BannerData): BannerRow -> BannerRow {
    (r: BannerRow) => r.(copy := b.copy, category := Shown(s, b.category), active := true)
  }

  function ImagesOf(s: Catalog, slug: Slug): nat {
    if slug in s.images then s.images[slug] else 0
  }

  function WithCategory(s: Catalog, slug: Slug, row: CategoryRow): Catalog {
    s.(categories := s.categories[slug := row])
  }

  function WithProduct(s: Catalog, slug: Slug, row: ProductRow): Catalog {
    s.(products := s.products[slug := row])
  }

  function WithLink(s: Catalog, p: Slug, c: Slug): Catalog {
    s.(links := s.links + {(p, c)})
  }

  /** Parents are looked up among the rows of canonical slugs only. */
  predicate Resolves(s: Catalog, canonical: set<Slug>, slug: Slug) {
    slug in canonical && slug in s.categories
  }

  type Result = Option<(Catalog, Tally)>

  /** What one step does; None if the database's CHECK reserved <= stock aborts the sync. */
  function Applied(s: Catalog, op: Op): Result {
    match op
    case UpsertCategory(d) =>
      var (rows, t) := Upserted(s.categories, d.slug, CategoryRow(s.nextId, d.kind, d.copy, true, None),
                                RefreshCategory(d));
      Some((s.(categories := rows, nextId := s.nextId + t.created), t))
    case LinkParent(d, known) =>
      if d.parent.None? || !Resolves(s, known, d.slug) || !Resolves(s, known, d.parent.value) ||
         s.categories[d.slug].parent == d.parent
      then Some((s, NONE))
      else Some((WithCategory(s, d.slug, s.categories[d.slug].(parent := d.parent)), Tally(0, 1)))
    case Deactivate(slug) =>
      if slug !in s.categories || !s.categories[slug].active then Some((s, NONE))
      else Some((WithCategory(s, slug, s.categories[slug].(active := false)), Tally(0, 1)))
    case UpsertProduct(d) =>
      var (rows, t) := Upserted(s.products, d.slug, ProductRow(s.nextId, d.face, Published), RefreshProduct(d));
      Some((s.(products := rows, nextId := s.nextId + t.created), t))
    case LinkProduct(p, c) =>
      if c !in s.categories || (p, c) in s.links then Some((s, NONE))
      else Some((WithLink(s, p, c), Tally(1, 0)))
    case UpsertVariant(p, v) =>
      var (rows, t) := Upserted(s.variants, v.sku, VariantRow(s.nextId, p, v.copy, true), RefreshVariant(v));
      Some((s.(variants := rows, nextId := s.nextId + t.created), t))
    case ReconcileStock(v) =>
      if v.sku in s.inventory && v.stock < s.inventory[v.sku].reserved then None
      else
        var (rows, t) := Upserted(s.inventory, v.sku, StockRow(s.nextId, v.stock, 0, 2), RefreshStock(v));
        Some((s.(inventory := rows, nextId := s.nextId + t.created), t))
    case AddImages(d) =>
      if ImagesOf(s, d.slug) > 0 || d.images == 0 then Some((s, NONE))
      else Some((s.(images := s.images[d.slug := d.images]), Tally(d.images, 0)))
    case ArchiveProduct(slug) =>
      if slug !in s.products || s.products[slug].status == Archived then Some((s, NONE))
      else
        var r := s.products[slug];
        Some((WithProduct(s, slug, r.(status := Archived, face := Face(r.face.copy, false, false, false))),
              Tally(0, 1)))
    case UpsertBanner(b) =>
      var (rows, t) := Upserted(s.banners, b.key, BannerRow(s.nextId, b.copy, Shown(s, b.category), true),
                                RefreshBanner(s, b));
      Some((s.(banners := rows, nextId := s.nextId + t.created), t))
  }

  function AllApplied(s: Catalog, ops: seq<Op>): Result {
    Each(Applied, s, ops)
  }

  // The order of the steps

  function ProductOps(d: ProductData): seq<Op> {
    [UpsertProduct(d)] + LinkOps(d) + VariantOps(d.slug, d.variants) + [AddImages(d)]
  }

  function LinkOps(d: ProductData): seq<Op> {
    seq(|d.categories|, k requires 0 <= k < |d.categories| => LinkProduct(d.slug, d.categories[k]))
  }

  function VariantOps(p: Slug, vs: seq<VariantData>): seq<Op> {
    if vs == [] then []
    else VariantOps(p, vs[..|vs| - 1]) + [UpsertVariant(p, vs[|vs| - 1]), ReconcileStock(vs[|vs| - 1])]
  }

  function AllProductOps(ds: seq<ProductData>): seq<Op> {
    if ds == [] then [] else AllProductOps(ds[..|ds| - 1]) + ProductOps(ds[|ds| - 1])
  }

  function CategoryOps(c: Canon): seq<Op> {
    seq(|c.categories|, k requires 0 <= k < |c.categories| => UpsertCategory(c.categories[k]))
  }

  function ParentOps(c: Canon): seq<Op> {
    seq(|c.categories|, k requires 0 <= k < |c.categories| =>
        LinkParent(c.categories[k], CanonicalSlugs(c)))
  }

  function CanonicalSlugs(c: Canon): set<Slug> {
    set d <- c.categories :: d.slug
  }

  function RetireOps(c: Canon): seq<Op> {
    seq(|c.retiredCategories|, k requires 0 <= k < |c.retiredCategories| => Deactivate(c.retiredCategories[k]))
  }

  function ArchiveOps(c: Canon): seq<Op> {
    seq(|c.retiredProducts|, k requires 0 <= k < |c.retiredProducts| => ArchiveProduct(c.retiredProducts[k]))
  }

  function BannerOps(c: Canon): seq<Op> {
    seq(|c.banners|, k requires 0 <= k < |c.banners| => UpsertBanner(c.banners[k]))
  }

  function SyncOps(c: Canon): seq<Op> {
    CategoryOps(c) + ParentOps(c) + RetireOps(c) + AllProductOps(c.products) + ArchiveOps(c) + BannerOps(c)
  }

  function Synced(s: Catalog, c: Canon): Option<(Catalog, Tally)> {
    AllApplied(s, SyncOps(c))
  }

  // What a step settles

  /** A step that would change nothing. */
  predicate Settled(s: Catalog, op: Op) {
    match op
    case UpsertCategory(d) => d.slug in s.categories && RefreshCategory(d)(s.categories[d.slug]) == s.categories[d.slug]
    case LinkParent(d, known) =>
      d.parent.None? || !Resolves(s, known, d.slug) || !Resolves(s, known, d.parent.value) ||
        s.categories[d.slug].parent == d.parent
    case Deactivate(slug) => slug !in s.categories || !s.categories[slug].active
    case UpsertProduct(d) => d.slug in s.products && RefreshProduct(d)(s.products[d.slug]) == s.products[d.slug]
    case LinkProduct(p, c) => c !in s.categories || (p, c) in s.links
    case UpsertVariant(_, v) => v.sku in s.variants && RefreshVariant(v)(s.variants[v.sku]) == s.variants[v.sku]
    case ReconcileStock(v) =>
      v.sku in s.inventory && s.inventory[v.sku].stock == v.stock && s.inventory[v.sku].reserved <= v.stock
    case AddImages(d) => ImagesOf(s, d.slug) > 0 || d.images == 0
    case ArchiveProduct(slug) => slug !in s.products || s.products[slug].status == Archived
    case UpsertBanner(b) => b.key in s.banners && RefreshBanner(s, b)(s.banners[b.key]) == s.banners[b.key]
  }

  lemma SettledIff(s: Catalog, op: Op)
    ensures Settled(s, op) <==> Applied(s, op) == Some((s, NONE))
  {
  }

  lemma StepSettles(s: Catalog, op: Op)
    requires Applied(s, op).Some?
    ensures Settled(Applied(s, op).value.0, op)
  {
  }

  function Phase(op: Op): nat {
    match op
    case UpsertCategory(_) => 0
    case LinkParent(_, _) => 1
    case Deactivate(_) => 2
    case UpsertProduct(_) => 3
    case LinkProduct(_, _) => 3
    case UpsertVariant(_, _) => 3
    case ReconcileStock(_) => 3
    case AddImages(_) => 3
    case ArchiveProduct(_) => 4
    case UpsertBanner(_) => 5
  }

  /** b does not write what a has written. */
  predicate Apart(a: Op, b: Op) {
    && (a.UpsertCategory? && b.UpsertCategory? ==> a.category.slug != b.category.slug)
    && (a.UpsertCategory? && b.Deactivate? ==> a.category.slug != b.slug)
    && (a.LinkParent? && b.LinkParent? ==> a.child.slug != b.child.slug)
    && (a.UpsertProduct? && b.UpsertProduct? ==> a.product.slug != b.product.slug)
    && (a.UpsertProduct? && b.ArchiveProduct? ==> a.product.slug != b.slug)
    && (a.UpsertVariant? && b.UpsertVariant? ==> a.variant.sku != b.variant.sku)
    && (a.ReconcileStock? && b.ReconcileStock? ==> a.item.sku != b.item.sku)
    && (a.UpsertBanner? && b.UpsertBanner? ==> a.banner.key != b.banner.key)
  }

  /** What is settled stays settled under a later step that is apart from it. */
  lemma StaysSettled(s: Catalog, a: Op, b: Op)
    requires Settled(s, a) && Phase(a) <= Phase(b) && Apart(a, b) && Applied(s, b).Some?
    ensures Settled(Applied(s, b).value.0, a)
  {
  }

  predicate Compatible(ops: seq<Op>) {
    forall i, j | 0 <= i < j < |ops| :: Phase(ops[i]) <= Phase(ops[j]) && Apart(ops[i], ops[j])
  }

  predicate Undisturbed(ops: seq<Op>, k: nat) {
    k < |ops| && forall j | k < j < |ops| :: Phase(ops[k]) <= Phase(ops[j]) && Apart(ops[k], ops[j])
  }

  lemma {:induction false} RunSettles(s: Catalog, ops: seq<Op>, k: nat)
    requires AllApplied(s, ops).Some? && Undisturbed(ops, k)
    ensures Settled(AllApplied(s, ops).value.0, ops[k])
  {
    var n := |ops| - 1;
    var m := AllApplied(s, ops[..n]).value.0;
    if k == n {
      StepSettles(m, ops[n]);
    } else {
      RunSettles(s, ops[..n], k);
      StaysSettled(m, ops[k], ops[n]);
    }
  }

  lemma {:induction false} SettledRunDoesNothing(s: Catalog, ops: seq<Op>)
    requires AllSettled(s, ops)
    ensures AllApplied(s, ops) == Some((s, NONE))
  {
    if ops != [] {
      SettledRunDoesNothing(s, ops[..|ops| - 1]);
      SettledIff(s, ops[|ops| - 1]);
    }
  }

  lemma QuietStep(s: Catalog, op: Op)
    requires Applied(s, op).Some? && Applied(s, op).value.1 == NONE
    ensures Applied(s, op).value.0 == s && Settled(s, op)
  {
  }

  lemma QuietLast(s: Catalog, ops: seq<Op>) returns (front: seq<Op>, op: Op, m: Catalog)
    requires ops != [] && AllApplied(s, ops).Some? && AllApplied(s, ops).value.1 == NONE
    ensures |front| < |ops| && ops == front + [op]
    ensures AllApplied(s, front) == Some((m, NONE)) && AllApplied(s, ops).value.0 == m && Settled(m, op)
  {
    front, op := ops[..|ops| - 1], ops[|ops| - 1];
    m := AllApplied(s, front).value.0;
    QuietStep(m, op);
  }

  lemma {:induction false} QuietStays(s: Catalog, ops: seq<Op>)
    requires AllApplied(s, ops).Some? && AllApplied(s, ops).value.1 == NONE
    ensures AllApplied(s, ops).value.0 == s
    decreases |ops|
  {
    if ops != [] {
      var front, op, m := QuietLast(s, ops);
      QuietStays(s, front);
    }
  }

  predicate AllSettled(s: Catalog, ops: seq<Op>) {
    forall k | 0 <= k < |ops| :: Settled(s, ops[k])
  }

  lemma SettledTogether(s: Catalog, front: seq<Op>, op: Op)
    requires AllSettled(s, front) && Settled(s, op)
    ensures AllSettled(s, front + [op])
  {
  }

  lemma {:induction false} QuietSettles(s: Catalog, ops: seq<Op>)
    requires AllApplied(s, ops).Some? && AllApplied(s, ops).value.1 == NONE
    ensures AllSettled(s, ops)
    decreases |ops|
  {
    if ops != [] {
      var front, op, m := QuietLast(s, ops);
      QuietStays(s, front);
      QuietSettles(s, front);
      SettledTogether(s, front, op);
    }
  }

  /** A sync reports nothing created or updated exactly if every step was settled before it. */
  lemma ReportIsEmptyIff(s: Catalog, c: Canon)
    requires Synced(s, c).Some?
    ensures Synced(s, c).value.1 == NONE <==> AllSettled(s, SyncOps(c))
  {
    if Synced(s, c).value.1 == NONE {
      QuietSettles(s, SyncOps(c));
    } else if AllSettled(s, SyncOps(c)) {
      SettledRunDoesNothing(s, SyncOps(c));
    }
  }

  // Canonical data without clashes

  predicate WellKeyed(c: Canon) {
    && (forall i, j | 0 <= i < j < |c.categories| :: c.categories[i].slug != c.categories[j].slug)
    && (forall i, j | 0 <= i < j < |c.products| :: c.products[i].slug != c.products[j].slug)
    && (forall i, j | 0 <= i < j < |c.banners| :: c.banners[i].key != c.banners[j].key)
    && DistinctSkus(c.products)
    && (forall d <- c.categories :: d.slug !in c.retiredCategories)
    && (forall d <- c.products :: d.slug !in c.retiredProducts)
  }

  predicate DistinctSkus(ds: seq<ProductData>) {
    forall i, j, k, l | 0 <= i <= j < |ds| && 0 <= k < |ds[i].variants| && 0 <= l < |ds[j].variants| &&
      (i < j || k < l) ::
      ds[i].variants[k].sku != ds[j].variants[l].sku
  }

  lemma Joined(a: seq<Op>, b: seq<Op>)
    requires Compatible(a) && Compatible(b)
    requires forall x <- a, y <- b :: Phase(x) <= Phase(y) && Apart(x, y)
    ensures Compatible(a + b)
  {
  }

  /** The SKU a step writes, if it writes one. */
  function SkuOf(op: Op): Option<Sku> {
    match op
    case UpsertVariant(_, v) => Some(v.sku)
    case ReconcileStock(v) => Some(v.sku)
    case UpsertCategory(_) => None
    case LinkParent(_, _) => None
    case Deactivate(_) => None
    case UpsertProduct(_) => None
    case LinkProduct(_, _) => None
    case AddImages(_) => None
    case ArchiveProduct(_) => None
    case UpsertBanner(_) => None
  }

  lemma {:induction false} VariantOpsAre(p: Slug, vs: seq<VariantData>, op: Op)
    requires op in VariantOps(p, vs)
    ensures op.UpsertVariant? || op.ReconcileStock?
    ensures exists k | 0 <= k < |vs| :: SkuOf(op) == Some(vs[k].sku)
  {
    var n := |vs| - 1;
    if op in VariantOps(p, vs[..n]) {
      VariantOpsAre(p, vs[..n], op);
      var k :| 0 <= k < n && SkuOf(op) == Some(vs[..n][k].sku);
      assert SkuOf(op) == Some(vs[k].sku);
    } else {
      assert SkuOf(op) == Some(vs[n].sku);
    }
  }

  lemma {:induction false} VariantOpsCompatible(p: Slug, vs: seq<VariantData>)
    requires forall k, l | 0 <= k < l < |vs| :: vs[k].sku != vs[l].sku
    ensures Compatible(VariantOps(p, vs))
  {
    if vs != [] {
      var n := |vs| - 1;
      VariantOpsCompatible(p, vs[..n]);
      forall x <- VariantOps(p, vs[..n]), y <- [UpsertVariant(p, vs[n]), ReconcileStock(vs[n])]
        ensures Phase(x) <= Phase(y) && Apart(x, y)
      {
        VariantOpsAre(p, vs[..n], x);
      }
      Joined(VariantOps(p, vs[..n]), [UpsertVariant(p, vs[n]), ReconcileStock(vs[n])]);
    }
  }

  lemma ProductOpsAre(d: ProductData, op: Op)
    requires op in ProductOps(d)
    ensures Phase(op) == 3
    ensures op.UpsertProduct? ==> op.product == d
    ensures SkuOf(op).Some? ==> exists k | 0 <= k < |d.variants| :: SkuOf(op) == Some(d.variants[k].sku)
  {
    if op in VariantOps(d.slug, d.variants) {
      VariantOpsAre(d.slug, d.variants, op);
    }
  }

  lemma ProductOpsCompatible(d: ProductData)
    requires forall k, l | 0 <= k < l < |d.variants| :: d.variants[k].sku != d.variants[l].sku
    ensures Compatible(ProductOps(d))
  {
    VariantOpsCompatible(d.slug, d.variants);
    var head := [UpsertProduct(d)] + LinkOps(d);
    var middle := VariantOps(d.slug, d.variants);
    forall x <- head, y <- middle
      ensures Phase(x) <= Phase(y) && Apart(x, y)
    {
      VariantOpsAre(d.slug, d.variants, y);
    }
    Joined(head, middle);
    forall x <- head + middle, y <- [AddImages(d)]
      ensures Phase(x) <= Phase(y) && Apart(x, y)
    {
      if x in middle {
        VariantOpsAre(d.slug, d.variants, x);
      }
    }
    Joined(head + middle, [AddImages(d)]);
  }

  lemma {:induction false} AllProductOpsAre(ds: seq<ProductData>, op: Op)
    requires op in AllProductOps(ds)
    ensures Phase(op) == 3
    ensures op.UpsertProduct? ==> op.product in ds
    ensures SkuOf(op).Some? ==> exists i, k | 0 <= i < |ds| && 0 <= k < |ds[i].variants| ::
            SkuOf(op) == Some(ds[i].variants[k].sku)
  {
    var n := |ds| - 1;
    if op in AllProductOps(ds[..n]) {
      AllProductOpsAre(ds[..n], op);
      if SkuOf(op).Some? {
        var i, k :| 0 <= i < n && 0 <= k < |ds[..n][i].variants| && SkuOf(op) == Some(ds[..n][i].variants[k].sku);
        assert SkuOf(op) == Some(ds[i].variants[k].sku);
      }
    } else {
      ProductOpsAre(ds[n], op);
    }
  }

  lemma BlocksApart(ds: seq<ProductData>, n: nat, x: Op, y: Op)
    requires n < |ds| && DistinctSkus(ds) && forall i, j | 0 <= i < j < |ds| :: ds[i].slug != ds[j].slug
    requires x in AllProductOps(ds[..n]) && y in ProductOps(ds[n])
    ensures Phase(x) <= Phase(y) && Apart(x, y)
  {
    AllProductOpsAre(ds[..n], x);
    ProductOpsAre(ds[n], y);
    if SkuOf(x).Some? && SkuOf(y).Some? {
      var i, k :| 0 <= i < n && 0 <= k < |ds[..n][i].variants| && SkuOf(x) == Some(ds[..n][i].variants[k].sku);
      var l :| 0 <= l < |ds[n].variants| && SkuOf(y) == Some(ds[n].variants[l].sku);
      assert ds[i].variants[k].sku != ds[n].variants[l].sku;
    }
  }

  lemma {:induction false} AllProductOpsCompatible(ds: seq<ProductData>)
    requires DistinctSkus(ds) && forall i, j | 0 <= i < j < |ds| :: ds[i].slug != ds[j].slug
    ensures Compatible(AllProductOps(ds))
  {
    if ds != [] {
      var n := |ds| - 1;
      AllProductOpsCompatible(ds[..n]);
      ProductOpsCompatible(ds[n]);
      forall x <- AllProductOps(ds[..n]), y <- ProductOps(ds[n])
        ensures Phase(x) <= Phase(y) && Apart(x, y)
      {
        BlocksApart(ds, n, x, y);
      }
      Joined(AllProductOps(ds[..n]), ProductOps(ds[n]));
    }
  }

  lemma CategoryStepsCompatible(c: Canon)
    requires WellKeyed(c)
    ensures Compatible(CategoryOps(c) + ParentOps(c) + RetireOps(c))
    ensures forall x <- CategoryOps(c) + ParentOps(c) + RetireOps(c) :: Phase(x) <= 2
  {
    Joined(CategoryOps(c), ParentOps(c));
    Joined(CategoryOps(c) + ParentOps(c), RetireOps(c));
  }

  lemma LastStepsCompatible(c: Canon)
    requires WellKeyed(c)
    ensures Compatible(ArchiveOps(c) + BannerOps(c))
    ensures forall x <- ArchiveOps(c) + BannerOps(c) ::
              Phase(x) >= 4 && (x.ArchiveProduct? ==> x.slug in c.retiredProducts)
  {
    ArchiveStepsCompatible(c);
    BannerStepsCompatible(c);
    Joined(ArchiveOps(c), BannerOps(c));
  }

  lemma ArchiveStepsCompatible(c: Canon)
    ensures Compatible(ArchiveOps(c))
    ensures forall x <- ArchiveOps(c) :: x.ArchiveProduct? && x.slug in c.retiredProducts
  {
  }

  lemma BannerStepsCompatible(c: Canon)
    requires WellKeyed(c)
    ensures Compatible(BannerOps(c)) && forall x <- BannerOps(c) :: x.UpsertBanner?
  {
  }

  lemma ProductStepsCompatible(c: Canon)
    requires WellKeyed(c)
    ensures Compatible(AllProductOps(c.products) + (ArchiveOps(c) + BannerOps(c)))
    ensures forall x <- AllProductOps(c.products) + (ArchiveOps(c) + BannerOps(c)) :: Phase(x) >= 3
  {
    AllProductOpsCompatible(c.products);
    LastStepsCompatible(c);
    forall x <- AllProductOps(c.products)
      ensures Phase(x) == 3 && (x.UpsertProduct? ==> x.product in c.products)
    {
      AllProductOpsAre(c.products, x);
    }
    Joined(AllProductOps(c.products), ArchiveOps(c) + BannerOps(c));
  }

  lemma SyncOpsCompatible(c: Canon)
    requires WellKeyed(c)
    ensures Compatible(SyncOps(c))
  {
    CategoryStepsCompatible(c);
    ProductStepsCompatible(c);
    var a := CategoryOps(c) + ParentOps(c) + RetireOps(c);
    var b := AllProductOps(c.products) + (ArchiveOps(c) + BannerOps(c));
    Joined(a, b);
    assert SyncOps(c) == a + b;
  }

  /** Running the sync twice is running it once, and the second report has no creations and no updates. */
  lemma SyncIsIdempotent(s: Catalog, c: Canon)
    requires WellKeyed(c) && Synced(s, c).Some?
    ensures Synced(Synced(s, c).value.0, c) == Some((Synced(s, c).value.0, NONE))
  {
    SyncOpsCompatible(c);
    var ops := SyncOps(c);
    forall k | 0 <= k < |ops|
      ensures Settled(Synced(s, c).value.0, ops[k])
    {
      assert Undisturbed(ops, k);
      RunSettles(s, ops, k);
    }
    SettledRunDoesNothing(Synced(s, c).value.0, ops);
  }

  // Nothing is removed

  /** Every row of s is still in r, under the same key and id. */
  predicate Keeps(s: Catalog, r: Catalog) {
    && (forall k <- s.categories :: k in r.categories && r.categories[k].id == s.categories[k].id)
    && (forall k <- s.products :: k in r.products && r.products[k].id == s.products[k].id)
    && (forall k <- s.variants ::
          k in r.variants && r.variants[k].id == s.variants[k].id && r.variants[k].product == s.variants[k].product)
    && (forall k <- s.inventory ::
          && k in r.inventory && r.inventory[k].id == s.inventory[k].id
          && r.inventory[k].reserved == s.inventory[k].reserved)
    && (forall k <- s.banners :: k in r.banners && r.banners[k].id == s.banners[k].id)
    && s.links <= r.links && (forall k <- s.images :: ImagesOf(s, k) <= ImagesOf(r, k))
  }

  lemma CategoryUpsertKeeps(s: Catalog, op: Op)
    requires op.UpsertCategory?
    requires Applied(s, op).Some?
    ensures Keeps(s, Applied(s, op).value.0)
  {
  }

  lemma CategoryChangeKeeps(s: Catalog, op: Op)
    requires op.LinkParent? || op.Deactivate?
    requires Applied(s, op).Some?
    ensures Keeps(s, Applied(s, op).value.0)
  {
    if !Settled(s, op) {
      if op.LinkParent? {
        SameCategoryId(s, op.child.slug, s.categories[op.child.slug].(parent := op.child.parent));
      } else {
        SameCategoryId(s, op.slug, s.categories[op.slug].(active := false));
      }
    }
  }

  lemma SameCategoryId(s: Catalog, slug: Slug, row: CategoryRow)
    requires slug in s.categories && row.id == s.categories[slug].id
    ensures Keeps(s, WithCategory(s, slug, row))
  {
  }

  lemma ProductUpsertKeeps(s: Catalog, op: Op)
    requires op.UpsertProduct?
    requires Applied(s, op).Some?
    ensures Keeps(s, Applied(s, op).value.0)
  {
  }

  lemma ProductChangeKeeps(s: Catalog, op: Op)
    requires op.ArchiveProduct? || op.LinkProduct?
    requires Applied(s, op).Some?
    ensures Keeps(s, Applied(s, op).value.0)
  {
    if op.ArchiveProduct? && !Settled(s, op) {
      var r := s.products[op.slug];
      SameProductId(s, op.slug, r.(status := Archived, face := Face(r.face.copy, false, false, false)));
    }
  }

  lemma SameProductId(s: Catalog, slug: Slug, row: ProductRow)
    requires slug in s.products && row.id == s.products[slug].id
    ensures Keeps(s, WithProduct(s, slug, row))
  {
  }

  lemma VariantStepKeeps(s: Catalog, op: Op)
    requires op.UpsertVariant? || op.ReconcileStock?
    requires Applied(s, op).Some?
    ensures Keeps(s, Applied(s, op).value.0)
  {
  }

  lemma ImagesStepKeeps(s: Catalog, d: ProductData)
    ensures Keeps(s, Applied(s, AddImages(d)).value.0)
  {
    forall k <- s.images
      ensures ImagesOf(s, k) <= ImagesOf(Applied(s, AddImages(d)).value.0, k)
    {
    }
  }

  lemma BannerStepKeeps(s: Catalog, b: BannerData)
    ensures Keeps(s, Applied(s, UpsertBanner(b)).value.0)
  {
  }

  lemma StepKeeps(s: Catalog, op: Op)
    requires Applied(s, op).Some?
    ensures Keeps(s, Applied(s, op).value.0)
  {
    if op.UpsertCategory? {
      CategoryUpsertKeeps(s, op);
    } else if op.LinkParent? || op.Deactivate? {
      CategoryChangeKeeps(s, op);
    } else if op.UpsertProduct? {
      ProductUpsertKeeps(s, op);
    } else if op.ArchiveProduct? || op.LinkProduct? {
      ProductChangeKeeps(s, op);
    } else if op.UpsertVariant? || op.ReconcileStock? {
      VariantStepKeeps(s, op);
    } else if op.AddImages? {
      ImagesStepKeeps(s, op.shown);
    } else {
      BannerStepKeeps(s, op.banner);
    }
  }

  /** No run of the sync removes a row or reassigns an id, whatever the canonical data. */
  lemma {:induction false} SyncKeeps(s: Catalog, ops: seq<Op>)
    requires AllApplied(s, ops).Some?
    ensures Keeps(s, AllApplied(s, ops).value.0)
  {
    if ops != [] {
      var n := |ops| - 1;
      SyncKeeps(s, ops[..n]);
      var m, r := AllApplied(s, ops[..n]).value.0, AllApplied(s, ops).value.0;
      StepKeeps(m, ops[n]);
      KeepsTwice(s, m, r);
    }
  }

  lemma KeepsTwice(s: Catalog, m: Catalog, r: Catalog)
    requires Keeps(s, m) && Keeps(m, r)
    ensures Keeps(s, r)
  {
    forall k <- s.images
      ensures ImagesOf(s, k) <= ImagesOf(r, k)
    {
      assert ImagesOf(s, k) <= ImagesOf(m, k);
      assert k in m.images ==> ImagesOf(m, k) <= ImagesOf(r, k);
    }
  }

  // Retired and canonical at once

  lemma ProductStepAt(ds: seq<ProductData>, d: ProductData)
    requires d in ds
    ensures UpsertProduct(d) in AllProductOps(ds)
  {
    var n := |ds| - 1;
    if d in ds[..n] {
      ProductStepAt(ds[..n], d);
    } else {
      assert ProductOps(d)[0] == UpsertProduct(d);
    }
  }

  lemma ArchiveIsUndisturbed(c: Canon, i: nat) returns (k: nat)
    requires i < |c.retiredProducts|
    ensures Undisturbed(SyncOps(c), k) && SyncOps(c)[k] == ArchiveProduct(c.retiredProducts[i])
  {
    var front := CategoryOps(c) + ParentOps(c) + RetireOps(c) + AllProductOps(c.products);
    k := |front| + i;
    forall j | k < j < |SyncOps(c)|
      ensures SyncOps(c)[j].ArchiveProduct? || SyncOps(c)[j].UpsertBanner?
    {
    }
  }

  /** A product that is canonical and retired is published and archived again by every sync: no report
      after the first is ever empty. */
  lemma OverlapNeverSettles(s: Catalog, c: Canon, d: ProductData)
    requires d in c.products && d.slug in c.retiredProducts && Synced(s, c).Some?
    requires Synced(Synced(s, c).value.0, c).Some?
    ensures Synced(Synced(s, c).value.0, c).value.1 != NONE
  {
    var r, ops := Synced(s, c).value.0, SyncOps(c);
    var i :| 0 <= i < |c.retiredProducts| && c.retiredProducts[i] == d.slug;
    var k := ArchiveIsUndisturbed(c, i);
    RunSettles(s, ops, k);
    ProductStepAt(c.products, d);
    assert UpsertProduct(d) in ops;
    var l :| 0 <= l < |ops| && ops[l] == UpsertProduct(d);
    assert !Settled(r, ops[l]);
    ReportIsEmptyIff(r, c);
  }

  // The category tree

  /** parent_id, by slug. */
  function ParentsOf(s: Catalog): ParentMap<Slug> {
    map k <- s.categories :: s.categories[k].parent
  }

  /** Linking does what a move does, without the guard on moves.  It keeps the tree acyclic exactly when it
      changes nothing or the canonical parent is not below the child. */
  lemma LinkKeepsTreeIff(s: Catalog, d: CategoryData, known: set<Slug>)
    requires Acyclic(ParentsOf(s))
    ensures var op := LinkParent(d, known);
            Acyclic(ParentsOf(Applied(s, op).value.0)) <==>
            Settled(s, op) || !Below(ParentsOf(s), d.parent.value, d.slug)
  {
    if !Settled(s, LinkParent(d, known)) {
      var g, r := ParentsOf(s), Applied(s, LinkParent(d, known)).value.0;
      assert ParentsOf(r) == g[d.slug := d.parent] == g[d.slug := Some(d.parent.value)];
      MoveStaysAcyclicIff(g, d.slug, d.parent.value);
    }
  }

  lemma CategoryUpsertKeepsTree(s: Catalog, d: CategoryData)
    requires Forest(ParentsOf(s))
    ensures Forest(ParentsOf(Applied(s, UpsertCategory(d)).value.0))
  {
    var g, h := ParentsOf(s), ParentsOf(Applied(s, UpsertCategory(d)).value.0);
    if d.slug in s.categories {
      assert h == g;
    } else {
      assert h == g[d.slug := None];
      NewStaysAcyclic(g, d.slug, None);
    }
  }

  lemma DeactivateKeepsTree(s: Catalog, slug: Slug)
    ensures ParentsOf(Applied(s, Deactivate(slug)).value.0) == ParentsOf(s)
  {
  }

  lemma OtherStepsKeepTree(s: Catalog, op: Op)
    requires Forest(ParentsOf(s)) && !op.LinkParent? && Applied(s, op).Some?
    ensures Forest(ParentsOf(Applied(s, op).value.0))
  {
    if op.UpsertCategory? {
      CategoryUpsertKeepsTree(s, op.category);
    } else if op.Deactivate? {
      DeactivateKeepsTree(s, op.slug);
    } else {
      CategoriesStay(s, op);
    }
  }

  lemma CategoriesStay(s: Catalog, op: Op)
    requires !op.UpsertCategory? && !op.LinkParent? && !op.Deactivate? && Applied(s, op).Some?
    ensures Applied(s, op).value.0.categories == s.categories
  {
  }

  lemma LinkKeepsClosed(s: Catalog, d: CategoryData, known: set<Slug>)
    requires Closed(ParentsOf(s))
    ensures Closed(ParentsOf(Applied(s, LinkParent(d, known)).value.0))
  {
    if !Settled(s, LinkParent(d, known)) {
      assert ParentsOf(Applied(s, LinkParent(d, known)).value.0) == ParentsOf(s)[d.slug := d.parent];
    }
  }

  /** A link, if it changes anything, hangs its child outside the child's own subtree. */
  ghost predicate Outward(s: Catalog, op: Op) {
    op.LinkParent? ==> Settled(s, op) || !Below(ParentsOf(s), op.child.parent.value, op.child.slug)
  }

  lemma StepKeepsForestIff(s: Catalog, op: Op)
    requires Forest(ParentsOf(s)) && Applied(s, op).Some?
    ensures Forest(ParentsOf(Applied(s, op).value.0)) <==> Outward(s, op)
  {
    if op.LinkParent? {
      LinkKeepsTreeIff(s, op.child, op.canonical);
      LinkKeepsClosed(s, op.child, op.canonical);
    } else {
      OtherStepsKeepTree(s, op);
    }
  }

  /** After the first k steps. */
  function Midway(s: Catalog, ops: seq<Op>, k: nat): Catalog
    requires k <= |ops|
  {
    match AllApplied(s, ops[..k])
    case Some((m, _)) => m
    case None => s
  }

  lemma MidwayNext(s: Catalog, ops: seq<Op>, k: nat)
    requires k < |ops| && AllApplied(s, ops).Some?
    ensures Applied(Midway(s, ops, k), ops[k]).Some?
    ensures Applied(Midway(s, ops, k), ops[k]).value.0 == Midway(s, ops, k + 1)
  {
    assert ops == ops[..k + 1] + ops[k + 1..] && ops[..k + 1][..k] == ops[..k];
    EachInTurn(Applied, s, ops[..k + 1], ops[k + 1..]);
  }

  /** All through a sync the category tree stays a forest exactly when every link is outward as it is made. */
  lemma SyncKeepsForestIff(s: Catalog, ops: seq<Op>)
    requires Forest(ParentsOf(s)) && AllApplied(s, ops).Some?
    ensures (forall k | 0 <= k <= |ops| :: Forest(ParentsOf(Midway(s, ops, k)))) <==>
            (forall k | 0 <= k < |ops| :: Outward(Midway(s, ops, k), ops[k]))
  {
    if forall k | 0 <= k <= |ops| :: Forest(ParentsOf(Midway(s, ops, k))) {
      forall k | 0 <= k < |ops|
        ensures Outward(Midway(s, ops, k), ops[k])
      {
        MidwayNext(s, ops, k);
        StepKeepsForestIff(Midway(s, ops, k), ops[k]);
      }
    }
    if forall k | 0 <= k < |ops| :: Outward(Midway(s, ops, k), ops[k]) {
      forall k | 0 <= k <= |ops|
        ensures Forest(ParentsOf(Midway(s, ops, k)))
      {
        OutwardUpTo(s, ops, k);
      }
    }
  }

  lemma {:induction false} OutwardUpTo(s: Catalog, ops: seq<Op>, k: nat)
    requires Forest(ParentsOf(s)) && AllApplied(s, ops).Some? && k <= |ops|
    requires forall j | 0 <= j < |ops| :: Outward(Midway(s, ops, j), ops[j])
    ensures Forest(ParentsOf(Midway(s, ops, k)))
  {
    if k > 0 {
      OutwardUpTo(s, ops, k - 1);
      MidwayNext(s, ops, k - 1);
      StepKeepsForestIff(Midway(s, ops, k - 1), ops[k - 1]);
    } else {
      assert Midway(s, ops, 0) == s;
    }
  }

  function Moved(s: Catalog, slug: Slug, parent: Option<Slug>): Catalog
    requires slug in s.categories
  {
    WithCategory(s, slug, s.categories[slug].(parent := parent))
  }

  /** A sync after two moves that the admin's guard allows, depth test included: the canonical tree has d
      under its parent, an admin lifts d to the top and hangs the parent under it, and the next sync closes
      the circle. */
  lemma SyncAfterMovesCycles(s: Catalog, d: CategoryData, known: set<Slug>, deleted: set<Slug>)
    requires Forest(ParentsOf(s)) && d.slug in s.categories && d.parent.Some? && d.parent.value != d.slug
    requires s.categories[d.slug].parent == d.parent && d.slug in known && d.parent.value in known
    requires d.slug !in deleted && d.parent.value !in deleted
    ensures d.parent.value in s.categories
    ensures var lifted := Moved(s, d.slug, None);
            var hung := Moved(lifted, d.parent.value, Some(d.slug));
            && AdminMoves(ParentsOf(s), deleted, d.slug, None, ParentsOf(lifted))
            && AdminMoves(ParentsOf(lifted), deleted, d.parent.value, Some(d.slug), ParentsOf(hung))
            && Forest(ParentsOf(hung))
            && !Acyclic(ParentsOf(Applied(hung, LinkParent(d, known)).value.0))
  {
    var a, b := d.slug, d.parent.value;
    assert ParentsOf(s)[a] == Some(b);
    LiftAndHang(ParentsOf(s), a, b);
    var lifted := Moved(s, a, None);
    MovedParents(s, a, None);
    MovedParents(lifted, b, Some(a));
    TopIsNotDeep(ParentsOf(lifted), a);
    LinkKeepsTreeIff(Moved(lifted, b, Some(a)), d, known);
  }

  /** The admin service saves the move. */
  ghost predicate AdminMoves(g: ParentMap<Slug>, deleted: set<Slug>, id: Slug, parent: Option<Slug>,
                             h: ParentMap<Slug>) {
    Categories.CategoryMoved(g, deleted, id, parent) == (Categories.Saved, h)
  }

  lemma TopIsNotDeep(g: ParentMap<Slug>, a: Slug)
    requires a in g && g[a].None?
    ensures Categories.DepthWalk(g, a, {}, 0) == 0
  {
  }

  lemma MovedParents(s: Catalog, slug: Slug, parent: Option<Slug>)
    requires slug in s.categories
    ensures ParentsOf(Moved(s, slug, parent)) == ParentsOf(s)[slug := parent]
  {
  }

  // The sync itself

  /** Leaves one row under the key, the new one or the refreshed old one, and every other row as it was. */
  method GetOrCreate<K, R(==)>(rows: map<K, R>, key: K, first: R, refreshed: R -> R)
    returns (after: map<K, R>, created: bool, updated: bool)
    ensures after.Keys == rows.Keys + {key} && forall k <- rows | k != key :: after[k] == rows[k]
    ensures created <==> key !in rows
    ensures created ==> after[key] == first
    ensures !created ==> after[key] == refreshed(rows[key]) && (updated <==> after[key] != rows[key])
    ensures !(created && updated) && (!created && !updated <==> after == rows)
    ensures (after, Tally(if created then 1 else 0, if updated then 1 else 0)) == Upserted(rows, key, first, refreshed)
  {
    if key !in rows {
      return rows[key := first], true, false;
    }
    var instance := refreshed(rows[key]);
    if instance != rows[key] {
      return rows[key := instance], false, true;
    }
    return rows, false, false;
  }

  lemma DeactivateTakes(s: Catalog, t: Tally, slug: Slug)
    ensures if slug in s.categories && s.categories[slug].active then
              Takes(Applied, s, t, [Deactivate(slug)], WithCategory(s, slug, s.categories[slug].(active := false)),
                    Add(t, Tally(0, 1)))
            else Takes(Applied, s, t, [Deactivate(slug)], s, t)
  {
    if slug in s.categories && s.categories[slug].active {
      OneStep(Applied, s, t, Deactivate(slug), WithCategory(s, slug, s.categories[slug].(active := false)),
              Tally(0, 1));
    } else {
      OneStep(Applied, s, t, Deactivate(slug), s, NONE);
    }
  }

  lemma LinkParentTakes(s: Catalog, t: Tally, d: CategoryData, known: set<Slug>)
    ensures if Settled(s, LinkParent(d, known)) then Takes(Applied, s, t, [LinkParent(d, known)], s, t)
            else Takes(Applied, s, t, [LinkParent(d, known)],
                       WithCategory(s, d.slug, s.categories[d.slug].(parent := d.parent)), Add(t, Tally(0, 1)))
  {
    if Settled(s, LinkParent(d, known)) {
      OneStep(Applied, s, t, LinkParent(d, known), s, NONE);
    } else {
      OneStep(Applied, s, t, LinkParent(d, known), WithCategory(s, d.slug, s.categories[d.slug].(parent := d.parent)),
              Tally(0, 1));
    }
  }

  lemma LinkProductTakes(s: Catalog, t: Tally, p: Slug, c: Slug)
    ensures if Settled(s, LinkProduct(p, c)) then Takes(Applied, s, t, [LinkProduct(p, c)], s, t)
            else Takes(Applied, s, t, [LinkProduct(p, c)], WithLink(s, p, c), Add(t, Tally(1, 0)))
  {
    if Settled(s, LinkProduct(p, c)) {
      OneStep(Applied, s, t, LinkProduct(p, c), s, NONE);
    } else {
      OneStep(Applied, s, t, LinkProduct(p, c), WithLink(s, p, c), Tally(1, 0));
    }
  }

  function WithImages(s: Catalog, d: ProductData): Catalog {
    s.(images := s.images[d.slug := d.images])
  }

  lemma AddImagesTakes(s: Catalog, t: Tally, d: ProductData)
    ensures if Settled(s, AddImages(d)) then Takes(Applied, s, t, [AddImages(d)], s, t)
            else Takes(Applied, s, t, [AddImages(d)], WithImages(s, d), Add(t, Tally(d.images, 0)))
  {
    var op := AddImages(d);
    SettledIff(s, op);
    AddsNothing(t);
    if Settled(s, op) {
      OneStep(Applied, s, t, op, s, NONE);
    } else {
      OneStep(Applied, s, t, op, WithImages(s, d), Tally(d.images, 0));
    }
  }

  lemma AddsNothing(t: Tally)
    ensures Add(t, NONE) == t
  {
  }

  class MerchandisingSync {
    var db: Catalog
    var report: Tally

    constructor (db: Catalog)
      ensures this.db == db && report == NONE
    {
      this.db := db;
      report := NONE;
    }

    ghost predicate Took(s: Catalog, t: Tally, ops: seq<Op>)
      reads this
    {
      Takes(Applied, s, t, ops, db, report)
    }

    method Count(created: bool, updated: bool) returns (ghost counted: Tally)
      modifies this`report
      ensures counted == Tally(if created then 1 else 0, if updated then 1 else 0) &&
              report == Add(old(report), counted)
    {
      counted := Tally(if created then 1 else 0, if updated then 1 else 0);
      if created {
        report := report.(created := report.created + 1);
      }
      if updated {
        report := report.(updated := report.updated + 1);
      }
    }

    method UpsertCategories(c: Canon)
      modifies this
      ensures Took(old(db), old(report), CategoryOps(c))
    {
      ghost var s, t, ops := db, report, CategoryOps(c);
      for k := 0 to |c.categories|
        invariant Took(s, t, ops[..k])
      {
        ghost var m, u := db, report;
        UpsertCategoryRow(c.categories[k]);
        TakesNext(Applied, s, t, ops, k, m, u, db, report);
      }
      assert ops[..|ops|] == ops;
    }

    method UpsertCategoryRow(d: CategoryData)
      modifies this
      ensures Took(old(db), old(report), [UpsertCategory(d)])
    {
      ghost var s, t := db, report;
      var rows, created, updated :=
        GetOrCreate(db.categories, d.slug, CategoryRow(db.nextId, d.kind, d.copy, true, None), RefreshCategory(d));
      db := db.(categories := rows, nextId := db.nextId + if created then 1 else 0);
      ghost var counted := Count(created, updated);
      OneStep(Applied, s, t, UpsertCategory(d), db, counted);
    }

    method LinkCategoryParents(c: Canon)
      modifies this
      ensures Took(old(db), old(report), ParentOps(c))
    {
      ghost var s, t, ops := db, report, ParentOps(c);
      var known := CanonicalSlugs(c);
      for k := 0 to |c.categories|
        invariant Took(s, t, ops[..k])
      {
        ghost var m, u := db, report;
        LinkCategoryParent(c.categories[k], known);
        TakesNext(Applied, s, t, ops, k, m, u, db, report);
      }
      assert ops[..|ops|] == ops;
    }

    method LinkCategoryParent(d: CategoryData, known: set<Slug>)
      modifies this
      ensures Took(old(db), old(report), [LinkParent(d, known)])
    {
      LinkParentTakes(db, report, d, known);
      if d.parent.None? || !Resolves(db, known, d.slug) || !Resolves(db, known, d.parent.value) {
        return;
      }
      var child := db.categories[d.slug];
      if child.parent != d.parent {
        db := WithCategory(db, d.slug, child.(parent := d.parent));
        ghost var _ := Count(false, true);
      }
    }

    method DeactivateRetiredCategories(c: Canon)
      modifies this
      ensures Took(old(db), old(report), RetireOps(c))
    {
      ghost var s, t, ops := db, report, RetireOps(c);
      for k := 0 to |c.retiredCategories|
        invariant Took(s, t, ops[..k])
      {
        ghost var m, u := db, report;
        DeactivateCategory(c.retiredCategories[k]);
        TakesNext(Applied, s, t, ops, k, m, u, db, report);
      }
      assert ops[..|ops|] == ops;
    }

    method DeactivateCategory(slug: Slug)
      modifies this
      ensures Took(old(db), old(report), [Deactivate(slug)])
    {
      DeactivateTakes(db, report, slug);
      if slug in db.categories && db.categories[slug].active {
        db := WithCategory(db, slug, db.categories[slug].(active := false));
        ghost var _ := Count(false, true);
      }
    }

    // Products

    method UpsertProductRow(d: ProductData)
      modifies this
      ensures Took(old(db), old(report), [UpsertProduct(d)])
    {
      ghost var s, t := db, report;
      var rows, created, updated :=
        GetOrCreate(db.products, d.slug, ProductRow(db.nextId, d.face, Published), RefreshProduct(d));
      db := db.(products := rows, nextId := db.nextId + if created then 1 else 0);
      ghost var counted := Count(created, updated);
      OneStep(Applied, s, t, UpsertProduct(d), db, counted);
    }

    method LinkCategories(d: ProductData)
      modifies this
      ensures Took(old(db), old(report), LinkOps(d))
    {
      ghost var s, t, ops := db, report, LinkOps(d);
      for k := 0 to |d.categories|
        invariant Took(s, t, ops[..k])
      {
        ghost var m, u := db, report;
        LinkCategory(d.slug, d.categories[k]);
        TakesNext(Applied, s, t, ops, k, m, u, db, report);
      }
      assert ops[..|ops|] == ops;
    }

    method LinkCategory(p: Slug, c: Slug)
      modifies this
      ensures Took(old(db), old(report), [LinkProduct(p, c)])
    {
      LinkProductTakes(db, report, p, c);
      if c in db.categories && (p, c) !in db.links {
        db := WithLink(db, p, c);
        ghost var _ := Count(true, false);
      }
    }

    method UpsertVariantRow(p: Slug, v: VariantData)
      modifies this
      ensures Took(old(db), old(report), [UpsertVariant(p, v)])
    {
      ghost var s, t := db, report;
      var rows, created, updated :=
        GetOrCreate(db.variants, v.sku, VariantRow(db.nextId, p, v.copy, true), RefreshVariant(v));
      db := db.(variants := rows, nextId := db.nextId + if created then 1 else 0);
      ghost var counted := Count(created, updated);
      OneStep(Applied, s, t, UpsertVariant(p, v), db, counted);
    }

    /** The database refuses a stock below what is reserved. */
    method ReconcileStockRow(v: VariantData) returns (ok: bool)
      modifies this
      ensures ok <==> Each(Applied, old(db), [ReconcileStock(v)]).Some?
      ensures ok ==> Took(old(db), old(report), [ReconcileStock(v)])
    {
      ghost var s, t := db, report;
      if v.sku in db.inventory && v.stock < db.inventory[v.sku].reserved {
        OneAborts(Applied, db, ReconcileStock(v));
        return false;
      }
      var rows, created, updated :=
        GetOrCreate(db.inventory, v.sku, StockRow(db.nextId, v.stock, 0, 2), RefreshStock(v));
      db := db.(inventory := rows, nextId := db.nextId + if created then 1 else 0);
      ghost var counted := Count(created, updated);
      OneStep(Applied, s, t, ReconcileStock(v), db, counted);
      return true;
    }

    method UpsertVariants(p: Slug, vs: seq<VariantData>) returns (ok: bool)
      modifies this
      ensures ok <==> Each(Applied, old(db), VariantOps(p, vs)).Some?
      ensures ok ==> Took(old(db), old(report), VariantOps(p, vs))
    {
      ghost var s, t := db, report;
      for k := 0 to |vs|
        invariant Took(s, t, VariantOps(p, vs[..k]))
      {
        ghost var done, m, u := VariantOps(p, vs[..k]), db, report;
        assert vs[..k + 1][..k] == vs[..k];
        UpsertVariantRow(p, vs[k]);
        TakesThen(Applied, s, t, done, m, u, [UpsertVariant(p, vs[k])], db, report);
        ghost var n, w := db, report;
        ghost var next := [ReconcileStock(vs[k])];
        assert VariantOps(p, vs[..k + 1]) == done + [UpsertVariant(p, vs[k])] + next;
        ok := ReconcileStockRow(vs[k]);
        if !ok {
          AbortsThen(Applied, s, t, done + [UpsertVariant(p, vs[k])], n, w, next);
          VariantOpsExtend(p, vs, k + 1);
          AbortsEarly(Applied, s, VariantOps(p, vs[..k + 1]), VariantOps(p, vs[k + 1..]));
          return;
        }
        TakesThen(Applied, s, t, done + [UpsertVariant(p, vs[k])], n, w, next, db, report);
      }
      assert vs[..|vs|] == vs;
      return true;
    }

    method AddProductImages(d: ProductData)
      modifies this
      ensures Took(old(db), old(report), [AddImages(d)])
    {
      AddImagesTakes(db, report, d);
      if ImagesOf(db, d.slug) == 0 {
        InsertImages(d);
      }
    }

    method InsertImages(d: ProductData)
      modifies this
      ensures d.images == 0 ==> db == old(db) && report == old(report)
      ensures d.images > 0 ==> db == WithImages(old(db), d) && report == Add(old(report), Tally(d.images, 0))
    {
      ghost var s, t := db, report;
      for idx := 0 to d.images
        invariant idx == 0 ==> db == s && report == t
        invariant idx > 0 ==> db == s.(images := s.images[d.slug := idx]) && report == Add(t, Tally(idx, 0))
      {
        db := db.(images := db.images[d.slug := idx + 1]);
        ghost var _ := Count(true, false);
      }
    }

    method UpsertProductWithRows(d: ProductData) returns (ok: bool)
      modifies this
      ensures ok <==> Each(Applied, old(db), ProductOps(d)).Some?
      ensures ok ==> Took(old(db), old(report), ProductOps(d))
    {
      ghost var s, t := db, report;
      UpsertProductRow(d);
      ghost var m, u := db, report;
      LinkCategories(d);
      TakesThen(Applied, s, t, [UpsertProduct(d)], m, u, LinkOps(d), db, report);
      ghost var head := [UpsertProduct(d)] + LinkOps(d);
      ghost var n, w := db, report;
      ok := UpsertVariants(d.slug, d.variants);
      if !ok {
        AbortsThen(Applied, s, t, head, n, w, VariantOps(d.slug, d.variants));
        AbortsEarly(Applied, s, head + VariantOps(d.slug, d.variants), [AddImages(d)]);
        return;
      }
      TakesThen(Applied, s, t, head, n, w, VariantOps(d.slug, d.variants), db, report);
      ghost var q, x := db, report;
      AddProductImages(d);
      TakesThen(Applied, s, t, head + VariantOps(d.slug, d.variants), q, x, [AddImages(d)], db, report);
    }

    method UpsertProducts(ds: seq<ProductData>) returns (ok: bool)
      modifies this
      ensures ok <==> Each(Applied, old(db), AllProductOps(ds)).Some?
      ensures ok ==> Took(old(db), old(report), AllProductOps(ds))
    {
      ghost var s, t := db, report;
      for k := 0 to |ds|
        invariant Took(s, t, AllProductOps(ds[..k]))
      {
        ghost var done, m, u := AllProductOps(ds[..k]), db, report;
        assert ds[..k + 1][..k] == ds[..k];
        assert AllProductOps(ds[..k + 1]) == done + ProductOps(ds[k]);
        ok := UpsertProductWithRows(ds[k]);
        if !ok {
          AbortsThen(Applied, s, t, done, m, u, ProductOps(ds[k]));
          AllProductOpsExtend(ds, k + 1);
          AbortsEarly(Applied, s, AllProductOps(ds[..k + 1]), AllProductOps(ds[k + 1..]));
          return;
        }
        TakesThen(Applied, s, t, done, m, u, ProductOps(ds[k]), db, report);
      }
      assert ds[..|ds|] == ds;
      return true;
    }

    method ArchiveRetiredProducts(c: Canon)
      modifies this
      ensures Took(old(db), old(report), ArchiveOps(c))
    {
      ghost var s, t, ops := db, report, ArchiveOps(c);
      for k := 0 to |c.retiredProducts|
        invariant Took(s, t, ops[..k])
      {
        ghost var m, u := db, report;
        Archive(c.retiredProducts[k]);
        TakesNext(Applied, s, t, ops, k, m, u, db, report);
      }
      assert ops[..|ops|] == ops;
    }

    method Archive(slug: Slug)
      modifies this
      ensures Took(old(db), old(report), [ArchiveProduct(slug)])
    {
      ghost var s, t := db, report;
      if slug in db.products {
        var product := db.products[slug];
        if product.status != Archived {
          var face := Face(product.face.copy, false, false, false);
          db := WithProduct(db, slug, product.(status := Archived, face := face));
          ghost var counted := Count(false, true);
          OneStep(Applied, s, t, ArchiveProduct(slug), db, counted);
          return;
        }
      }
      OneStep(Applied, s, t, ArchiveProduct(slug), db, NONE);
    }

    // Banners

    method UpsertBanners(c: Canon)
      modifies this
      ensures Took(old(db), old(report), BannerOps(c))
    {
      ghost var s, t, ops := db, report, BannerOps(c);
      for k := 0 to |c.banners|
        invariant Took(s, t, ops[..k])
      {
        ghost var m, u := db, report;
        UpsertBannerRow(c.banners[k]);
        TakesNext(Applied, s, t, ops, k, m, u, db, report);
      }
      assert ops[..|ops|] == ops;
    }

    method UpsertBannerRow(b: BannerData)
      modifies this
      ensures Took(old(db), old(report), [UpsertBanner(b)])
    {
      ghost var s, t := db, report;
      var category := Shown(db, b.category);
      var rows, created, updated :=
        GetOrCreate(db.banners, b.key, BannerRow(db.nextId, b.copy, category, true), RefreshBanner(db, b));
      db := db.(banners := rows, nextId := db.nextId + if created then 1 else 0);
      ghost var counted := Count(created, updated);
      OneStep(Applied, s, t, UpsertBanner(b), db, counted);
    }

    /** One transaction: an abort leaves the tables as they were. */
    method Sync(c: Canon) returns (ok: bool)
      modifies this
      ensures ok <==> Synced(old(db), c).Some?
      ensures ok ==> Took(old(db), old(report), SyncOps(c))
      ensures !ok ==> db == old(db)
    {
      var before := db;
      ghost var t := report;
      SyncCategories(c);
      ghost var a, m, u := CategoryOps(c) + ParentOps(c) + RetireOps(c), db, report;
      ok := UpsertProducts(c.products);
      if !ok {
        AbortsThen(Applied, before, t, a, m, u, AllProductOps(c.products));
        AbortsEarly(Applied, before, a + AllProductOps(c.products), ArchiveOps(c));
        AbortsEarly(Applied, before, a + AllProductOps(c.products) + ArchiveOps(c), BannerOps(c));
        db := before;
        return;
      }
      TakesThen(Applied, before, t, a, m, u, AllProductOps(c.products), db, report);
      ghost var b, n, w := a + AllProductOps(c.products), db, report;
      ArchiveRetiredProducts(c);
      TakesThen(Applied, before, t, b, n, w, ArchiveOps(c), db, report);
      ghost var q, x := db, report;
      UpsertBanners(c);
      TakesThen(Applied, before, t, b + ArchiveOps(c), q, x, BannerOps(c), db, report);
    }

    method SyncCategories(c: Canon)
      modifies this
      ensures Took(old(db), old(report), CategoryOps(c) + ParentOps(c) + RetireOps(c))
    {
      ghost var s, t := db, report;
      UpsertCategories(c);
      ghost var m, u := db, report;
      LinkCategoryParents(c);
      TakesThen(Applied, s, t, CategoryOps(c), m, u, ParentOps(c), db, report);
      ghost var n, w := db, report;
      DeactivateRetiredCategories(c);
      TakesThen(Applied, s, t, CategoryOps(c) + ParentOps(c), n, w, RetireOps(c), db, report);
    }
  }

  lemma Regroup(a: seq<Op>, b: seq<Op>, c: seq<Op>)
    ensures a + b + c == a + (b + c)
  {
  }

  lemma LastBlock(ds: seq<ProductData>) returns (last: seq<Op>)
    requires ds != []
    ensures last == ProductOps(ds[|ds| - 1]) && AllProductOps(ds) == AllProductOps(ds[..|ds| - 1]) + last
  {
    last := ProductOps(ds[|ds| - 1]);
  }

  lemma {:induction false} AllProductOpsExtend(ds: seq<ProductData>, k: nat)
    requires k <= |ds|
    ensures AllProductOps(ds) == AllProductOps(ds[..k]) + AllProductOps(ds[k..])
    decreases |ds|
  {
    if k == |ds| {
      assert ds[..k] == ds;
    } else {
      var n := |ds| - 1;
      AllProductOpsExtend(ds[..n], k);
      assert ds[..n][..k] == ds[..k] && ds[..n][k..] == ds[k..][..n - k];
      var x := LastBlock(ds);
      var y := LastBlock(ds[k..]);
      Regroup(AllProductOps(ds[..k]), AllProductOps(ds[k..][..n - k]), x);
    }
  }

  lemma {:induction false} VariantOpsExtend(p: Slug, vs: seq<VariantData>, k: nat)
    requires k <= |vs|
    ensures VariantOps(p, vs) == VariantOps(p, vs[..k]) + VariantOps(p, vs[k..])
    decreases |vs|
  {
    if k == |vs| {
      assert vs[..k] == vs;
    } else {
      var n := |vs| - 1;
      VariantOpsExtend(p, vs[..n], k);
      assert vs[..n][..k] == vs[..k] && vs[..n][k..] == vs[k..][..n - k];
    }
  }
}
