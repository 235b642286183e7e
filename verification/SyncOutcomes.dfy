/** What the merchandising sync writes, column by column, and what the shop shows after it. */
module SyncOutcomes {
  import opened Tables
  import opened Stepwise
  import opened CatalogSync

  // One step

  /** One creation for a new row, one update for a changed one. */
  function Counted<K, R(==)>(there: bool, before: map<K, R>, after: map<K, R>): Tally {
    if !there then Tally(1, 0) else if after != before then Tally(0, 1) else Tally(0, 0)
  }

  /** A new category has the canonical columns and no parent yet; one that is there keeps its id, its kind and
      its parent, takes the canonical texts and is active again. */
  lemma CategoryWritten(s: Catalog, d: CategoryData)
    ensures var (t, n), there := Applied(s, UpsertCategory(d)).value, d.slug in s.categories;
            var row := if there then
                         CategoryRow(s.categories[d.slug].id, s.categories[d.slug].kind, d.copy, true,
                                     s.categories[d.slug].parent)
                       else CategoryRow(s.nextId, d.kind, d.copy, true, None);
            && t == s.(categories := s.categories[d.slug := row], nextId := s.nextId + if there then 0 else 1)
            && n == Counted(there, s.categories, t.categories)
  {
  }

  /** A product takes its canonical face and is published. */
  lemma ProductWritten(s: Catalog, d: ProductData)
    ensures var (t, n), there := Applied(s, UpsertProduct(d)).value, d.slug in s.products;
            var row := ProductRow(if there then s.products[d.slug].id else s.nextId, d.face, Published);
            && t == s.(products := s.products[d.slug := row], nextId := s.nextId + if there then 0 else 1)
            && n == Counted(there, s.products, t.products)
  {
  }

  /** A variant takes its canonical texts and is active; it stays with its product. */
  lemma VariantWritten(s: Catalog, p: Slug, v: VariantData)
    ensures var (t, n), there := Applied(s, UpsertVariant(p, v)).value, v.sku in s.variants;
            var row := if there then VariantRow(s.variants[v.sku].id, s.variants[v.sku].product, v.copy, true)
                       else VariantRow(s.nextId, p, v.copy, true);
            && t == s.(variants := s.variants[v.sku := row], nextId := s.nextId + if there then 0 else 1)
            && n == Counted(there, s.variants, t.variants)
  {
  }

  /** A stock row takes the canonical stock, unless more is reserved, which stops the sync; a new one has
      nothing reserved and a threshold of two. */
  lemma StockWritten(s: Catalog, v: VariantData)
    ensures Applied(s, ReconcileStock(v)).None? <==> v.sku in s.inventory && v.stock < s.inventory[v.sku].reserved
    ensures Applied(s, ReconcileStock(v)).Some? ==>
              var (t, n), there := Applied(s, ReconcileStock(v)).value, v.sku in s.inventory;
              var row := if there then StockRow(s.inventory[v.sku].id, v.stock, s.inventory[v.sku].reserved,
                                                s.inventory[v.sku].threshold)
                         else StockRow(s.nextId, v.stock, 0, 2);
              && t == s.(inventory := s.inventory[v.sku := row], nextId := s.nextId + if there then 0 else 1)
              && n == Counted(there, s.inventory, t.inventory)
  {
  }

  /** A banner takes its canonical text and its category, if the shop has that, and is active. */
  lemma BannerWritten(s: Catalog, b: BannerData)
    ensures var (t, n), there := Applied(s, UpsertBanner(b)).value, b.key in s.banners;
            var category := if b.category.Some? && b.category.value in s.categories then b.category else None;
            var row := BannerRow(if there then s.banners[b.key].id else s.nextId, b.copy, category, true);
            && t == s.(banners := s.banners[b.key := row], nextId := s.nextId + if there then 0 else 1)
            && n == Counted(there, s.banners, t.banners)
  {
  }

  /** Links are added where the category is, images where there are none; each counts as created. */
  lemma LinksAndImages(s: Catalog, p: Slug, c: Slug, d: ProductData)
    ensures Applied(s, LinkProduct(p, c)).value ==
            if c in s.categories && (p, c) !in s.links then (s.(links := s.links + {(p, c)}), Tally(1, 0))
            else (s, Tally(0, 0))
    ensures Applied(s, AddImages(d)).value ==
            if (d.slug !in s.images || s.images[d.slug] == 0) && d.images > 0
            then (s.(images := s.images[d.slug := d.images]), Tally(d.images, 0))
            else (s, Tally(0, 0))
  {
  }

  /** A canonical parent is linked if it is not already; retired categories are deactivated, retired products
      archived and taken off every shelf; each change counts as an update. */
  lemma LinksAndRetirements(s: Catalog, d: CategoryData, known: set<Slug>, slug: Slug)
    ensures Applied(s, LinkParent(d, known)).value ==
            if d.parent.Some? && d.slug in known && d.slug in s.categories && d.parent.value in known &&
               d.parent.value in s.categories && s.categories[d.slug].parent != d.parent
            then (s.(categories := s.categories[d.slug := s.categories[d.slug].(parent := d.parent)]), Tally(0, 1))
            else (s, Tally(0, 0))
    ensures Applied(s, Deactivate(slug)).value ==
            if slug in s.categories && s.categories[slug].active
            then (s.(categories := s.categories[slug := s.categories[slug].(active := false)]), Tally(0, 1))
            else (s, Tally(0, 0))
    ensures Applied(s, ArchiveProduct(slug)).value ==
            if slug in s.products && s.products[slug].status != Archived
            then var p := s.products[slug];
                 var hidden := Face(p.face.copy, false, false, false);
                 (s.(products := s.products[slug := ProductRow(p.id, hidden, Archived)]), Tally(0, 1))
            else (s, Tally(0, 0))
  {
  }

  // The whole sync

  lemma StepHolds(s: Catalog, c: Canon, op: Op)
    requires WellKeyed(c) && Synced(s, c).Some? && op in SyncOps(c)
    ensures Settled(Synced(s, c).value.0, op)
  {
    var ops := SyncOps(c);
    var k :| 0 <= k < |ops| && ops[k] == op;
    SyncOpsCompatible(c);
    assert Undisturbed(ops, k);
    RunSettles(s, ops, k);
  }

  lemma CategoryStepsAre(c: Canon, d: CategoryData, slug: Slug)
    ensures d in c.categories ==> UpsertCategory(d) in SyncOps(c) && LinkParent(d, CanonicalSlugs(c)) in SyncOps(c)
    ensures slug in c.retiredCategories ==> Deactivate(slug) in SyncOps(c)
  {
    if d in c.categories {
      var k :| 0 <= k < |c.categories| && c.categories[k] == d;
      assert CategoryOps(c)[k] == UpsertCategory(d) && ParentOps(c)[k] == LinkParent(d, CanonicalSlugs(c));
    }
    if slug in c.retiredCategories {
      var k :| 0 <= k < |c.retiredCategories| && c.retiredCategories[k] == slug;
      assert RetireOps(c)[k] == Deactivate(slug);
    }
  }

  /** After a sync every canonical category is there with its text, active and under its canonical parent, and
      every retired one that is there is not active. */
  lemma CategoriesShown(s: Catalog, c: Canon, d: CategoryData, slug: Slug)
    requires WellKeyed(c) && Synced(s, c).Some?
    ensures var t := Synced(s, c).value.0;
            && (d in c.categories ==>
                  && d.slug in t.categories && t.categories[d.slug].copy == d.copy && t.categories[d.slug].active
                  && (d.parent.Some? && (exists e <- c.categories :: e.slug == d.parent.value) ==>
                        t.categories[d.slug].parent == d.parent))
            && (slug in c.retiredCategories && slug in t.categories ==> !t.categories[slug].active)
  {
    CategoryStepsAre(c, d, slug);
    if d in c.categories {
      StepHolds(s, c, UpsertCategory(d));
      StepHolds(s, c, LinkParent(d, CanonicalSlugs(c)));
      assert d.slug in CanonicalSlugs(c);
      if e :| e in c.categories && d.parent == Some(e.slug) {
        CategoryStepsAre(c, e, slug);
        StepHolds(s, c, UpsertCategory(e));
        assert e.slug in CanonicalSlugs(c);
      }
    }
    if slug in c.retiredCategories {
      StepHolds(s, c, Deactivate(slug));
    }
  }

  lemma {:induction false} ProductStepsAre(ds: seq<ProductData>, d: ProductData, op: Op)
    requires d in ds && op in ProductOps(d)
    ensures op in AllProductOps(ds)
  {
    var n := |ds| - 1;
    if d in ds[..n] {
      ProductStepsAre(ds[..n], d, op);
    }
  }

  lemma {:induction false} VariantStepsAre(p: Slug, vs: seq<VariantData>, v: VariantData)
    requires v in vs
    ensures UpsertVariant(p, v) in VariantOps(p, vs) && ReconcileStock(v) in VariantOps(p, vs)
  {
    var n := |vs| - 1;
    if v in vs[..n] {
      VariantStepsAre(p, vs[..n], v);
    } else {
      var last := [UpsertVariant(p, vs[n]), ReconcileStock(vs[n])];
      assert last[0] in last && last[1] in last;
    }
  }

  lemma ProductStepHolds(s: Catalog, c: Canon, d: ProductData, op: Op)
    requires WellKeyed(c) && Synced(s, c).Some? && d in c.products && op in ProductOps(d)
    ensures Settled(Synced(s, c).value.0, op)
  {
    ProductStepsAre(c.products, d, op);
    StepHolds(s, c, op);
  }

  /** Every canonical product is published with its face, linked to each of its categories that is there, and
      has images if it is given any. */
  lemma ProductsShown(s: Catalog, c: Canon, d: ProductData, slug: Slug)
    requires WellKeyed(c) && Synced(s, c).Some? && d in c.products
    ensures var t := Synced(s, c).value.0;
            && d.slug in t.products && t.products[d.slug].face == d.face && t.products[d.slug].status == Published
            && (slug in d.categories && slug in t.categories ==> (d.slug, slug) in t.links)
            && (d.images > 0 ==> d.slug in t.images && t.images[d.slug] > 0)
  {
    var ops := ProductOps(d);
    assert ops[0] == UpsertProduct(d) && ops[|ops| - 1] == AddImages(d);
    ProductStepHolds(s, c, d, UpsertProduct(d));
    ProductStepHolds(s, c, d, AddImages(d));
    if slug in d.categories {
      var k :| 0 <= k < |d.categories| && d.categories[k] == slug;
      assert LinkOps(d)[k] == LinkProduct(d.slug, slug) && LinkProduct(d.slug, slug) in LinkOps(d);
      ProductStepHolds(s, c, d, LinkProduct(d.slug, slug));
    }
  }

  /** Each of its variants is active with its text and in stock with exactly the canonical stock, at least what
      is reserved. */
  lemma VariantsShown(s: Catalog, c: Canon, d: ProductData, v: VariantData)
    requires WellKeyed(c) && Synced(s, c).Some? && d in c.products && v in d.variants
    ensures var t := Synced(s, c).value.0;
            && v.sku in t.variants && t.variants[v.sku].copy == v.copy && t.variants[v.sku].active
            && v.sku in t.inventory && t.inventory[v.sku].stock == v.stock && t.inventory[v.sku].reserved <= v.stock
  {
    VariantStepsAre(d.slug, d.variants, v);
    ProductStepHolds(s, c, d, UpsertVariant(d.slug, v));
    ProductStepHolds(s, c, d, ReconcileStock(v));
  }

  /** Retired products that are there are archived; every canonical banner is active with its text and category. */
  lemma RetiredAndBannersShown(s: Catalog, c: Canon, slug: Slug, b: BannerData)
    requires WellKeyed(c) && Synced(s, c).Some?
    ensures var t := Synced(s, c).value.0;
            && (slug in c.retiredProducts && slug in t.products ==> t.products[slug].status == Archived)
            && (b in c.banners ==>
                  && b.key in t.banners && t.banners[b.key].copy == b.copy && t.banners[b.key].active
                  && t.banners[b.key].category ==
                     if b.category.Some? && b.category.value in t.categories then b.category else None)
  {
    if slug in c.retiredProducts {
      var k :| 0 <= k < |c.retiredProducts| && c.retiredProducts[k] == slug;
      assert ArchiveOps(c)[k] == ArchiveProduct(slug) && ArchiveProduct(slug) in ArchiveOps(c);
      StepHolds(s, c, ArchiveProduct(slug));
    }
    if b in c.banners {
      var k :| 0 <= k < |c.banners| && c.banners[k] == b;
      assert BannerOps(c)[k] == UpsertBanner(b) && UpsertBanner(b) in BannerOps(c);
      StepHolds(s, c, UpsertBanner(b));
    }
  }

  // Which syncs go through

  /** What is reserved of each stock row stays, and is nothing for a new one. */
  predicate SameReserved(s: Catalog, t: Catalog) {
    && s.inventory.Keys <= t.inventory.Keys
    && forall k <- t.inventory :: t.inventory[k].reserved == if k in s.inventory then s.inventory[k].reserved else 0
  }

  lemma StepSameReserved(s: Catalog, m: Catalog, op: Op)
    requires SameReserved(s, m) && Applied(m, op).Some?
    ensures SameReserved(s, Applied(m, op).value.0)
  {
    if op.ReconcileStock? {
      StockWritten(m, op.item);
    } else {
      InventoryStays(m, op);
    }
  }

  lemma InventoryStays(m: Catalog, op: Op)
    requires !op.ReconcileStock? && Applied(m, op).Some?
    ensures Applied(m, op).value.0.inventory == m.inventory
  {
  }

  lemma StepGoesThroughIff(s: Catalog, m: Catalog, op: Op)
    requires SameReserved(s, m)
    ensures Applied(m, op).Some? <==>
            (op.ReconcileStock? && op.item.sku in s.inventory ==> s.inventory[op.item.sku].reserved <= op.item.stock)
  {
  }

  lemma {:induction false} StepsGoThroughIff(s: Catalog, ops: seq<Op>)
    ensures AllApplied(s, ops).Some? <==>
            forall op <- ops | op.ReconcileStock? && op.item.sku in s.inventory ::
              s.inventory[op.item.sku].reserved <= op.item.stock
    ensures AllApplied(s, ops).Some? ==> SameReserved(s, AllApplied(s, ops).value.0)
  {
    if ops != [] {
      var n := |ops| - 1;
      StepsGoThroughIff(s, ops[..n]);
      assert ops == ops[..n] + [ops[n]];
      if AllApplied(s, ops[..n]).Some? {
        var m := AllApplied(s, ops[..n]).value.0;
        StepGoesThroughIff(s, m, ops[n]);
        if Applied(m, ops[n]).Some? {
          StepSameReserved(s, m, ops[n]);
        }
      }
    }
  }

  /** A sync goes through exactly when no canonical stock is below what is reserved of it beforehand. */
  lemma SyncGoesThroughIff(s: Catalog, c: Canon)
    ensures Synced(s, c).Some? <==>
            forall d <- c.products, v <- d.variants | v.sku in s.inventory :: s.inventory[v.sku].reserved <= v.stock
  {
    StepsGoThroughIff(s, SyncOps(c));
    if Synced(s, c).Some? {
      forall d <- c.products, v <- d.variants | v.sku in s.inventory
        ensures s.inventory[v.sku].reserved <= v.stock
      {
        VariantStepsAre(d.slug, d.variants, v);
        ProductStepsAre(c.products, d, ReconcileStock(v));
        assert ReconcileStock(v) in SyncOps(c);
      }
    } else {
      var op :| op in SyncOps(c) && op.ReconcileStock? && op.item.sku in s.inventory &&
                s.inventory[op.item.sku].reserved > op.item.stock;
      ReconcilesAreVariants(c.products, op);
    }
  }

  lemma {:induction false} ReconcilesAreVariants(ds: seq<ProductData>, op: Op)
    requires op in AllProductOps(ds) && op.ReconcileStock?
    ensures exists d <- ds :: op.item in d.variants
  {
    var n := |ds| - 1;
    if op in AllProductOps(ds[..n]) {
      ReconcilesAreVariants(ds[..n], op);
    } else {
      VariantsOnly(ds[n].slug, ds[n].variants, op);
    }
  }

  lemma {:induction false} VariantsOnly(p: Slug, vs: seq<VariantData>, op: Op)
    requires op in VariantOps(p, vs) && op.ReconcileStock?
    ensures op.item in vs
  {
    var n := |vs| - 1;
    if op in VariantOps(p, vs[..n]) {
      VariantsOnly(p, vs[..n], op);
    }
  }
}
