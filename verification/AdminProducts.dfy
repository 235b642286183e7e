/** app/services/admin_product_service.py: the admin's changes to what is on sale, and what they do to
    live holds. */
module AdminProducts {
  import opened Tables
  import opened Holds
  import opened CheckoutPayments
  import opened Protocol
  import opened Linkage
  import opened NoOversell
  import opened Bypasses
  import opened Database

  datatype Edit =
    | Publish(product: ProductId)
    | Unpublish(product: ProductId)
    | Archive(product: ProductId)
    | Unarchive(product: ProductId)
    | UpdateVariant(product: ProductId, variant: VariantId, active: bool)
    | DeactivateVariant(product: ProductId, variant: VariantId)

  datatype EditOutcome =
    | ProductNotFound
    | VariantNotFound
    | StatusUnchanged
    | TransitionNotAllowed
    | NoActiveVariants
    | AlreadyInactive
    | EditSaved

  predicate HasActiveVariants(items: map<VariantId, Item>, p: ProductId) {
    exists v <- items :: items[v].product == p && items[v].active
  }

  /** UNAVAILABLE is the system's; archived products are unarchived before they are published. */
  function TransitionRefusal(current: ProductStatus, target: ProductStatus): Option<EditOutcome> {
    if current == target then Some(StatusUnchanged)
    else if current == Archived && target == Published then Some(TransitionNotAllowed)
    else None
  }

  function StatusSet(s: Shop, p: ProductId, target: ProductStatus): (EditOutcome, Shop) {
    if p !in s.products then (ProductNotFound, s)
    else match TransitionRefusal(s.products[p], target)
      case Some(why) => (why, s)
      case None =>
        if target == Published && !HasActiveVariants(s.items, p) then (NoActiveVariants, s)
        else (EditSaved, s.(products := s.products[p := target]))
  }

  function Edited(s: Shop, e: Edit): (EditOutcome, Shop) {
    match e
    case Publish(p) => StatusSet(s, p, Published)
    case Unpublish(p) => StatusSet(s, p, Draft)
    case Archive(p) => StatusSet(s, p, Archived)
    case Unarchive(p) =>
      if p !in s.products then (ProductNotFound, s)
      else if s.products[p] != Archived then (TransitionNotAllowed, s)
      else (EditSaved, s.(products := s.products[p := Draft]))
    case UpdateVariant(p, v, active) =>
      if v !in s.items || s.items[v].product != p then (VariantNotFound, s)
      else (EditSaved, s.(items := s.items[v := Item(p, active)]))
    case DeactivateVariant(p, v) =>
      if v !in s.items || s.items[v].product != p then (VariantNotFound, s)
      else if !s.items[v].active then (AlreadyInactive, s)
      else (EditSaved, s.(items := s.items[v := Item(p, false)]))
  }

  class AdminProductService {
    const db: Db

    constructor (db: Db)
      ensures this.db == db
    {
      this.db := db;
    }

    method SetStatus(p: ProductId, target: ProductStatus) returns (r: EditOutcome)
      modifies db`products
      ensures (r, db.Contents()) == StatusSet(old(db.Contents()), p, target)
    {
      if p !in db.products {
        return ProductNotFound;
      }
      var why := TransitionRefusal(db.products[p], target);
      if why.Some? {
        return why.value;
      }
      if target == Published && !HasActiveVariants(db.items, p) {
        return NoActiveVariants;
      }
      db.products := db.products[p := target];
      return EditSaved;
    }

    method PublishProduct(p: ProductId) returns (r: EditOutcome)
      modifies db`products
      ensures (r, db.Contents()) == Edited(old(db.Contents()), Publish(p))
    {
      r := SetStatus(p, Published);
    }

    method UnpublishProduct(p: ProductId) returns (r: EditOutcome)
      modifies db`products
      ensures (r, db.Contents()) == Edited(old(db.Contents()), Unpublish(p))
    {
      r := SetStatus(p, Draft);
    }

    method ArchiveProduct(p: ProductId) returns (r: EditOutcome)
      modifies db`products
      ensures (r, db.Contents()) == Edited(old(db.Contents()), Archive(p))
    {
      r := SetStatus(p, Archived);
    }

    method UnarchiveProduct(p: ProductId) returns (r: EditOutcome)
      modifies db`products
      ensures (r, db.Contents()) == Edited(old(db.Contents()), Unarchive(p))
    {
      if p !in db.products {
        return ProductNotFound;
      }
      if db.products[p] != Archived {
        return TransitionNotAllowed;
      }
      db.products := db.products[p := Draft];
      return EditSaved;
    }

    method UpdateVariantActive(p: ProductId, v: VariantId, active: bool) returns (r: EditOutcome)
      modifies db`items
      ensures (r, db.Contents()) == Edited(old(db.Contents()), UpdateVariant(p, v, active))
    {
      if v !in db.items || db.items[v].product != p {
        return VariantNotFound;
      }
      db.items := db.items[v := Item(p, active)];
      return EditSaved;
    }

    method Deactivate(p: ProductId, v: VariantId) returns (r: EditOutcome)
      modifies db`items
      ensures (r, db.Contents()) == Edited(old(db.Contents()), DeactivateVariant(p, v))
    {
      if v !in db.items || db.items[v].product != p {
        return VariantNotFound;
      }
      if !db.items[v].active {
        return AlreadyInactive;
      }
      db.items := db.items[v := Item(p, false)];
      return EditSaved;
    }
  }

  // What it answers

  /** Publishing takes a draft or unavailable product with an active variant, unpublishing any product that is
      not a draft, archiving any that is not archived, unarchiving an archived one, which becomes a draft. */
  lemma StatusEdits(s: Shop, p: ProductId)
    ensures var known := p in s.products;
            && (Edited(s, Publish(p)).0 == EditSaved <==>
                known && (s.products[p] == Draft || s.products[p] == Unavailable) &&
                exists v <- s.items :: s.items[v].product == p && s.items[v].active)
            && (Edited(s, Unpublish(p)).0 == EditSaved <==> known && s.products[p] != Draft)
            && (Edited(s, Archive(p)).0 == EditSaved <==> known && s.products[p] != Archived)
            && (Edited(s, Unarchive(p)).0 == EditSaved <==> known && s.products[p] == Archived)
    ensures forall e | e in {Publish(p), Unpublish(p), Archive(p), Unarchive(p)} ::
              var (r, t) := Edited(s, e);
              && (r == ProductNotFound <==> p !in s.products)
              && t == if r != EditSaved then s
                      else s.(products := s.products[p := if e == Publish(p) then Published
                                                          else if e == Archive(p) then Archived else Draft])
  {
  }

  /** Why publishing and unarchiving are refused. */
  lemma StatusRefusals(s: Shop, p: ProductId)
    requires p in s.products
    ensures Edited(s, Publish(p)).0 == StatusUnchanged <==> s.products[p] == Published
    ensures Edited(s, Publish(p)).0 == TransitionNotAllowed <==> s.products[p] == Archived
    ensures Edited(s, Unarchive(p)).0 == TransitionNotAllowed <==> s.products[p] != Archived
    ensures Edited(s, Unpublish(p)).0 == StatusUnchanged <==> s.products[p] == Draft
    ensures Edited(s, Archive(p)).0 == StatusUnchanged <==> s.products[p] == Archived
  {
  }

  /** A variant's edits need it to be one of the product's, and set its flag. */
  lemma VariantEdits(s: Shop, p: ProductId, v: VariantId, active: bool)
    ensures var mine := v in s.items && s.items[v].product == p;
            && (Edited(s, UpdateVariant(p, v, active)).0 == (if mine then EditSaved else VariantNotFound))
            && (Edited(s, DeactivateVariant(p, v)).0 ==
                if !mine then VariantNotFound else if s.items[v].active then EditSaved else AlreadyInactive)
            && Edited(s, UpdateVariant(p, v, active)).1 ==
               (if mine then s.(items := s.items[v := Item(p, active)]) else s)
            && Edited(s, DeactivateVariant(p, v)).1 == if mine then s.(items := s.items[v := Item(p, false)]) else s
  {
    if v in s.items && s.items[v] == Item(p, false) {
      assert s.items[v := Item(p, false)] == s.items;
    }
  }

  // What it does to live holds

  /** What the edit is about: a product or a variant that goes off sale. */
  predicate TakesOffSale(items: map<VariantId, Item>, e: Edit, v: VariantId) {
    v in items &&
    match e
    case Publish(_) => false
    case Unpublish(p) => items[v].product == p
    case Archive(p) => items[v].product == p
    case Unarchive(_) => false
    case UpdateVariant(p, w, active) => v == w && items[v].product == p && !active
    case DeactivateVariant(p, w) => v == w && items[v].product == p
  }

  /** Somebody holds a variant of the product, or the variant. */
  ghost predicate TakesHeld(s: Shop, e: Edit) {
    exists v <- s.items :: TakesOffSale(s.items, e, v) && Held(s.sessions, v, s.now) > 0
  }

  /** An admin's edit is one of the protocol's catalog edits. */
  lemma EditIsEvent(s: Shop, e: Edit)
    requires Sound(s)
    ensures var t := Edited(s, e).1; t == Step(s, EditCatalog(t.items, t.products))
  {
  }

  lemma BuyableAfterIff(s: Shop, e: Edit, v: VariantId)
    requires Buyable(s.items, s.products, v)
    ensures var t := Edited(s, e).1; Buyable(t.items, t.products, v) <==> !TakesOffSale(s.items, e, v)
  {
  }

  lemma EditIsCatalogOnly(s: Shop, e: Edit)
    requires Stocked(s)
    ensures var t := Edited(s, e).1; t == s.(items := t.items, products := t.products) && Stocked(t)
  {
  }

  /** Held items stay buyable exactly when the edit takes nothing off sale that is held; nothing in the
      service looks at that. */
  lemma EditKeepsBuyableIff(s: Shop, e: Edit)
    requires Healthy(s)
    ensures Stocked(Edited(s, e).1)
    ensures HeldIsBuyable(Edited(s, e).1) <==> !TakesHeld(s, e)
    ensures Spares(s, EditCatalog(Edited(s, e).1.items, Edited(s, e).1.products)) <==> !TakesHeld(s, e)
  {
    EditIsCatalogOnly(s, e);
    SparesIff(s, e, Edited(s, e).1);
  }

  lemma SparesIff(s: Shop, e: Edit, t: Shop)
    requires HeldIsBuyable(s) && t == Edited(s, e).1 && t.sessions == s.sessions && t.now == s.now
    ensures HeldIsBuyable(t) <==> !TakesHeld(s, e)
  {
    forall v: VariantId | Held(s.sessions, v, s.now) > 0
      ensures Buyable(t.items, t.products, v) <==> !TakesOffSale(s.items, e, v)
    {
      BuyableAfterIff(s, e, v);
    }
  }

  /** And then the promise is broken: the holder's pay is refused for lack of the variant. */
  lemma TakenHoldCannotPay(s: Shop, e: Edit, i: SessionId, v: VariantId, gatewayOk: bool)
    requires Stocked(s) && i < |s.sessions| && v in s.sessions[i].rows && Buyable(s.items, s.products, v)
    requires s.sessions[i].status == Active && s.now < s.sessions[i].expires && TakesOffSale(s.items, e, v)
    ensures PaymentStarted(Edited(s, e).1, i, s.sessions[i].user, gatewayOk).0.BecameUnavailable?
  {
    EditIsCatalogOnly(s, e);
    BuyableAfterIff(s, e, v);
    UnbuyableCannotPay(Edited(s, e).1, i, v, gatewayOk);
  }

  lemma UnbuyableCannotPay(t: Shop, i: SessionId, v: VariantId, gatewayOk: bool)
    requires i < |t.sessions| && SessionOk(t.sessions[i]) && v in t.sessions[i].rows
    requires t.sessions[i].status == Active && t.now < t.sessions[i].expires && !Buyable(t.items, t.products, v)
    ensures PaymentStarted(t, i, t.sessions[i].user, gatewayOk).0.BecameUnavailable?
  {
    var sess := t.sessions[i];
    var vs := ReservedVariants(sess);
    assert v in ActiveRows(sess) && v in vs;
    NoFailuresIff(t, sess, vs);
  }

  /** One unit of one variant, held: archiving or unpublishing its product, or deactivating the variant, goes
      through and strands the hold. */
  lemma EditsCanStrand()
    ensures exists s: Shop ::
              Healthy(s) &&
              forall e | e in {Archive(0), Unpublish(0), DeactivateVariant(0, 0)} ::
                Edited(s, e).0 == EditSaved && !HeldIsBuyable(Edited(s, e).1)
  {
    var ended := Session(0, Cancelled, 900, map[]);
    var s := HeldUnit([ended, HOLDER], [], []);
    HolderHolds(ended);
    assert Healthy(s);
    forall e | e in {Archive(0), Unpublish(0), DeactivateVariant(0, 0)}
      ensures Edited(s, e).0 == EditSaved && !HeldIsBuyable(Edited(s, e).1)
    {
      assert TakesOffSale(s.items, e, 0);
      EditKeepsBuyableIff(s, e);
    }
  }
}
