/** `POST /api/products`: create a catalogue product after checking its name, slug and sizes
    and that no product already has the slug, then give it an empty inventory record. */
module ProductsRoute {
  import opened Wrappers
  import opened Schema
  import opened KgSchema
  import opened Store
  import InventoryKg

  /** The fields of the body the route checks or defaults; the rest are stored as sent. */
  datatype ProductRequest = ProductRequest(
    name: Option<string>, slug: Option<string>, status: Option<ProductStatus>, isFeatured: Option<bool>,
    availableSizes: Option<seq<real>>, pricesPerKg: Option<map<real, real>>)

  datatype ProductResponse =
    | Saved(id: ProductId, name: string, slug: string)
    | BadRequest(message: string)

  const MissingNameOrSlug := "Nombre y slug son obligatorios"
  const MissingSizes := "Debe seleccionar al menos un tamaño"
  const SlugTaken := "Ya existe un producto con este slug"

  predicate SlugUsed(products: seq<Product>, slug: string) {
    exists i :: 0 <= i < |products| && products[i].slug == slug
  }

  /** No two products share a slug. */
  predicate SlugsUnique(products: seq<Product>) {
    forall i, j :: 0 <= i < j < |products| ==> products[i].slug != products[j].slug
  }

  /** The 400 message, checks in order: name and slug, sizes, slug already used. */
  function Validate(products: seq<Product>, body: ProductRequest): (err: Option<string>)
    ensures err.None? <==>
      && Given(body.name) && Given(body.slug)
      && body.availableSizes.Some? && |body.availableSizes.value| > 0
      && !SlugUsed(products, body.slug.value)
    ensures !Given(body.name) || !Given(body.slug) ==> err == Some(MissingNameOrSlug)
    ensures Given(body.name) && Given(body.slug) && (body.availableSizes.None? || |body.availableSizes.value| == 0) ==>
      err == Some(MissingSizes)
  {
    if !Given(body.name) || !Given(body.slug) then Some(MissingNameOrSlug)
    else if body.availableSizes.None? || |body.availableSizes.value| == 0 then Some(MissingSizes)
    else if SlugUsed(products, body.slug.value) then Some(SlugTaken)
    else None
  }

  /** The product row: a draft unless a status is given, not featured unless asked. */
  function NewProduct(body: ProductRequest, id: ProductId): (p: Product)
    requires Given(body.name) && Given(body.slug) && body.availableSizes.Some?
    ensures p.id == id && p.name == body.name.value && p.slug == body.slug.value
    ensures p.status == (if body.status.Some? then body.status.value else Draft)
    ensures p.isFeatured == (body.isFeatured == Some(true))
    ensures p.availableSizes == body.availableSizes && p.pricesPerKg == body.pricesPerKg
  {
    Product(id, body.name.value, body.slug.value, body.status.GetOr(Draft), body.isFeatured.GetOr(false),
            body.availableSizes, body.pricesPerKg)
  }

  /** The initial inventory record: nothing in stock, minimum 5 kg, maximum 100 kg. */
  const InitialRecord := InventoryRecord(0.0, 0.0, 0.0, 5.0, 100.0, None)

  /** Creating a product keeps slugs unique. */
  lemma CreationKeepsSlugsUnique(products: seq<Product>, body: ProductRequest, id: ProductId)
    requires SlugsUnique(products)
    requires Validate(products, body).None?
    ensures SlugsUnique(products + [NewProduct(body, id)])
  {
    var ps := products + [NewProduct(body, id)];
    forall i, j | 0 <= i < j < |ps| ensures ps[i].slug != ps[j].slug {
      if j == |products| {
        assert ps[i] == products[i];
      } else {
        assert ps[i] == products[i] && ps[j] == products[j];
      }
    }
  }

  /** The initial record satisfies the ledger invariants, and adding it for a fresh product
      keeps the ledger valid and the log's fold equal to the stock column. */
  lemma InitialRecordKeepsLedger(l: InventoryKg.Ledger, id: ProductId)
    requires id !in l.inventory
    ensures InventoryKg.RecordValid(InitialRecord)
    ensures InventoryKg.LedgerValid(l) ==> InventoryKg.LedgerValid(InventoryKg.Ledger(l.inventory[id := InitialRecord], l.movements))
    ensures InventoryKg.Replays(l) ==> InventoryKg.Replays(InventoryKg.Ledger(l.inventory[id := InitialRecord], l.movements))
  {
    if InventoryKg.Replays(l) {
      InventoryKg.NewRecordPreservesReplay(l, id, InitialRecord);
    }
  }

  /** POST, answered with status 200 on success. `newId` is the id the database generates for
      the product, so no product and no inventory record has it yet. */
  method Post(db: Database, body: ProductRequest, newId: ProductId) returns (resp: ProductResponse)
    requires newId !in db.inventory
    requires forall i :: 0 <= i < |db.products| ==> db.products[i].id != newId
    modifies db`products, db`inventory
    ensures Validate(old(db.products), body).Some? ==>
      && resp == BadRequest(Validate(old(db.products), body).value)
      && db.products == old(db.products) && db.inventory == old(db.inventory)
    ensures Validate(old(db.products), body).None? ==>
      && resp == Saved(newId, body.name.value, body.slug.value)
      && db.products == old(db.products) + [NewProduct(body, newId)]
      && db.inventory == old(db.inventory)[newId := InitialRecord]
  {
    if !Given(body.name) || !Given(body.slug) {
      return BadRequest(MissingNameOrSlug);
    }
    if body.availableSizes.None? || |body.availableSizes.value| == 0 {
      return BadRequest(MissingSizes);
    }
    if SlugUsed(db.products, body.slug.value) {
      return BadRequest(SlugTaken);
    }
    db.products := db.products + [NewProduct(body, newId)];
    db.inventory := db.inventory[newId := InitialRecord];
    resp := Saved(newId, body.name.value, body.slug.value);
  }
}
