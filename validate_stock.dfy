/** `POST /api/checkout/validate-stock`: a read-only pre-check of a cart against the available
    kilograms. Every item is checked on its own against its product's available kg; the
    response is a success only when every item passes. */
module ValidateStock {
  import opened Wrappers
  import opened KgSchema
  import opened Store
  import SeqUtil
  import InventoryKg
  import OrdersKg

  datatype ItemCheck = ItemCheck(productId: ProductId, sizeKg: real, quantity: int)

  datatype CheckResult =
    | NotFound(productId: ProductId)
    | Checked(productId: ProductId, productName: string, sizeKg: real, quantity: int,
              totalKgNeeded: real, availableKg: real, isValid: bool)

  predicate Valid(r: CheckResult) { r.Checked? && r.isValid }

  datatype ValidationResponse =
    | BadRequest(message: string)
    | Validated(success: bool, results: seq<CheckResult>, message: string)

  function Needed(item: ItemCheck): real { item.sizeKg * item.quantity as real }

  /** The inventory row joined to its product: both must exist. */
  function Lookup(inv: map<ProductId, InventoryRecord>, products: seq<Product>, id: ProductId)
    : (r: Option<(InventoryRecord, Product)>)
    ensures r.Some? <==> id in inv && exists i :: 0 <= i < |products| && products[i].id == id
    ensures r.Some? ==> r.value.0 == inv[id] && r.value.1.id == id
  {
    if id !in inv then None
    else
      match SeqUtil.Find(products, (p: Product) => p.id == id)
      case None => None
      case Some(p) => Some((inv[id], p))
  }

  /** One item: not found without a record and product, else valid exactly when the kilograms
      it needs are at most the available kilograms; equality passes. */
  function CheckItem(inv: map<ProductId, InventoryRecord>, products: seq<Product>, item: ItemCheck): (r: CheckResult)
    ensures r.productId == item.productId
    ensures r.NotFound? <==> Lookup(inv, products, item.productId).None?
    ensures r.Checked? ==>
      && r.totalKgNeeded == item.sizeKg * item.quantity as real
      && r.availableKg == inv[item.productId].availableKg
      && (r.isValid <==> r.totalKgNeeded <= r.availableKg)
  {
    match Lookup(inv, products, item.productId)
    case None => NotFound(item.productId)
    case Some((rec, p)) =>
      var needed := Needed(item);
      Checked(item.productId, p.name, item.sizeKg, item.quantity, needed, rec.availableKg, !(needed > rec.availableKg))
  }

  const AllAvailable := "Stock disponible para todos los productos"
  const SomeMissing := "Algunos productos no tienen stock suficiente"

  /** POST; it reads the inventory and the products and changes nothing. */
  method Post(db: Database, items: Option<seq<ItemCheck>>) returns (resp: ValidationResponse)
    ensures items.None? || |items.value| == 0 <==> resp == BadRequest("No hay items para validar")
    ensures resp.Validated? ==>
      && |resp.results| == |items.value|
      && (forall k :: 0 <= k < |items.value| ==> resp.results[k] == CheckItem(db.inventory, db.products, items.value[k]))
      && (resp.success <==> forall k :: 0 <= k < |resp.results| ==> Valid(resp.results[k]))
      && resp.message == (if resp.success then AllAvailable else SomeMissing)
  {
    if items.None? || |items.value| == 0 {
      return BadRequest("No hay items para validar");
    }
    var results: seq<CheckResult> := [];
    for k := 0 to |items.value|
      invariant |results| == k
      invariant forall j :: 0 <= j < k ==> results[j] == CheckItem(db.inventory, db.products, items.value[j])
    {
      var item := items.value[k];
      if item.productId !in db.inventory {
        results := results + [NotFound(item.productId)];
        continue;
      }
      var product := SeqUtil.Find(db.products, (p: Product) => p.id == item.productId);
      if product.None? {
        results := results + [NotFound(item.productId)];
        continue;
      }
      var rec := db.inventory[item.productId];
      var totalKgNeeded := item.sizeKg * item.quantity as real;
      var availableKg := rec.availableKg;
      if totalKgNeeded > availableKg {
        results := results + [Checked(item.productId, product.value.name, item.sizeKg, item.quantity,
                                      totalKgNeeded, availableKg, false)];
      } else {
        results := results + [Checked(item.productId, product.value.name, item.sizeKg, item.quantity,
                                      totalKgNeeded, availableKg, true)];
      }
    }
    var allValid := forall k :: 0 <= k < |results| ==> Valid(results[k]);
    resp := Validated(allValid, results, if allValid then AllAvailable else SomeMissing);
  }

  /** Items are not summed per product: two lines of 1 kg each pass against 1 kg available,
      while createOrder refuses the same two lines. */
  lemma DuplicateLinesPass(products: seq<Product>, reason: string, orderId: string)
    requires |products| > 0 && products[0].id == "p"
    ensures var inv := map["p" := InventoryRecord(1.0, 0.0, 1.0, 5.0, 100.0, None)];
      var line := OrdersKg.LineInput("p", "Yerba", 1.0, 1, 1000.0);
      && Valid(CheckItem(inv, products, ItemCheck("p", 1.0, 1)))
      && OrdersKg.DecrementLines(InventoryKg.Ledger(inv, []), [line, line], reason, orderId).Failure?
  {
    var inv := map["p" := InventoryRecord(1.0, 0.0, 1.0, 5.0, 100.0, None)];
    var line := OrdersKg.LineInput("p", "Yerba", 1.0, 1, 1000.0);
    assert Lookup(inv, products, "p").Some?;
    var l := InventoryKg.Ledger(inv, []);
    assert [line, line][..1] == [line];
    assert [line][..0] == [];
    var two := [line, line];
    OrdersKg.DecrementOutcome(l, two, reason, orderId);
    assert two[..2] == two && two[..1] == [line];
    assert [line][..0] == [] && OrdersKg.LineKg(line) == 1.0;
    assert OrdersKg.KgFor([line], "p") == 1.0;
    assert OrdersKg.KgFor(two, "p") == OrdersKg.KgFor([line], "p") + 1.0;
    assert !OrdersKg.Feasible(inv, two);
  }
}
