/** The database behind the shared `db` handle: every table the modelled code reads or writes. */
module Store {
  import opened Schema
  import opened KgSchema
  import opened UnitSchema
  import opened SalesSchema

  class Database {
    // the kilogram catalogue and ledger
    var products: seq<Product>
    var inventory: map<ProductId, InventoryRecord>
    var movements: seq<StockMovement>
    var orderItems: seq<OrderItem>
    // the legacy unit catalogue and ledger
    var variants: map<VariantId, Variant>
    var unitInventory: map<VariantId, UnitRecord>
    var unitMovements: seq<UnitMovement>
    var unitOrderItems: seq<UnitOrderItem>
    // shared by both order writers and the checkout
    var customers: seq<Customer>
    var orders: seq<Order>
    // packaged stock and its sales
    var lots: seq<Lot>
    var packagedStock: seq<PackagedStock>
    var sales: seq<Sale>
    var saleItems: seq<SaleItem>

    /** An empty database. */
    constructor ()
      ensures products == [] && inventory == map[] && movements == [] && orderItems == []
      ensures variants == map[] && unitInventory == map[] && unitMovements == [] && unitOrderItems == []
      ensures customers == [] && orders == []
      ensures lots == [] && packagedStock == [] && sales == [] && saleItems == []
    {
      products, inventory, movements, orderItems := [], map[], [], [];
      variants, unitInventory, unitMovements, unitOrderItems := map[], map[], [], [];
      customers, orders := [], [];
      lots, packagedStock, sales, saleItems := [], [], [], [];
    }
  }
}
