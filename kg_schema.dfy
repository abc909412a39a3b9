/** The rows of the kilogram tables: products with a price per package size, one inventory
    record per product, the append-only stock-movement log and the order lines. */
module KgSchema {
  import opened Wrappers
  import opened Schema

  type ProductId = string

  /** A catalogue product. Sizes and prices are package sizes in kg; the price map is keyed
      by the size itself (the source keys it by the size's decimal string). */
  datatype Product = Product(
    id: ProductId, name: string, slug: string, status: ProductStatus, isFeatured: bool,
    availableSizes: Option<seq<real>>, pricesPerKg: Option<map<real, real>>)

  /** An inventory row; `availableKg` is stored, not derived. */
  datatype InventoryRecord = InventoryRecord(
    stockKg: real, reservedKg: real, availableKg: real,
    minStockKg: real, maxStockKg: real, costPerKg: Option<real>)

  /** One audit row of the stock-movement log. */
  datatype StockMovement = StockMovement(
    productId: ProductId, movementType: MovementType, quantityKg: real,
    previousStockKg: real, newStockKg: real, reason: string,
    referenceId: Option<string>, referenceType: Option<string>)

  datatype OrderItem = OrderItem(
    orderId: string, productId: ProductId, productName: string, sizeKg: real, quantity: int,
    totalKg: real, unitPrice: real, totalPrice: real)
}
