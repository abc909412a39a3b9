/** The rows of the legacy unit tables: product variants (one per package size), one inventory
    record per variant counted in whole units, the unit movement log and the unit order lines. */
module UnitSchema {
  import opened Wrappers
  import opened Schema

  type VariantId = string

  datatype Variant = Variant(id: VariantId, productId: string, name: string, weight: real, price: real, cost: Option<real>)

  /** `minStockLevel` and `maxStockLevel` are nullable columns. */
  datatype UnitRecord = UnitRecord(
    stockQuantity: int, reservedQuantity: int, availableQuantity: int,
    minStockLevel: Option<int>, maxStockLevel: Option<int>)

  datatype UnitMovement = UnitMovement(
    variantId: VariantId, movementType: MovementType, quantity: int,
    previousStock: int, newStock: int, reason: string,
    referenceId: Option<string>, referenceType: Option<string>)

  datatype UnitOrderItem = UnitOrderItem(
    orderId: string, variantId: VariantId, productName: string, variantName: string,
    quantity: int, unitPrice: real, totalPrice: real)
}
