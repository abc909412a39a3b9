/** The rows of the packaged-stock tables: bulk lots by remaining weight, packaged units per
    (variety, size) drawn from a lot, and the sales with their lines. */
module SalesSchema {
  import opened Schema

  datatype Lot = Lot(id: int, remainingWeight: real)

  datatype PackagedStock = PackagedStock(id: int, varietyId: int, size: int, units: int, lotId: int)

  /** A sale; `fecha` is the sale's timestamp, held to the day. */
  datatype Sale = Sale(id: int, fecha: Date, total: real)

  /** The primary key of a sale line is (saleId, varietyId, size). */
  datatype SaleItem = SaleItem(saleId: int, varietyId: int, size: int, units: int, precioUnitario: real)
}
