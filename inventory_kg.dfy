/** The kilogram stock ledger: an inventory record per product plus the append-only
    stock-movement log. `UpdateStock`, `ReserveStock` and `Restock` are the pure meaning of
    one call; the methods at the end perform the same call on a `Database`. */
module InventoryKg {
  import opened Wrappers
  import opened Schema
  import opened KgSchema
  import SeqUtil
  import Tables
  import opened Store

  datatype StockError =
    | InventoryNotFound
    | InsufficientStock(currentKg: real, requestedKg: real)
    | InsufficientToReserve(availableKg: real)

  /** The two tables the stock operations read and write. */
  datatype Ledger = Ledger(inventory: map<ProductId, InventoryRecord>, movements: seq<StockMovement>)

  /** What updateStockKg returns on success. */
  datatype StockChange = StockChange(
    productId: ProductId, previousStockKg: real, newStockKg: real,
    quantityKgChange: real, movementType: MovementType, reason: string)

  /** What reserveStockKg returns on success. */
  datatype Reservation = Reservation(productId: ProductId, reservedKg: real, availableKg: real)

  function Abs(x: real): real { if x < 0.0 then -x else x }

  /** The stored `availableKg` agrees with stock minus reserved. */
  predicate Balanced(r: InventoryRecord) { r.availableKg == r.stockKg - r.reservedKg }

  predicate RecordValid(r: InventoryRecord) { Balanced(r) && r.stockKg >= 0.0 }

  /** The snapshot rule of one movement. */
  predicate SnapshotHolds(m: StockMovement) { m.newStockKg == m.previousStockKg + m.quantityKg }

  predicate LedgerValid(l: Ledger) {
    && (forall id :: id in l.inventory ==> RecordValid(l.inventory[id]))
    && (forall i :: 0 <= i < |l.movements| ==> SnapshotHolds(l.movements[i]))
  }

  /** updateStockKg: apply a signed kg delta to one product's stock and log it. */
  function UpdateStock(l: Ledger, productId: ProductId, delta: real, t: MovementType, reason: string,
                       referenceId: Option<string>, referenceType: Option<string>)
    : (r: Result<(Ledger, StockChange), StockError>)
    ensures productId !in l.inventory ==> r == Failure(InventoryNotFound)
    ensures productId in l.inventory && l.inventory[productId].stockKg + delta < 0.0 ==>
      r == Failure(InsufficientStock(l.inventory[productId].stockKg, Abs(delta)))
    ensures r.Success? <==> productId in l.inventory && l.inventory[productId].stockKg + delta >= 0.0
  {
    if productId !in l.inventory then Failure(InventoryNotFound)
    else
      var cur := l.inventory[productId];
      var newStockKg := cur.stockKg + delta;
      if newStockKg < 0.0 then Failure(InsufficientStock(cur.stockKg, Abs(delta)))
      else
        var rec := cur.(stockKg := newStockKg, availableKg := newStockKg - cur.reservedKg);
        var m := StockMovement(productId, t, delta, cur.stockKg, newStockKg, reason,
                               OrNull(referenceId), OrNull(referenceType));
        Success((Ledger(l.inventory[productId := rec], l.movements + [m]),
                 StockChange(productId, cur.stockKg, newStockKg, delta, t, reason)))
  }

  /** On success the product's stock moves by `delta`, its available kg follows, nothing else
      in the record or in the other records changes, and exactly one movement is appended,
      carrying the before and after stock and the call's tags. */
  lemma UpdateStockEffect(l: Ledger, productId: ProductId, delta: real, t: MovementType, reason: string,
                          referenceId: Option<string>, referenceType: Option<string>)
    requires UpdateStock(l, productId, delta, t, reason, referenceId, referenceType).Success?
    ensures var r := UpdateStock(l, productId, delta, t, reason, referenceId, referenceType);
      var cur, l', rec := l.inventory[productId], r.value.0, r.value.0.inventory[productId];
      && l'.inventory.Keys == l.inventory.Keys
      && rec.stockKg == cur.stockKg + delta >= 0.0
      && rec.availableKg == rec.stockKg - cur.reservedKg
      && rec.reservedKg == cur.reservedKg && rec.minStockKg == cur.minStockKg
      && rec.maxStockKg == cur.maxStockKg && rec.costPerKg == cur.costPerKg
      && (forall id :: id in l.inventory && id != productId ==> l'.inventory[id] == l.inventory[id])
      && |l'.movements| == |l.movements| + 1
      && l'.movements[..|l.movements|] == l.movements
      && l'.movements[|l.movements|] == StockMovement(productId, t, delta, cur.stockKg, rec.stockKg, reason,
                                                     OrNull(referenceId), OrNull(referenceType))
      && SnapshotHolds(l'.movements[|l.movements|])
      && r.value.1 == StockChange(productId, cur.stockKg, rec.stockKg, delta, t, reason)
  {
  }

  /** reserveStockKg: set aside kg of one product's stock without moving it. */
  function ReserveStock(l: Ledger, productId: ProductId, q: real): (r: Result<(Ledger, Reservation), StockError>)
    ensures productId !in l.inventory ==> r == Failure(InventoryNotFound)
    ensures productId in l.inventory ==>
      var cur := l.inventory[productId];
      (cur.reservedKg + q > cur.stockKg <==> r == Failure(InsufficientToReserve(cur.stockKg - cur.reservedKg)))
    ensures r.Success? ==> productId in l.inventory && r.value.0.inventory.Keys == l.inventory.Keys
    ensures r.Success? ==>
      var cur, l', rec := l.inventory[productId], r.value.0, r.value.0.inventory[productId];
      && l'.movements == l.movements
      && rec.stockKg == cur.stockKg
      && rec.reservedKg == cur.reservedKg + q <= rec.stockKg
      && rec.availableKg == rec.stockKg - rec.reservedKg
      && rec.minStockKg == cur.minStockKg && rec.maxStockKg == cur.maxStockKg && rec.costPerKg == cur.costPerKg
      && (forall id :: id in l.inventory && id != productId ==> l'.inventory[id] == l.inventory[id])
      && r.value.1 == Reservation(productId, rec.reservedKg, rec.availableKg)
  {
    if productId !in l.inventory then Failure(InventoryNotFound)
    else
      var cur := l.inventory[productId];
      var newReservedKg := cur.reservedKg + q;
      if newReservedKg > cur.stockKg then Failure(InsufficientToReserve(cur.stockKg - cur.reservedKg))
      else
        var rec := cur.(reservedKg := newReservedKg, availableKg := cur.stockKg - newReservedKg);
        Success((Ledger(l.inventory[productId := rec], l.movements),
                 Reservation(productId, newReservedKg, cur.stockKg - newReservedKg)))
  }

  /** restockProduct: an incoming movement tagged `restock`; the reason defaults to "Restock". */
  function Restock(l: Ledger, productId: ProductId, q: real, reason: Option<string>)
    : (r: Result<(Ledger, StockChange), StockError>)
    ensures productId in l.inventory && l.inventory[productId].stockKg >= 0.0 && q >= 0.0 ==> r.Success?
    ensures r.Success? ==> productId in l.inventory && productId in r.value.0.inventory
    ensures r.Success? ==> |r.value.0.movements| == |l.movements| + 1
    ensures r.Success? ==>
      var m := r.value.0.movements[|l.movements|];
      && r.value.0.inventory[productId].stockKg == l.inventory[productId].stockKg + q
      && m.movementType == In && m.quantityKg == q
      && m.reason == reason.GetOr("Restock")
      && m.referenceId == None && m.referenceType == Some("restock")
  {
    UpdateStock(l, productId, q, In, reason.GetOr("Restock"), None, Some("restock"))
  }

  /** Both ledger invariants survive every successful stock update and reservation. */
  lemma UpdatePreservesValidity(l: Ledger, productId: ProductId, delta: real, t: MovementType, reason: string,
                                referenceId: Option<string>, referenceType: Option<string>)
    requires LedgerValid(l)
    requires UpdateStock(l, productId, delta, t, reason, referenceId, referenceType).Success?
    ensures LedgerValid(UpdateStock(l, productId, delta, t, reason, referenceId, referenceType).value.0)
  {
    var l' := UpdateStock(l, productId, delta, t, reason, referenceId, referenceType).value.0;
    forall i | 0 <= i < |l'.movements| ensures SnapshotHolds(l'.movements[i]) {
      if i < |l.movements| {
        assert l'.movements[i] == l'.movements[..|l.movements|][i];
      }
    }
  }

  lemma ReservePreservesValidity(l: Ledger, productId: ProductId, q: real)
    requires LedgerValid(l)
    requires ReserveStock(l, productId, q).Success?
    ensures LedgerValid(ReserveStock(l, productId, q).value.0)
  {
  }

  /** updateStockKg checks only that stock stays non-negative, not that it stays above what is
      reserved: an outgoing delta can leave reserved above stock and available negative. */
  lemma UpdateCanOverdrawReservation()
    ensures var rec := InventoryRecord(10.0, 8.0, 2.0, 5.0, 100.0, None);
            var l := Ledger(map["p" := rec], []);
            var r := UpdateStock(l, "p", -5.0, Out, "Venta", None, None);
            && LedgerValid(l) && r.Success?
            && r.value.0.inventory["p"].reservedKg > r.value.0.inventory["p"].stockKg
            && r.value.0.inventory["p"].availableKg < 0.0
  {
  }

  /** Nothing keeps a reservation non-negative: only `reserved + q > stock` is refused, so a
      negative `q` on a valid record is accepted and can leave reserved below zero. */
  lemma ReserveCanGoNegative(l: Ledger, productId: ProductId, q: real)
    requires productId in l.inventory && RecordValid(l.inventory[productId])
    requires l.inventory[productId].reservedKg + q < 0.0
    ensures var r := ReserveStock(l, productId, q);
      r.Success? && r.value.0.inventory[productId].reservedKg < 0.0
  {
  }

  // ---------------------------------------------------------------------------------------
  // The ledger as a fold over its movements

  /** Net kg the log has moved for product `p`. */
  function MovedKg(ms: seq<StockMovement>, p: ProductId): real
    decreases |ms|
  {
    if ms == [] then 0.0
    else MovedKg(ms[..|ms| - 1], p) + (if ms[|ms| - 1].productId == p then ms[|ms| - 1].quantityKg else 0.0)
  }

  /** Every product's stock is what its movements add up to, and every movement belongs to a
      product with a record: the log alone reconstructs the stock column. */
  predicate Replays(l: Ledger) {
    && (forall p :: p in l.inventory ==> l.inventory[p].stockKg == MovedKg(l.movements, p))
    && (forall i :: 0 <= i < |l.movements| ==> l.movements[i].productId in l.inventory)
  }

  lemma MovedKgAppend(ms: seq<StockMovement>, m: StockMovement, p: ProductId)
    ensures MovedKg(ms + [m], p) == MovedKg(ms, p) + (if m.productId == p then m.quantityKg else 0.0)
  {
    assert (ms + [m])[..|ms|] == ms;
  }

  lemma {:induction false} MovedKgNone(ms: seq<StockMovement>, p: ProductId)
    requires forall i :: 0 <= i < |ms| ==> ms[i].productId != p
    ensures MovedKg(ms, p) == 0.0
    decreases |ms|
  {
    if ms != [] {
      MovedKgNone(ms[..|ms| - 1], p);
    }
  }

  /** A successful update keeps the stock column equal to the fold of the log. */
  lemma UpdatePreservesReplay(l: Ledger, productId: ProductId, delta: real, t: MovementType, reason: string,
                              referenceId: Option<string>, referenceType: Option<string>)
    requires Replays(l)
    requires UpdateStock(l, productId, delta, t, reason, referenceId, referenceType).Success?
    ensures Replays(UpdateStock(l, productId, delta, t, reason, referenceId, referenceType).value.0)
  {
    var l' := UpdateStock(l, productId, delta, t, reason, referenceId, referenceType).value.0;
    var m := l'.movements[|l.movements|];
    assert l'.movements == l.movements + [m];
    forall p | p in l'.inventory ensures l'.inventory[p].stockKg == MovedKg(l'.movements, p) {
      MovedKgAppend(l.movements, m, p);
    }
    forall i | 0 <= i < |l'.movements| ensures l'.movements[i].productId in l'.inventory {
      if i < |l.movements| {
        assert l'.movements[i] == l.movements[i];
      }
    }
  }

  /** A new record with zero stock for a product the log has never mentioned keeps the fold. */
  lemma NewRecordPreservesReplay(l: Ledger, productId: ProductId, rec: InventoryRecord)
    requires Replays(l)
    requires productId !in l.inventory && rec.stockKg == 0.0
    ensures Replays(Ledger(l.inventory[productId := rec], l.movements))
  {
    MovedKgNone(l.movements, productId);
  }

  // ---------------------------------------------------------------------------------------
  // Read-only queries: low stock, out of stock, stats

  type InventoryRow = Tables.Row<InventoryRecord>

  function StockOf(x: InventoryRow): real { x.record.stockKg }

  predicate IsLowStock(r: InventoryRecord) { r.stockKg <= r.minStockKg }

  predicate LowRow(x: InventoryRow) { IsLowStock(x.record) }

  predicate OutRow(x: InventoryRow) { x.record.stockKg == 0.0 }

  predicate InStockRow(x: InventoryRow) { x.record.stockKg > 0.0 }

  /** Stock times cost per kg, a missing cost counting as 0. */
  function RowValue(x: InventoryRow): real { x.record.stockKg * x.record.costPerKg.GetOr(0.0) }

  /** getLowStockItems: the rows with stock at or below the minimum, by ascending stock. */
  function LowStockItems(rows: seq<InventoryRow>): (r: seq<InventoryRow>)
    ensures SeqUtil.SortedBy(r, StockOf)
    ensures forall x :: multiset(r)[x] == if IsLowStock(x.record) then multiset(rows)[x] else 0
  {
    SeqUtil.SortBy(SeqUtil.Filter(rows, LowRow), StockOf)
  }

  /** getOutOfStockItems: the rows whose stock is exactly zero. */
  function OutOfStockItems(rows: seq<InventoryRow>): (r: seq<InventoryRow>)
    ensures forall x :: multiset(r)[x] == if x.record.stockKg == 0.0 then multiset(rows)[x] else 0
  {
    SeqUtil.Filter(rows, OutRow)
  }

  datatype InventoryStats = InventoryStats(
    totalWithStock: nat, totalOutOfStock: nat, totalLowStock: nat, totalValue: real, totalStockKg: real)

  lemma {:induction false} CountPartition(s: seq<InventoryRow>)
    requires forall i :: 0 <= i < |s| ==> s[i].record.stockKg >= 0.0
    ensures SeqUtil.Count(s, InStockRow) + SeqUtil.Count(s, OutRow) == |s|
  {
    if s != [] {
      CountPartition(s[1..]);
    }
  }

  /** getInventoryStats over an enumeration of the table. */
  function Stats(rows: seq<InventoryRow>): (s: InventoryStats)
    ensures s.totalWithStock == |SeqUtil.Filter(rows, InStockRow)|
    ensures s.totalOutOfStock == |OutOfStockItems(rows)|
    ensures s.totalLowStock == |LowStockItems(rows)|
    ensures s.totalStockKg == SeqUtil.SumOf(rows, StockOf)
    ensures s.totalValue == SeqUtil.SumOf(rows, RowValue)
  {
    InventoryStats(SeqUtil.Count(rows, InStockRow), SeqUtil.Count(rows, OutRow), SeqUtil.Count(rows, LowRow),
                   SeqUtil.SumOf(rows, RowValue), SeqUtil.SumOf(rows, StockOf))
  }

  lemma ProductNonNegative(a: real, b: real)
    requires a >= 0.0 && b >= 0.0
    ensures a * b >= 0.0
  {
  }

  /** Over non-negative stock every row is either in stock or out of it, and the kg total is
      non-negative. */
  lemma StatsOfValidRows(rows: seq<InventoryRow>)
    requires forall i :: 0 <= i < |rows| ==> rows[i].record.stockKg >= 0.0
    ensures Stats(rows).totalWithStock + Stats(rows).totalOutOfStock == |rows|
    ensures Stats(rows).totalStockKg >= 0.0
  {
    CountPartition(rows);
    Tables.SumNonNegative(rows, StockOf);
  }

  /** With non-negative stock and costs the inventory value is non-negative. */
  lemma StatsValueNonNegative(rows: seq<InventoryRow>)
    requires forall i :: 0 <= i < |rows| ==> rows[i].record.stockKg >= 0.0 && rows[i].record.costPerKg.GetOr(0.0) >= 0.0
    ensures Stats(rows).totalValue >= 0.0
  {
    forall i | 0 <= i < |rows| ensures RowValue(rows[i]) >= 0.0 {
      ProductNonNegative(rows[i].record.stockKg, rows[i].record.costPerKg.GetOr(0.0));
    }
    Tables.SumNonNegative(rows, RowValue);
  }

  /** The statistics depend on the table only, not on the order its rows are read in. */
  lemma StatsIgnoreOrder(a: seq<InventoryRow>, b: seq<InventoryRow>, inv: map<ProductId, InventoryRecord>)
    requires Tables.Enumerates(a, inv) && Tables.Enumerates(b, inv)
    ensures Stats(a) == Stats(b)
  {
    Tables.EnumerationsPermute(a, b, inv);
    Tables.CountPermutation(a, b, InStockRow);
    Tables.CountPermutation(a, b, OutRow);
    Tables.CountPermutation(a, b, LowRow);
    SeqUtil.SumOfPermutation(a, b, RowValue);
    SeqUtil.SumOfPermutation(a, b, StockOf);
  }

  // ---------------------------------------------------------------------------------------
  // The operations on the database

  method UpdateStockKg(db: Database, productId: ProductId, delta: real, t: MovementType, reason: string,
                       referenceId: Option<string>, referenceType: Option<string>)
    returns (r: Result<StockChange, StockError>)
    modifies db`inventory, db`movements
    ensures var expected := UpdateStock(Ledger(old(db.inventory), old(db.movements)), productId, delta, t,
                                        reason, referenceId, referenceType);
      if expected.Failure? then
        r == Failure(expected.error) && db.inventory == old(db.inventory) && db.movements == old(db.movements)
      else
        r == Success(expected.value.1) && Ledger(db.inventory, db.movements) == expected.value.0
  {
    if productId !in db.inventory {
      return Failure(InventoryNotFound);
    }
    var current := db.inventory[productId];
    var previousStockKg := current.stockKg;
    var newStockKg := previousStockKg + delta;
    if newStockKg < 0.0 {
      return Failure(InsufficientStock(previousStockKg, Abs(delta)));
    }
    db.inventory := db.inventory[productId := current.(stockKg := newStockKg,
                                                        availableKg := newStockKg - current.reservedKg)];
    db.movements := db.movements + [StockMovement(productId, t, delta, previousStockKg, newStockKg, reason,
                                                  OrNull(referenceId), OrNull(referenceType))];
    r := Success(StockChange(productId, previousStockKg, newStockKg, delta, t, reason));
  }

  method ReserveStockKg(db: Database, productId: ProductId, q: real) returns (r: Result<Reservation, StockError>)
    modifies db`inventory
    ensures var expected := ReserveStock(Ledger(old(db.inventory), db.movements), productId, q);
      if expected.Failure? then r == Failure(expected.error) && db.inventory == old(db.inventory)
      else r == Success(expected.value.1) && db.inventory == expected.value.0.inventory
  {
    if productId !in db.inventory {
      return Failure(InventoryNotFound);
    }
    var current := db.inventory[productId];
    var newReservedKg := current.reservedKg + q;
    if newReservedKg > current.stockKg {
      return Failure(InsufficientToReserve(current.stockKg - current.reservedKg));
    }
    db.inventory := db.inventory[productId := current.(reservedKg := newReservedKg,
                                                        availableKg := current.stockKg - newReservedKg)];
    r := Success(Reservation(productId, newReservedKg, current.stockKg - newReservedKg));
  }

  method RestockProduct(db: Database, productId: ProductId, q: real, reason: Option<string>)
    returns (r: Result<StockChange, StockError>)
    modifies db`inventory, db`movements
    ensures var expected := Restock(Ledger(old(db.inventory), old(db.movements)), productId, q, reason);
      if expected.Failure? then
        r == Failure(expected.error) && db.inventory == old(db.inventory) && db.movements == old(db.movements)
      else
        r == Success(expected.value.1) && Ledger(db.inventory, db.movements) == expected.value.0
  {
    r := UpdateStockKg(db, productId, q, In, reason.GetOr("Restock"), None, Some("restock"));
  }

  method GetLowStockItems(db: Database) returns (items: seq<InventoryRow>)
    ensures SeqUtil.SortedBy(items, StockOf)
    ensures forall x :: multiset(items)[x] ==
                        if x.id in db.inventory && db.inventory[x.id] == x.record && IsLowStock(x.record)
                        then 1 else 0
  {
    var rows := Tables.ListRows(db.inventory);
    Tables.EnumerationMultiset(rows, db.inventory);
    items := LowStockItems(rows);
  }

  method GetOutOfStockItems(db: Database) returns (items: seq<InventoryRow>)
    ensures forall x :: multiset(items)[x] ==
                        if x.id in db.inventory && db.inventory[x.id] == x.record && x.record.stockKg == 0.0
                        then 1 else 0
  {
    var rows := Tables.ListRows(db.inventory);
    Tables.EnumerationMultiset(rows, db.inventory);
    items := OutOfStockItems(rows);
  }

  method GetInventoryStats(db: Database) returns (s: InventoryStats)
    ensures forall rows :: Tables.Enumerates(rows, db.inventory) ==> s == Stats(rows)
  {
    var rows := Tables.ListRows(db.inventory);
    s := Stats(rows);
    forall other | Tables.Enumerates(other, db.inventory) ensures s == Stats(other) {
      StatsIgnoreOrder(rows, other, db.inventory);
    }
  }
}
