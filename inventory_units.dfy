/** The legacy stock ledger, counted in whole units per product variant: the same signed update
    and reservation as the kilogram ledger, plus releasing a reservation, restocking one variant
    or a list of them, and the stats and alerts queries. */
module InventoryUnits {
  import opened Wrappers
  import opened Schema
  import opened UnitSchema
  import opened Store
  import SeqUtil
  import Tables

  datatype UnitError =
    | VariantNotFound
    | InsufficientStock(current: int, requested: int)
    | InsufficientToReserve(available: int)

  datatype UnitLedger = UnitLedger(inventory: map<VariantId, UnitRecord>, movements: seq<UnitMovement>)

  /** What updateStock returns on success. */
  datatype UnitChange = UnitChange(
    variantId: VariantId, previousStock: int, newStock: int, quantityChange: int,
    movementType: MovementType, reason: string)

  /** What reserveStock and releaseReservedStock return. */
  datatype UnitReservation = UnitReservation(variantId: VariantId, reservedQuantity: int, availableQuantity: int)

  function Abs(x: int): nat { if x < 0 then -x else x }

  predicate Balanced(r: UnitRecord) { r.availableQuantity == r.stockQuantity - r.reservedQuantity }

  predicate SnapshotHolds(m: UnitMovement) { m.newStock == m.previousStock + m.quantity }

  predicate LedgerValid(l: UnitLedger) {
    && (forall v :: v in l.inventory ==> Balanced(l.inventory[v]) && l.inventory[v].stockQuantity >= 0)
    && (forall i :: 0 <= i < |l.movements| ==> SnapshotHolds(l.movements[i]))
  }

  /** updateStock: apply a signed unit change to one variant's stock and log it. Unlike the
      kilogram ledger it stores the reference id and type exactly as given. */
  function UpdateStock(l: UnitLedger, variantId: VariantId, change: int, t: MovementType, reason: string,
                       referenceId: Option<string>, referenceType: Option<string>)
    : (r: Result<(UnitLedger, UnitChange), UnitError>)
    ensures variantId !in l.inventory ==> r == Failure(VariantNotFound)
    ensures variantId in l.inventory && l.inventory[variantId].stockQuantity + change < 0 ==>
      r == Failure(InsufficientStock(l.inventory[variantId].stockQuantity, Abs(change)))
    ensures r.Success? <==> variantId in l.inventory && l.inventory[variantId].stockQuantity + change >= 0
  {
    if variantId !in l.inventory then Failure(VariantNotFound)
    else
      var cur := l.inventory[variantId];
      var newStock := cur.stockQuantity + change;
      if newStock < 0 then Failure(InsufficientStock(cur.stockQuantity, Abs(change)))
      else
        var rec := cur.(stockQuantity := newStock, availableQuantity := newStock - cur.reservedQuantity);
        var m := UnitMovement(variantId, t, change, cur.stockQuantity, newStock, reason, referenceId, referenceType);
        Success((UnitLedger(l.inventory[variantId := rec], l.movements + [m]),
                 UnitChange(variantId, cur.stockQuantity, newStock, change, t, reason)))
  }

  /** On success the variant's stock moves by `change`, its available units follow, the other
      records stay, and exactly one movement is appended with the before and after stock. */
  lemma UpdateStockEffect(l: UnitLedger, variantId: VariantId, change: int, t: MovementType, reason: string,
                          referenceId: Option<string>, referenceType: Option<string>)
    requires UpdateStock(l, variantId, change, t, reason, referenceId, referenceType).Success?
    ensures var r := UpdateStock(l, variantId, change, t, reason, referenceId, referenceType);
      var cur, l', rec := l.inventory[variantId], r.value.0, r.value.0.inventory[variantId];
      && l'.inventory.Keys == l.inventory.Keys
      && rec == cur.(stockQuantity := cur.stockQuantity + change,
                     availableQuantity := cur.stockQuantity + change - cur.reservedQuantity)
      && (forall v :: v in l.inventory && v != variantId ==> l'.inventory[v] == l.inventory[v])
      && l'.movements == l.movements + [UnitMovement(variantId, t, change, cur.stockQuantity, rec.stockQuantity,
                                                     reason, referenceId, referenceType)]
      && r.value.1 == UnitChange(variantId, cur.stockQuantity, rec.stockQuantity, change, t, reason)
  {
  }

  /** A successful update keeps both ledger invariants. */
  lemma UpdatePreservesValidity(l: UnitLedger, variantId: VariantId, change: int, t: MovementType, reason: string,
                                referenceId: Option<string>, referenceType: Option<string>)
    requires LedgerValid(l)
    requires UpdateStock(l, variantId, change, t, reason, referenceId, referenceType).Success?
    ensures LedgerValid(UpdateStock(l, variantId, change, t, reason, referenceId, referenceType).value.0)
  {
    var l' := UpdateStock(l, variantId, change, t, reason, referenceId, referenceType).value.0;
    forall i | 0 <= i < |l'.movements| ensures SnapshotHolds(l'.movements[i]) {
      if i < |l.movements| {
        assert l'.movements[i] == l.movements[i];
      }
    }
  }

  /** reserveStock: set aside units of a variant; the check allows reserving up to all stock. */
  function ReserveStock(l: UnitLedger, variantId: VariantId, q: int): (r: Result<(UnitLedger, UnitReservation), UnitError>)
    ensures variantId !in l.inventory ==> r == Failure(VariantNotFound)
    ensures variantId in l.inventory ==>
      var cur := l.inventory[variantId];
      (cur.reservedQuantity + q > cur.stockQuantity <==>
       r == Failure(InsufficientToReserve(cur.stockQuantity - cur.reservedQuantity)))
    ensures r.Success? ==> variantId in l.inventory && variantId in r.value.0.inventory
    ensures r.Success? ==>
      var cur, rec := l.inventory[variantId], r.value.0.inventory[variantId];
      && r.value.0.movements == l.movements
      && r.value.0.inventory == l.inventory[variantId := rec]
      && rec.stockQuantity == cur.stockQuantity
      && rec.reservedQuantity == cur.reservedQuantity + q <= rec.stockQuantity
      && Balanced(rec)
      && rec.minStockLevel == cur.minStockLevel && rec.maxStockLevel == cur.maxStockLevel
      && r.value.1 == UnitReservation(variantId, rec.reservedQuantity, rec.availableQuantity)
  {
    if variantId !in l.inventory then Failure(VariantNotFound)
    else
      var cur := l.inventory[variantId];
      var newReserved := cur.reservedQuantity + q;
      if newReserved > cur.stockQuantity then Failure(InsufficientToReserve(cur.stockQuantity - cur.reservedQuantity))
      else
        var rec := cur.(reservedQuantity := newReserved, availableQuantity := cur.stockQuantity - newReserved);
        Success((UnitLedger(l.inventory[variantId := rec], l.movements),
                 UnitReservation(variantId, newReserved, cur.stockQuantity - newReserved)))
  }

  function Max(a: int, b: int): int { if a < b then b else a }

  /** releaseReservedStock: give back up to `q` reserved units; the reservation never goes
      below zero and an existing record never refuses. */
  function ReleaseReserved(l: UnitLedger, variantId: VariantId, q: int): (r: Result<(UnitLedger, UnitReservation), UnitError>)
    ensures r.Success? <==> variantId in l.inventory
    ensures r.Failure? ==> r.error == VariantNotFound
    ensures r.Success? ==> variantId in r.value.0.inventory
    ensures r.Success? ==>
      var cur, rec := l.inventory[variantId], r.value.0.inventory[variantId];
      && r.value.0.movements == l.movements
      && r.value.0.inventory == l.inventory[variantId := rec]
      && rec.stockQuantity == cur.stockQuantity
      && rec.reservedQuantity >= 0
      && (cur.reservedQuantity - q >= 0 ==> rec.reservedQuantity == cur.reservedQuantity - q)
      && (cur.reservedQuantity - q < 0 ==> rec.reservedQuantity == 0)
      && Balanced(rec)
      && rec.minStockLevel == cur.minStockLevel && rec.maxStockLevel == cur.maxStockLevel
      && r.value.1 == UnitReservation(variantId, rec.reservedQuantity, rec.availableQuantity)
  {
    if variantId !in l.inventory then Failure(VariantNotFound)
    else
      var cur := l.inventory[variantId];
      var newReserved := Max(0, cur.reservedQuantity - q);
      var rec := cur.(reservedQuantity := newReserved, availableQuantity := cur.stockQuantity - newReserved);
      Success((UnitLedger(l.inventory[variantId := rec], l.movements),
               UnitReservation(variantId, newReserved, cur.stockQuantity - newReserved)))
  }

  /** Releasing what was just reserved gives back the table as it was, for a balanced record
      with a non-negative reservation and a non-negative quantity. */
  lemma ReleaseUndoesReserve(l: UnitLedger, variantId: VariantId, q: int)
    requires variantId in l.inventory && Balanced(l.inventory[variantId])
    requires l.inventory[variantId].reservedQuantity >= 0 && q >= 0
    requires ReserveStock(l, variantId, q).Success?
    ensures ReleaseReserved(ReserveStock(l, variantId, q).value.0, variantId, q).value.0 == l
  {
    var l1 := ReserveStock(l, variantId, q).value.0;
    var l2 := ReleaseReserved(l1, variantId, q).value.0;
    assert l2.inventory[variantId] == l.inventory[variantId];
    assert l2.inventory == l.inventory;
  }

  /** restockVariant: an incoming movement tagged `restock`; the reason defaults to "Restock". */
  function Restock(l: UnitLedger, variantId: VariantId, q: int, reason: Option<string>)
    : (r: Result<(UnitLedger, UnitChange), UnitError>)
    ensures variantId in l.inventory && l.inventory[variantId].stockQuantity >= 0 && q >= 0 ==> r.Success?
    ensures r.Success? ==> variantId in l.inventory && variantId in r.value.0.inventory
    ensures r.Success? ==>
      && r.value.0.inventory[variantId].stockQuantity == l.inventory[variantId].stockQuantity + q
      && r.value.0.movements == l.movements + [UnitMovement(variantId, In, q, l.inventory[variantId].stockQuantity,
           l.inventory[variantId].stockQuantity + q, reason.GetOr("Restock"), None, Some("restock"))]
  {
    UpdateStock(l, variantId, q, In, reason.GetOr("Restock"), None, Some("restock"))
  }

  /** One entry of bulkRestock. */
  datatype RestockEntry = RestockEntry(variantId: VariantId, quantity: int)

  /** bulkRestock: the entries restocked one after the other, their results in entry order; the
      first failure fails the whole call. */
  function RestockAll(l: UnitLedger, entries: seq<RestockEntry>): Result<(UnitLedger, seq<UnitChange>), UnitError>
    decreases |entries|
  {
    if entries == [] then Success((l, []))
    else
      match RestockAll(l, entries[..|entries| - 1])
      case Failure(e) => Failure(e)
      case Success(acc) =>
        var e := entries[|entries| - 1];
        match UpdateStock(acc.0, e.variantId, e.quantity, In, "Restock masivo", None, Some("bulk_restock"))
        case Failure(err) => Failure(err)
        case Success(res) => Success((res.0, acc.1 + [res.1]))
  }

  /** Units the entries add to variant `v`. */
  function UnitsFor(entries: seq<RestockEntry>, v: VariantId): int
    decreases |entries|
  {
    if entries == [] then 0
    else UnitsFor(entries[..|entries| - 1], v) + (if entries[|entries| - 1].variantId == v then entries[|entries| - 1].quantity else 0)
  }

  /** With non-negative quantities for variants that all have a record of non-negative stock,
      bulkRestock succeeds, returns one result per entry in entry order, and adds to each
      variant the units its entries name. */
  lemma {:induction false} RestockAllSucceeds(l: UnitLedger, entries: seq<RestockEntry>)
    requires forall v :: v in l.inventory ==> l.inventory[v].stockQuantity >= 0
    requires forall k :: 0 <= k < |entries| ==> entries[k].variantId in l.inventory && entries[k].quantity >= 0
    ensures RestockAll(l, entries).Success?
    ensures var res := RestockAll(l, entries).value;
      && res.0.inventory.Keys == l.inventory.Keys
      && |res.1| == |entries|
      && (forall k :: 0 <= k < |entries| ==>
            res.1[k].variantId == entries[k].variantId && res.1[k].quantityChange == entries[k].quantity
            && res.1[k].newStock == res.1[k].previousStock + entries[k].quantity)
      && (forall v :: v in l.inventory ==>
            res.0.inventory[v].stockQuantity == l.inventory[v].stockQuantity + UnitsFor(entries, v))
    decreases |entries|
  {
    if entries != [] {
      var init, e := entries[..|entries| - 1], entries[|entries| - 1];
      assert forall k :: 0 <= k < |init| ==> init[k] == entries[k];
      RestockAllSucceeds(l, init);
      UnitsForNonNegative(init, e.variantId);
      var acc := RestockAll(l, init).value;
      var step := UpdateStock(acc.0, e.variantId, e.quantity, In, "Restock masivo", None, Some("bulk_restock"));
      assert step.Success?;
      var out := acc.1 + [step.value.1];
      assert RestockAll(l, entries) == Success((step.value.0, out));
      forall k | 0 <= k < |entries|
        ensures out[k].variantId == entries[k].variantId && out[k].quantityChange == entries[k].quantity
                && out[k].newStock == out[k].previousStock + entries[k].quantity
      {
        if k < |init| {
          assert out[k] == acc.1[k];
        }
      }
      forall v | v in l.inventory
        ensures step.value.0.inventory[v].stockQuantity == l.inventory[v].stockQuantity + UnitsFor(entries, v)
      {
      }
    }
  }

  lemma {:induction false} UnitsForNonNegative(entries: seq<RestockEntry>, v: VariantId)
    requires forall k :: 0 <= k < |entries| ==> entries[k].quantity >= 0
    ensures UnitsFor(entries, v) >= 0
    decreases |entries|
  {
    if entries != [] {
      UnitsForNonNegative(entries[..|entries| - 1], v);
    }
  }

  /** Once a prefix of the entries fails, the whole call fails with the same error. */
  lemma {:induction false} RestockPrefixFailure(l: UnitLedger, entries: seq<RestockEntry>, k: nat)
    requires k <= |entries|
    requires RestockAll(l, entries[..k]).Failure?
    ensures RestockAll(l, entries) == RestockAll(l, entries[..k])
    decreases |entries| - k
  {
    if k == |entries| {
      assert entries[..k] == entries;
    } else {
      assert entries[..|entries| - 1][..k] == entries[..k];
      RestockPrefixFailure(l, entries[..|entries| - 1], k);
    }
  }

  lemma RestockStep(start: UnitLedger, entries: seq<RestockEntry>, k: nat, before: UnitLedger, results: seq<UnitChange>,
                    res: Result<UnitChange, UnitError>, after: UnitLedger)
    requires k < |entries|
    requires RestockAll(start, entries[..k]) == Success((before, results))
    requires var e := UpdateStock(before, entries[k].variantId, entries[k].quantity, In, "Restock masivo", None, Some("bulk_restock"));
      if e.Failure? then res == Failure(e.error) else res == Success(e.value.1) && after == e.value.0
    ensures res.Failure? ==> RestockAll(start, entries) == Failure(res.error)
    ensures res.Success? ==> RestockAll(start, entries[..k + 1]) == Success((after, results + [res.value]))
  {
    assert entries[..k + 1][..k] == entries[..k];
    if res.Failure? {
      RestockPrefixFailure(start, entries, k + 1);
    }
  }

  // ---------------------------------------------------------------------------------------
  // Stats and alerts

  type UnitRow = Tables.Row<UnitRecord>

  /** `stock <= min`; against a null minimum the comparison is not true. */
  predicate LowRow(x: UnitRow) { x.record.minStockLevel.Some? && x.record.stockQuantity <= x.record.minStockLevel.value }

  predicate OutRow(x: UnitRow) { x.record.stockQuantity == 0 }

  predicate InStockRow(x: UnitRow) { x.record.stockQuantity > 0 }

  function StockOf(x: UnitRow): real { x.record.stockQuantity as real }

  /** getLowStockItems: ascending by stock. */
  function LowStockItems(rows: seq<UnitRow>): (r: seq<UnitRow>)
    ensures SeqUtil.SortedBy(r, StockOf)
    ensures forall x :: multiset(r)[x] == if LowRow(x) then multiset(rows)[x] else 0
  {
    SeqUtil.SortBy(SeqUtil.Filter(rows, LowRow), StockOf)
  }

  /** getOutOfStockItems. */
  function OutOfStockItems(rows: seq<UnitRow>): (r: seq<UnitRow>)
    ensures forall x :: multiset(r)[x] == if OutRow(x) then multiset(rows)[x] else 0
  {
    SeqUtil.Filter(rows, OutRow)
  }

  /** The variant's cost, 0 when it is null or the variant is missing (the left join). */
  function CostOf(variants: map<VariantId, Variant>, v: VariantId): real {
    if v in variants then variants[v].cost.GetOr(0.0) else 0.0
  }

  datatype UnitStats = UnitStats(totalWithStock: nat, totalOutOfStock: nat, totalLowStock: nat, totalValue: real)

  /** A row's stock valued at its variant's cost. */
  function RowValue(variants: map<VariantId, Variant>, x: UnitRow): real {
    x.record.stockQuantity as real * CostOf(variants, x.id)
  }

  /** getInventoryStats; it has no kg total. */
  function Stats(rows: seq<UnitRow>, variants: map<VariantId, Variant>): (s: UnitStats)
    ensures s.totalOutOfStock == |OutOfStockItems(rows)|
    ensures s.totalLowStock == |LowStockItems(rows)|
    ensures s.totalWithStock == |SeqUtil.Filter(rows, InStockRow)|
    ensures s.totalValue == SeqUtil.SumOf(rows, x => RowValue(variants, x))
  {
    UnitStats(SeqUtil.Count(rows, InStockRow), SeqUtil.Count(rows, OutRow), SeqUtil.Count(rows, LowRow),
              SeqUtil.SumOf(rows, x => RowValue(variants, x)))
  }

  lemma {:induction false} CountPartition(s: seq<UnitRow>)
    requires forall i :: 0 <= i < |s| ==> s[i].record.stockQuantity >= 0
    ensures SeqUtil.Count(s, InStockRow) + SeqUtil.Count(s, OutRow) == |s|
  {
    if s != [] {
      CountPartition(s[1..]);
    }
  }

  /** Over non-negative stock every variant is either in stock or out of it. */
  lemma StatsPartition(rows: seq<UnitRow>, variants: map<VariantId, Variant>)
    requires forall i :: 0 <= i < |rows| ==> rows[i].record.stockQuantity >= 0
    ensures Stats(rows, variants).totalWithStock + Stats(rows, variants).totalOutOfStock == |rows|
  {
    CountPartition(rows);
  }

  /** The statistics depend on the table only, not on the order its rows are read in. */
  lemma StatsIgnoreOrder(a: seq<UnitRow>, b: seq<UnitRow>, inv: map<VariantId, UnitRecord>, variants: map<VariantId, Variant>)
    requires Tables.Enumerates(a, inv) && Tables.Enumerates(b, inv)
    ensures Stats(a, variants) == Stats(b, variants)
  {
    Tables.EnumerationsPermute(a, b, inv);
    Tables.CountPermutation(a, b, InStockRow);
    Tables.CountPermutation(a, b, OutRow);
    Tables.CountPermutation(a, b, LowRow);
    SeqUtil.SumOfPermutation(a, b, x => RowValue(variants, x));
  }

  datatype Alerts = Alerts(lowStock: seq<UnitRow>, outOfStock: seq<UnitRow>, totalAlerts: nat)

  /** getInventoryAlerts: both lists and the sum of their lengths. */
  function InventoryAlerts(rows: seq<UnitRow>): (a: Alerts)
    ensures a.totalAlerts == |a.lowStock| + |a.outOfStock|
    ensures a.lowStock == LowStockItems(rows) && a.outOfStock == OutOfStockItems(rows)
  {
    var low := LowStockItems(rows);
    var out := OutOfStockItems(rows);
    Alerts(low, out, |low| + |out|)
  }

  /** As in the kilogram inventory, only `reserved + q > stock` is refused, so a negative `q`
      on a valid record is accepted and can leave reserved below zero. */
  lemma ReserveCanGoNegative(l: UnitLedger, variantId: VariantId, q: int)
    requires LedgerValid(l) && variantId in l.inventory
    requires l.inventory[variantId].reservedQuantity + q < 0
    ensures var r := ReserveStock(l, variantId, q);
      r.Success? && r.value.0.inventory[variantId].reservedQuantity < 0
  {
  }

  /** The alert total is not a count of distinct variants: an empty variant whose minimum is at
      least zero is in both lists and counts twice. */
  lemma EmptyVariantCountsTwice(rows: seq<UnitRow>, x: UnitRow)
    requires x in rows && x.record.stockQuantity == 0
    requires x.record.minStockLevel.Some? && x.record.minStockLevel.value >= 0
    ensures x in InventoryAlerts(rows).lowStock && x in InventoryAlerts(rows).outOfStock
  {
    var a := InventoryAlerts(rows);
    assert multiset(rows)[x] > 0;
    assert multiset(a.lowStock)[x] > 0;
    assert multiset(a.outOfStock)[x] > 0;
  }

  // ---------------------------------------------------------------------------------------
  // The operations on the database

  method UpdateUnitStock(db: Database, variantId: VariantId, change: int, t: MovementType, reason: string,
                         referenceId: Option<string>, referenceType: Option<string>)
    returns (r: Result<UnitChange, UnitError>)
    modifies db`unitInventory, db`unitMovements
    ensures var expected := UpdateStock(UnitLedger(old(db.unitInventory), old(db.unitMovements)), variantId, change, t,
                                        reason, referenceId, referenceType);
      if expected.Failure? then
        r == Failure(expected.error) && db.unitInventory == old(db.unitInventory) && db.unitMovements == old(db.unitMovements)
      else
        r == Success(expected.value.1) && UnitLedger(db.unitInventory, db.unitMovements) == expected.value.0
  {
    if variantId !in db.unitInventory {
      return Failure(VariantNotFound);
    }
    var current := db.unitInventory[variantId];
    var previousStock := current.stockQuantity;
    var newStock := previousStock + change;
    if newStock < 0 {
      return Failure(InsufficientStock(previousStock, Abs(change)));
    }
    db.unitInventory := db.unitInventory[variantId := current.(stockQuantity := newStock,
                                                                availableQuantity := newStock - current.reservedQuantity)];
    db.unitMovements := db.unitMovements + [UnitMovement(variantId, t, change, previousStock, newStock, reason,
                                                         referenceId, referenceType)];
    r := Success(UnitChange(variantId, previousStock, newStock, change, t, reason));
  }

  method ReserveUnitStock(db: Database, variantId: VariantId, q: int) returns (r: Result<UnitReservation, UnitError>)
    modifies db`unitInventory
    ensures var expected := ReserveStock(UnitLedger(old(db.unitInventory), db.unitMovements), variantId, q);
      if expected.Failure? then r == Failure(expected.error) && db.unitInventory == old(db.unitInventory)
      else r == Success(expected.value.1) && db.unitInventory == expected.value.0.inventory
  {
    if variantId !in db.unitInventory {
      return Failure(VariantNotFound);
    }
    var current := db.unitInventory[variantId];
    var newReserved := current.reservedQuantity + q;
    if newReserved > current.stockQuantity {
      return Failure(InsufficientToReserve(current.stockQuantity - current.reservedQuantity));
    }
    db.unitInventory := db.unitInventory[variantId := current.(reservedQuantity := newReserved,
                                                                availableQuantity := current.stockQuantity - newReserved)];
    r := Success(UnitReservation(variantId, newReserved, current.stockQuantity - newReserved));
  }

  method ReleaseReservedStock(db: Database, variantId: VariantId, q: int) returns (r: Result<UnitReservation, UnitError>)
    modifies db`unitInventory
    ensures var expected := ReleaseReserved(UnitLedger(old(db.unitInventory), db.unitMovements), variantId, q);
      if expected.Failure? then r == Failure(expected.error) && db.unitInventory == old(db.unitInventory)
      else r == Success(expected.value.1) && db.unitInventory == expected.value.0.inventory
  {
    if variantId !in db.unitInventory {
      return Failure(VariantNotFound);
    }
    var current := db.unitInventory[variantId];
    var newReserved := Max(0, current.reservedQuantity - q);
    db.unitInventory := db.unitInventory[variantId := current.(reservedQuantity := newReserved,
                                                                availableQuantity := current.stockQuantity - newReserved)];
    r := Success(UnitReservation(variantId, newReserved, current.stockQuantity - newReserved));
  }

  method RestockVariant(db: Database, variantId: VariantId, q: int, reason: Option<string>)
    returns (r: Result<UnitChange, UnitError>)
    modifies db`unitInventory, db`unitMovements
    ensures var expected := Restock(UnitLedger(old(db.unitInventory), old(db.unitMovements)), variantId, q, reason);
      if expected.Failure? then
        r == Failure(expected.error) && db.unitInventory == old(db.unitInventory) && db.unitMovements == old(db.unitMovements)
      else
        r == Success(expected.value.1) && UnitLedger(db.unitInventory, db.unitMovements) == expected.value.0
  {
    r := UpdateUnitStock(db, variantId, q, In, reason.GetOr("Restock"), None, Some("restock"));
  }

  /** bulkRestock: all entries or none. */
  method BulkRestock(db: Database, entries: seq<RestockEntry>) returns (r: Result<seq<UnitChange>, UnitError>)
    modifies db`unitInventory, db`unitMovements
    ensures var expected := RestockAll(UnitLedger(old(db.unitInventory), old(db.unitMovements)), entries);
      if expected.Failure? then
        r == Failure(expected.error) && db.unitInventory == old(db.unitInventory) && db.unitMovements == old(db.unitMovements)
      else
        r == Success(expected.value.1) && UnitLedger(db.unitInventory, db.unitMovements) == expected.value.0
  {
    var savedInventory, savedMovements := db.unitInventory, db.unitMovements;
    ghost var start := UnitLedger(db.unitInventory, db.unitMovements);
    var results: seq<UnitChange> := [];
    var k := 0;
    while k < |entries|
      invariant 0 <= k <= |entries|
      invariant RestockAll(start, entries[..k]) == Success((UnitLedger(db.unitInventory, db.unitMovements), results))
    {
      ghost var before := UnitLedger(db.unitInventory, db.unitMovements);
      var result := UpdateUnitStock(db, entries[k].variantId, entries[k].quantity, In, "Restock masivo", None, Some("bulk_restock"));
      RestockStep(start, entries, k, before, results, result, UnitLedger(db.unitInventory, db.unitMovements));
      if result.Failure? {
        // the transaction is rolled back
        db.unitInventory, db.unitMovements := savedInventory, savedMovements;
        return Failure(result.error);
      }
      results := results + [result.value];
      k := k + 1;
    }
    assert entries[..k] == entries;
    r := Success(results);
  }

  method GetInventoryAlerts(db: Database) returns (a: Alerts)
    ensures a.totalAlerts == |a.lowStock| + |a.outOfStock|
    ensures SeqUtil.SortedBy(a.lowStock, StockOf)
    ensures forall x :: multiset(a.lowStock)[x] ==
                        if x.id in db.unitInventory && db.unitInventory[x.id] == x.record && LowRow(x) then 1 else 0
    ensures forall x :: multiset(a.outOfStock)[x] ==
                        if x.id in db.unitInventory && db.unitInventory[x.id] == x.record && OutRow(x) then 1 else 0
  {
    var rows := Tables.ListRows(db.unitInventory);
    Tables.EnumerationMultiset(rows, db.unitInventory);
    a := InventoryAlerts(rows);
  }

  method GetLowStockItems(db: Database) returns (items: seq<UnitRow>)
    ensures SeqUtil.SortedBy(items, StockOf)
    ensures forall x :: multiset(items)[x] ==
                        if x.id in db.unitInventory && db.unitInventory[x.id] == x.record && LowRow(x) then 1 else 0
  {
    var rows := Tables.ListRows(db.unitInventory);
    Tables.EnumerationMultiset(rows, db.unitInventory);
    items := LowStockItems(rows);
  }

  method GetOutOfStockItems(db: Database) returns (items: seq<UnitRow>)
    ensures forall x :: multiset(items)[x] ==
                        if x.id in db.unitInventory && db.unitInventory[x.id] == x.record && OutRow(x) then 1 else 0
  {
    var rows := Tables.ListRows(db.unitInventory);
    Tables.EnumerationMultiset(rows, db.unitInventory);
    items := OutOfStockItems(rows);
  }

  method GetInventoryStats(db: Database) returns (s: UnitStats)
    ensures forall rows :: Tables.Enumerates(rows, db.unitInventory) ==> s == Stats(rows, db.variants)
  {
    var rows := Tables.ListRows(db.unitInventory);
    s := Stats(rows, db.variants);
    forall other | Tables.Enumerates(other, db.unitInventory) ensures s == Stats(other, db.variants) {
      StatsIgnoreOrder(rows, other, db.unitInventory, db.variants);
    }
  }
}
