/** `POST /api/sales`, the legacy sale of packaged bags: it writes the sale with its total,
    then for each item writes a sale line, takes the units off the first packaged-stock row of
    the item's variety and size, and takes the kilograms off that row's lot. Nothing is checked
    and nothing runs in a transaction: each write stands on its own. */
module PackagedSales {
  import opened Wrappers
  import opened Schema
  import opened SalesSchema
  import opened Store
  import SeqUtil

  datatype SaleInput = SaleInput(varietyId: int, size: int, units: int, precioUnitario: real)

  /** The JSON body; `items` and the sale date `fecha` may be absent. */
  datatype SaleRequest = SaleRequest(items: Option<seq<SaleInput>>, fecha: Option<Date>)

  /** The sale-line insert that broke the (saleId, varietyId, size) primary key, by position. */
  datatype SaleError = DuplicateLine(index: nat)

  /** The two stock tables a sale draws on. */
  datatype Stockroom = Stockroom(packagedStock: seq<PackagedStock>, lots: seq<Lot>)

  function LineAmount(i: SaleInput): real { i.precioUnitario * i.units as real }

  /** The sale's total: the sum of price × units over the items. */
  function SaleTotal(items: seq<SaleInput>): real {
    SeqUtil.SumOf(items, LineAmount)
  }

  function ItemRow(saleId: int, i: SaleInput): SaleItem {
    SaleItem(saleId, i.varietyId, i.size, i.units, i.precioUnitario)
  }

  function Rows(saleId: int, items: seq<SaleInput>): (rows: seq<SaleItem>)
    ensures |rows| == |items|
    ensures forall k :: 0 <= k < |items| ==> rows[k] == ItemRow(saleId, items[k])
    decreases |items|
  {
    if items == [] then [] else Rows(saleId, items[..|items| - 1]) + [ItemRow(saleId, items[|items| - 1])]
  }

  predicate SameLineKey(a: SaleItem, b: SaleItem) {
    a.saleId == b.saleId && a.varietyId == b.varietyId && a.size == b.size
  }

  /** Some row already holds the key of `row`. */
  predicate KeyTaken(rows: seq<SaleItem>, row: SaleItem) {
    exists k :: 0 <= k < |rows| && SameLineKey(rows[k], row)
  }

  /** Item `k`'s line collides with a line already written. */
  predicate ClashAt(rows: seq<SaleItem>, saleId: int, items: seq<SaleInput>, k: nat)
    requires k < |items|
  {
    KeyTaken(rows + Rows(saleId, items[..k]), ItemRow(saleId, items[k]))
  }

  /** The first packaged-stock row of the variety and size, or -1 (the `LIMIT 1` lookup). */
  function StockIndex(stock: seq<PackagedStock>, varietyId: int, size: int): (r: int)
    ensures -1 <= r < |stock|
    ensures r == -1 <==> forall k :: 0 <= k < |stock| ==> !(stock[k].varietyId == varietyId && stock[k].size == size)
    ensures r >= 0 ==> stock[r].varietyId == varietyId && stock[r].size == size
                       && forall k :: 0 <= k < r ==> !(stock[k].varietyId == varietyId && stock[k].size == size)
  {
    if stock == [] then -1
    else if stock[0].varietyId == varietyId && stock[0].size == size then 0
    else
      var r := StockIndex(stock[1..], varietyId, size);
      assert forall k :: 1 <= k < |stock| ==> stock[k] == stock[1..][k - 1];
      if r == -1 then -1 else r + 1
  }

  /** The lot with the id, or -1. */
  function LotIndex(lots: seq<Lot>, id: int): (r: int)
    ensures -1 <= r < |lots|
    ensures r == -1 <==> forall k :: 0 <= k < |lots| ==> lots[k].id != id
    ensures r >= 0 ==> lots[r].id == id && forall k :: 0 <= k < r ==> lots[k].id != id
  {
    if lots == [] then -1
    else if lots[0].id == id then 0
    else
      var r := LotIndex(lots[1..], id);
      assert forall k :: 1 <= k < |lots| ==> lots[k] == lots[1..][k - 1];
      if r == -1 then -1 else r + 1
  }

  /** The stock writes of one item. */
  function ApplyItem(s: Stockroom, item: SaleInput): Stockroom {
    var i := StockIndex(s.packagedStock, item.varietyId, item.size);
    if i == -1 then s
    else
      var stock := s.packagedStock[i];
      var packaged := s.packagedStock[i := stock.(units := stock.units - item.units)];
      var j := LotIndex(s.lots, stock.lotId);
      if j == -1 then Stockroom(packaged, s.lots)
      else
        var lot := s.lots[j];
        Stockroom(packaged, s.lots[j := lot.(remainingWeight := lot.remainingWeight - (item.units * item.size) as real)])
  }

  /** The stock writes of the items, in order. */
  function ApplyItems(s: Stockroom, items: seq<SaleInput>): Stockroom
    decreases |items|
  {
    if items == [] then s else ApplyItem(ApplyItems(s, items[..|items| - 1]), items[|items| - 1])
  }

  /** One item takes its units off exactly the first row of its variety and size, with no
      floor at zero, and its kilograms off exactly that row's lot; every other row and lot is
      untouched. Without a matching row nothing changes. */
  lemma ApplyItemEffect(s: Stockroom, item: SaleInput)
    ensures var r := ApplyItem(s, item);
      var i := StockIndex(s.packagedStock, item.varietyId, item.size);
      && |r.packagedStock| == |s.packagedStock| && |r.lots| == |s.lots|
      && (i == -1 ==> r == s)
      && (i >= 0 ==>
            && r.packagedStock[i] == s.packagedStock[i].(units := s.packagedStock[i].units - item.units)
            && (forall k :: 0 <= k < |s.packagedStock| && k != i ==> r.packagedStock[k] == s.packagedStock[k])
            && var j := LotIndex(s.lots, s.packagedStock[i].lotId);
               && (j >= 0 ==> r.lots[j].remainingWeight == s.lots[j].remainingWeight - (item.units * item.size) as real
                              && r.lots[j].id == s.lots[j].id)
               && (forall k :: 0 <= k < |s.lots| && k != j ==> r.lots[k] == s.lots[k]))
  {
  }

  /** Selling more bags than a row holds drives it negative. */
  lemma OversellExample()
    ensures var s := Stockroom([PackagedStock(1, 7, 1, 1, 10)], [Lot(10, 5.0)]);
      ApplyItem(s, SaleInput(7, 1, 3, 100.0)) == Stockroom([PackagedStock(1, 7, 1, -2, 10)], [Lot(10, 2.0)])
  {
  }

  lemma ApplyItemsStep(s: Stockroom, items: seq<SaleInput>, k: nat)
    requires k < |items|
    ensures ApplyItems(s, items[..k + 1]) == ApplyItem(ApplyItems(s, items[..k]), items[k])
  {
    assert items[..k + 1][..k] == items[..k];
  }

  lemma RowsStep(saleId: int, items: seq<SaleInput>, k: nat)
    requires k < |items|
    ensures Rows(saleId, items[..k + 1]) == Rows(saleId, items[..k]) + [ItemRow(saleId, items[k])]
  {
    assert items[..k + 1][..k] == items[..k];
  }

  /** With a fresh sale id and no two items of the same variety and size, no line collides. */
  lemma DistinctItemsNeverClash(rows: seq<SaleItem>, saleId: int, items: seq<SaleInput>, k: nat)
    requires forall m :: 0 <= m < |rows| ==> rows[m].saleId != saleId
    requires forall a, b :: 0 <= a < b < |items| ==> !(items[a].varietyId == items[b].varietyId && items[a].size == items[b].size)
    requires k < |items|
    ensures !ClashAt(rows, saleId, items, k)
  {
  }

  /** Two items of the same variety and size in one sale break the line key: the second
      insert fails after the first item's stock has already been taken. */
  lemma DuplicateItemsClash(saleId: int, item: SaleInput)
    ensures !ClashAt([], saleId, [item, item], 0)
    ensures ClashAt([], saleId, [item, item], 1)
  {
    var items := [item, item];
    assert items[..1] == [item];
    assert Rows(saleId, items[..1])[0] == ItemRow(saleId, item);
    assert ([] + Rows(saleId, items[..1]))[0] == ItemRow(saleId, item);
  }

  /** The first `n` items went in cleanly: none of their lines collided, their lines follow
      the old ones, and the stock carries their writes. */
  predicate Wrote(rows0: seq<SaleItem>, start: Stockroom, saleId: int, items: seq<SaleInput>, n: nat,
                  rows: seq<SaleItem>, stock: Stockroom)
    requires n <= |items|
  {
    && (forall k :: 0 <= k < n ==> !ClashAt(rows0, saleId, items, k))
    && rows == rows0 + Rows(saleId, items[..n])
    && stock == ApplyItems(start, items[..n])
  }

  lemma WroteStep(rows0: seq<SaleItem>, start: Stockroom, saleId: int, items: seq<SaleInput>, k: nat,
                  rows: seq<SaleItem>, stock: Stockroom)
    requires k < |items|
    requires Wrote(rows0, start, saleId, items, k, rows, stock)
    requires !KeyTaken(rows, ItemRow(saleId, items[k]))
    ensures Wrote(rows0, start, saleId, items, k + 1, rows + [ItemRow(saleId, items[k])], ApplyItem(stock, items[k]))
  {
    RowsStep(saleId, items, k);
    ApplyItemsStep(start, items, k);
  }

  /** One item's stock writes: the units off the row, the kilograms off its lot. */
  method TakeStock(db: Database, item: SaleInput)
    modifies db`packagedStock, db`lots
    ensures Stockroom(db.packagedStock, db.lots) == ApplyItem(Stockroom(old(db.packagedStock), old(db.lots)), item)
  {
    var i := StockIndex(db.packagedStock, item.varietyId, item.size);
    if i >= 0 {
      var stock := db.packagedStock[i];
      db.packagedStock := db.packagedStock[i := stock.(units := stock.units - item.units)];
      var j := LotIndex(db.lots, stock.lotId);
      if j >= 0 {
        var lot := db.lots[j];
        db.lots := db.lots[j := lot.(remainingWeight := lot.remainingWeight - (item.units * item.size) as real)];
      }
    }
  }

  /** The item loop: each line insert and its stock writes, stopping at the first line
      whose key is already taken. */
  method WriteItems(db: Database, saleId: int, items: seq<SaleInput>) returns (r: Result<int, SaleError>)
    modifies db`saleItems, db`packagedStock, db`lots
    ensures r.Success? ==> r.value == saleId && Wrote(old(db.saleItems), Stockroom(old(db.packagedStock), old(db.lots)), saleId, items, |items|, db.saleItems, Stockroom(db.packagedStock, db.lots))
    ensures r.Failure? ==> r.error.index < |items| && ClashAt(old(db.saleItems), saleId, items, r.error.index)
                           && Wrote(old(db.saleItems), Stockroom(old(db.packagedStock), old(db.lots)), saleId, items, r.error.index, db.saleItems, Stockroom(db.packagedStock, db.lots))
  {
    ghost var rows0 := db.saleItems;
    ghost var start := Stockroom(db.packagedStock, db.lots);
    var k := 0;
    while k < |items|
      invariant 0 <= k <= |items|
      invariant Wrote(rows0, start, saleId, items, k, db.saleItems, Stockroom(db.packagedStock, db.lots))
    {
      var row := ItemRow(saleId, items[k]);
      if KeyTaken(db.saleItems, row) {
        assert ClashAt(rows0, saleId, items, k);
        return Failure(DuplicateLine(k));
      }
      WroteStep(rows0, start, saleId, items, k, db.saleItems, Stockroom(db.packagedStock, db.lots));
      db.saleItems := db.saleItems + [row];
      TakeStock(db, items[k]);
      k := k + 1;
    }
    assert items[..|items|] == items;
    return Success(saleId);
  }

  /** POST: the sale row first, then each item's line and stock writes. A line that collides
      with one already written makes the insert throw: the writes before it stay, and the
      request fails. The sale is dated with the body's `fecha` when one is sent, otherwise with
      the database's current time `now`. */
  method Post(db: Database, body: SaleRequest, saleId: int, now: Date) returns (r: Result<int, SaleError>)
    modifies db`sales, db`saleItems, db`packagedStock, db`lots
    ensures db.sales == old(db.sales) + [Sale(saleId, body.fecha.GetOr(now), SaleTotal(body.items.GetOr([])))]
    ensures var items := body.items.GetOr([]);
      && (r.Success? <==> forall k :: 0 <= k < |items| ==> !ClashAt(old(db.saleItems), saleId, items, k))
      && (r.Success? ==> r.value == saleId)
      && var n := if r.Success? then |items| else r.error.index;
         && n <= |items|
         && (r.Failure? ==> n < |items| && ClashAt(old(db.saleItems), saleId, items, n))
         && (forall k :: 0 <= k < n ==> !ClashAt(old(db.saleItems), saleId, items, k))
         && db.saleItems == old(db.saleItems) + Rows(saleId, items[..n])
         && Stockroom(db.packagedStock, db.lots) == ApplyItems(Stockroom(old(db.packagedStock), old(db.lots)), items[..n])
  {
    var items := body.items.GetOr([]);
    var total := SeqUtil.FoldSum(items, LineAmount, 0.0);
    SeqUtil.FoldSumIsSum(items, LineAmount, 0.0);
    var fecha := if body.fecha.Some? then body.fecha.value else now;
    db.sales := db.sales + [Sale(saleId, fecha, total)];
    r := WriteItems(db, saleId, items);
  }
}
