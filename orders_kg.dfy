/** createOrder of the kilogram order writer: totals, the order number of the day, the order
    header, one line per item and, per line, a kilogram decrement through the stock ledger,
    then the customer's statistics. The call is atomic: if any decrement fails nothing of it
    remains. */
module OrdersKg {
  import opened Wrappers
  import opened Schema
  import opened KgSchema
  import opened Store
  import SeqUtil
  import Customers
  import OrderNumbers
  import opened InventoryKg

  /** One requested line: `quantity` packages of `sizeKg` kg each at `unitPrice`. */
  datatype LineInput = LineInput(productId: ProductId, productName: string, sizeKg: real, quantity: int, unitPrice: real)

  /** The argument of createOrder. */
  datatype OrderInput = OrderInput(
    customerId: string, customerName: string, customerEmail: Option<string>, customerPhone: string,
    channel: Channel, shippingAddress: Address, items: seq<LineInput>,
    paymentMethod: Option<string>, shippingCost: Option<real>, discount: Option<real>, notes: Option<string>)

  function LinePrice(i: LineInput): real { i.unitPrice * i.quantity as real }

  /** Kilograms a line takes out of stock. */
  function LineKg(i: LineInput): real { i.sizeKg * i.quantity as real }

  /** The order header createOrder inserts. */
  function OrderRecord(input: OrderInput, orderId: string, orderNumber: string, today: Date): (o: Order)
    ensures o.subtotal == SeqUtil.SumOf(input.items, LinePrice)
    ensures o.total == o.subtotal + o.shippingCost - o.discount
    ensures o.shippingCost == input.shippingCost.GetOr(0.0) && o.discount == input.discount.GetOr(0.0)
    ensures o.status == Confirmed && o.paymentStatus == Paid
    ensures o.paymentMethod.Some? && (Given(input.paymentMethod) ==> o.paymentMethod == input.paymentMethod)
    ensures !Given(input.paymentMethod) ==> o.paymentMethod == Some("efectivo")
    ensures o.customerEmail.Some? <==> Given(input.customerEmail)
    ensures o.id == orderId && o.orderNumber == orderNumber && o.customerId == input.customerId
    ensures o.createdOn == today
  {
    var subtotal := SeqUtil.FoldSum(input.items, LinePrice, 0.0);
    SeqUtil.FoldSumIsSum(input.items, LinePrice, 0.0);
    var shippingCost := input.shippingCost.GetOr(0.0);
    var discount := input.discount.GetOr(0.0);
    Order(orderId, orderNumber, input.customerId, Confirmed, input.channel, input.customerName,
          OrNull(input.customerEmail), input.customerPhone, input.shippingAddress,
          subtotal, shippingCost, discount, subtotal + shippingCost - discount,
          Some(OrElse(input.paymentMethod, "efectivo")), Paid, OrNull(input.notes), today)
  }

  function OrderLine(orderId: string, i: LineInput): OrderItem {
    OrderItem(orderId, i.productId, i.productName, i.sizeKg, i.quantity, LineKg(i), i.unitPrice, LinePrice(i))
  }

  /** The line rows of an order, one per item in item order. */
  function Lines(orderId: string, items: seq<LineInput>): seq<OrderItem>
    decreases |items|
  {
    if items == [] then [] else Lines(orderId, items[..|items| - 1]) + [OrderLine(orderId, items[|items| - 1])]
  }

  /** Line k of the order is item k with its kilograms and price worked out. */
  lemma {:induction false} LinesShape(orderId: string, items: seq<LineInput>)
    ensures |Lines(orderId, items)| == |items|
    ensures forall k :: 0 <= k < |items| ==> Lines(orderId, items)[k] == OrderLine(orderId, items[k])
    ensures forall k :: 0 <= k < |items| ==>
      var r := Lines(orderId, items)[k];
      && r.orderId == orderId && r.productId == items[k].productId
      && r.quantity == items[k].quantity && r.sizeKg == items[k].sizeKg
      && r.totalKg == items[k].sizeKg * items[k].quantity as real
      && r.totalPrice == items[k].unitPrice * items[k].quantity as real
    decreases |items|
  {
    if items != [] {
      var init := items[..|items| - 1];
      LinesShape(orderId, init);
      forall k | 0 <= k < |items| ensures Lines(orderId, items)[k] == OrderLine(orderId, items[k]) {
        if k < |init| {
          assert init[k] == items[k];
          assert Lines(orderId, items)[k] == Lines(orderId, init)[k];
        }
      }
    }
  }

  /** The movement reason: "Venta <channel> - Pedido <number>". */
  function SaleReason(channel: Channel, orderNumber: string): string {
    "Venta " + ChannelName(channel) + " - Pedido " + orderNumber
  }

  /** The stock decrements of createOrder's loop, line by line; the first failure stops it. */
  function DecrementLines(l: Ledger, items: seq<LineInput>, reason: string, orderId: string): Result<Ledger, StockError>
    decreases |items|
  {
    if items == [] then Success(l)
    else
      match DecrementLines(l, items[..|items| - 1], reason, orderId)
      case Failure(e) => Failure(e)
      case Success(l1) =>
        var it := items[|items| - 1];
        match UpdateStock(l1, it.productId, -LineKg(it), Out, reason, Some(orderId), Some("order"))
        case Failure(e) => Failure(e)
        case Success(res) => Success(res.0)
  }

  /** Kilograms the lines ask of product `p`. */
  function KgFor(items: seq<LineInput>, p: ProductId): real
    decreases |items|
  {
    if items == [] then 0.0
    else KgFor(items[..|items| - 1], p) + (if items[|items| - 1].productId == p then LineKg(items[|items| - 1]) else 0.0)
  }

  /** Every line names a product with a record, and no line takes its product's running demand
      (this line and the earlier ones) above the product's stock. */
  predicate Feasible(inv: map<ProductId, InventoryRecord>, items: seq<LineInput>) {
    forall k :: 0 <= k < |items| ==> LineFits(inv, items, k)
  }

  /** Line `k` names a record with room for the demand up to and including it. */
  predicate LineFits(inv: map<ProductId, InventoryRecord>, items: seq<LineInput>, k: nat)
    requires k < |items|
  {
    items[k].productId in inv && inv[items[k].productId].stockKg - KgFor(items[..k + 1], items[k].productId) >= 0.0
  }

  lemma FeasiblePrefix(inv: map<ProductId, InventoryRecord>, items: seq<LineInput>)
    requires |items| > 0
    ensures Feasible(inv, items) <==>
      && Feasible(inv, items[..|items| - 1])
      && var it := items[|items| - 1];
         it.productId in inv && inv[it.productId].stockKg - KgFor(items, it.productId) >= 0.0
  {
    var init := items[..|items| - 1];
    assert items[..|items|] == items;
    forall k | 0 <= k < |init| ensures LineFits(inv, init, k) == LineFits(inv, items, k) {
      assert init[..k + 1] == items[..k + 1];
    }
    assert Feasible(inv, items) <==> Feasible(inv, init) && LineFits(inv, items, |items| - 1);
  }

  /** The decrements succeed exactly when the lines are feasible. */
  lemma {:induction false} DecrementOutcome(l: Ledger, items: seq<LineInput>, reason: string, orderId: string)
    ensures DecrementLines(l, items, reason, orderId).Success? <==> Feasible(l.inventory, items)
    ensures DecrementLines(l, items, reason, orderId).Success? ==>
      var l' := DecrementLines(l, items, reason, orderId).value;
      l'.inventory.Keys == l.inventory.Keys &&
      forall p :: p in l.inventory ==> l'.inventory[p].stockKg == l.inventory[p].stockKg - KgFor(items, p)
    decreases |items|
  {
    if items != [] {
      var init, it := items[..|items| - 1], items[|items| - 1];
      DecrementOutcome(l, init, reason, orderId);
      FeasiblePrefix(l.inventory, items);
    }
  }

  /** A successful run changes only stock and available: every record keeps its reserved kg,
      limits and cost, and its available kg stays stock minus reserved if it was before. */
  lemma {:induction false} DecrementKeepsRecords(l: Ledger, items: seq<LineInput>, reason: string, orderId: string)
    requires DecrementLines(l, items, reason, orderId).Success?
    ensures var l' := DecrementLines(l, items, reason, orderId).value;
      && l'.inventory.Keys == l.inventory.Keys
      && forall p :: p in l.inventory ==>
           && l'.inventory[p].reservedKg == l.inventory[p].reservedKg
           && l'.inventory[p].minStockKg == l.inventory[p].minStockKg
           && l'.inventory[p].maxStockKg == l.inventory[p].maxStockKg
           && l'.inventory[p].costPerKg == l.inventory[p].costPerKg
           && (Balanced(l.inventory[p]) ==> Balanced(l'.inventory[p]))
    decreases |items|
  {
    if items != [] {
      DecrementKeepsRecords(l, items[..|items| - 1], reason, orderId);
    }
  }

  /** The movement an order logs for line `it`: an `out` of the line's kilograms tagged with
      the order, keeping the snapshot rule. */
  predicate LineMovement(m: StockMovement, it: LineInput, reason: string, orderId: string) {
    && m.productId == it.productId && m.movementType == Out
    && m.quantityKg == -LineKg(it) && SnapshotHolds(m)
    && m.reason == reason && m.referenceId == OrNull(Some(orderId)) && m.referenceType == Some("order")
  }

  /** The last line of a successful run appends exactly its own movement. */
  lemma LastMovement(l: Ledger, items: seq<LineInput>, reason: string, orderId: string)
    requires items != [] && DecrementLines(l, items, reason, orderId).Success?
    ensures DecrementLines(l, items[..|items| - 1], reason, orderId).Success?
    ensures var l1 := DecrementLines(l, items[..|items| - 1], reason, orderId).value;
      var ms := DecrementLines(l, items, reason, orderId).value.movements;
      && |ms| == |l1.movements| + 1 && ms[..|l1.movements|] == l1.movements
      && LineMovement(ms[|l1.movements|], items[|items| - 1], reason, orderId)
  {
  }

  /** One movement per line, in line order. */
  lemma {:induction false} DecrementMovements(l: Ledger, items: seq<LineInput>, reason: string, orderId: string)
    requires DecrementLines(l, items, reason, orderId).Success?
    ensures var ms := DecrementLines(l, items, reason, orderId).value.movements;
      && |ms| == |l.movements| + |items|
      && ms[..|l.movements|] == l.movements
      && forall k :: 0 <= k < |items| ==> LineMovement(ms[|l.movements| + k], items[k], reason, orderId)
    decreases |items|
  {
    if items != [] {
      var init := items[..|items| - 1];
      LastMovement(l, items, reason, orderId);
      DecrementMovements(l, init, reason, orderId);
      var l1 := DecrementLines(l, init, reason, orderId).value;
      var ms := DecrementLines(l, items, reason, orderId).value.movements;
      var n := |l.movements|;
      assert ms[..n] == l1.movements[..n];
      forall k | 0 <= k < |items|
        ensures LineMovement(ms[n + k], items[k], reason, orderId)
      {
        if k < |init| {
          assert init[k] == items[k];
          assert ms[n + k] == l1.movements[n + k];
        }
      }
    }
  }

  /** The ledger invariants survive a whole successful order. */
  lemma {:induction false} DecrementPreservesValidity(l: Ledger, items: seq<LineInput>, reason: string, orderId: string)
    requires LedgerValid(l)
    requires DecrementLines(l, items, reason, orderId).Success?
    ensures LedgerValid(DecrementLines(l, items, reason, orderId).value)
    decreases |items|
  {
    if items != [] {
      var init, it := items[..|items| - 1], items[|items| - 1];
      DecrementPreservesValidity(l, init, reason, orderId);
      var l1 := DecrementLines(l, init, reason, orderId).value;
      UpdatePreservesValidity(l1, it.productId, -LineKg(it), Out, reason, Some(orderId), Some("order"));
    }
  }

  /** So does the fold of the log into the stock column. */
  lemma {:induction false} DecrementPreservesReplay(l: Ledger, items: seq<LineInput>, reason: string, orderId: string)
    requires Replays(l)
    requires DecrementLines(l, items, reason, orderId).Success?
    ensures Replays(DecrementLines(l, items, reason, orderId).value)
    decreases |items|
  {
    if items != [] {
      var init, it := items[..|items| - 1], items[|items| - 1];
      DecrementPreservesReplay(l, init, reason, orderId);
      var l1 := DecrementLines(l, init, reason, orderId).value;
      UpdatePreservesReplay(l1, it.productId, -LineKg(it), Out, reason, Some(orderId), Some("order"));
    }
  }

  /** One more line of the loop: when the decrement of line `k` fails, the whole run fails
      with its error. */
  lemma DecrementFails(start: Ledger, items: seq<LineInput>, k: nat, reason: string, orderId: string,
                       before: Ledger, error: StockError)
    requires k < |items|
    requires DecrementLines(start, items[..k], reason, orderId) == Success(before)
    requires UpdateStock(before, items[k].productId, -LineKg(items[k]), Out, reason, Some(orderId), Some("order")) == Failure(error)
    ensures DecrementLines(start, items, reason, orderId) == Failure(error)
  {
    assert items[..k + 1][..k] == items[..k];
    PrefixFailure(start, items, k + 1, reason, orderId);
  }

  /** When it succeeds, the run over the first `k + 1` lines stands where the database now
      stands. */
  lemma DecrementSucceeds(start: Ledger, items: seq<LineInput>, k: nat, reason: string, orderId: string,
                          before: Ledger, after: Ledger)
    requires k < |items|
    requires DecrementLines(start, items[..k], reason, orderId) == Success(before)
    requires var e := UpdateStock(before, items[k].productId, -LineKg(items[k]), Out, reason, Some(orderId), Some("order"));
      e.Success? && e.value.0 == after
    ensures DecrementLines(start, items[..k + 1], reason, orderId) == Success(after)
  {
    assert items[..k + 1][..k] == items[..k];
  }

  lemma LinesAppend(orderId: string, items: seq<LineInput>, k: nat)
    requires k < |items|
    ensures Lines(orderId, items[..k + 1]) == Lines(orderId, items[..k]) + [OrderLine(orderId, items[k])]
  {
    assert items[..k + 1][..k] == items[..k];
  }

  /** Once a prefix of the lines fails, the whole run fails with the same error. */
  lemma {:induction false} PrefixFailure(l: Ledger, items: seq<LineInput>, k: nat, reason: string, orderId: string)
    requires k <= |items|
    requires DecrementLines(l, items[..k], reason, orderId).Failure?
    ensures DecrementLines(l, items, reason, orderId) == DecrementLines(l, items[..k], reason, orderId)
    decreases |items| - k
  {
    if k == |items| {
      assert items[..k] == items;
    } else {
      assert items[..|items| - 1][..k] == items[..k];
      PrefixFailure(l, items[..|items| - 1], k, reason, orderId);
    }
  }

  /** The order just written counts towards its day, so the next order of the same day gets the
      next sequence number, which differs from this one. */
  lemma NextOrderNumber(orders: seq<Order>, input: OrderInput, orderId: string, today: Date)
    ensures var n := OrderNumbers.OrdersOn(orders, today);
      var o := OrderRecord(input, orderId, OrderNumbers.OrderNumber(today, n), today);
      && OrderNumbers.OrdersOn(orders + [o], today) == n + 1
      && OrderNumbers.OrderNumber(today, n + 1) != o.orderNumber
  {
    var n := OrderNumbers.OrdersOn(orders, today);
    var o := OrderRecord(input, orderId, OrderNumbers.OrderNumber(today, n), today);
    OrderNumbers.OrdersOnAppend(orders, o, today);
    if OrderNumbers.OrderNumber(today, n + 1) == o.orderNumber {
      OrderNumbers.OrderNumberInjective(today, n + 1, n);
    }
  }

  /** The loop of createOrder: a line row and a stock decrement per item. On a failure it stops
      at once and reports the error; what it wrote so far is left for the caller to undo. */
  method WriteLines(db: Database, orderId: string, items: seq<LineInput>, reason: string)
    returns (failure: Option<StockError>)
    modifies db`orderItems, db`inventory, db`movements
    ensures var expected := DecrementLines(Ledger(old(db.inventory), old(db.movements)), items, reason, orderId);
      if expected.Failure? then failure == Some(expected.error)
      else
        && failure == None
        && db.orderItems == old(db.orderItems) + Lines(orderId, items)
        && Ledger(db.inventory, db.movements) == expected.value
  {
    ghost var start := Ledger(db.inventory, db.movements);
    var k := 0;
    while k < |items|
      invariant 0 <= k <= |items|
      invariant db.orderItems == old(db.orderItems) + Lines(orderId, items[..k])
      invariant DecrementLines(start, items[..k], reason, orderId) == Success(Ledger(db.inventory, db.movements))
    {
      LinesAppend(orderId, items, k);
      db.orderItems := db.orderItems + [OrderLine(orderId, items[k])];
      ghost var before := Ledger(db.inventory, db.movements);
      var res := UpdateStockKg(db, items[k].productId, -LineKg(items[k]), Out, reason, Some(orderId), Some("order"));
      if res.Failure? {
        DecrementFails(start, items, k, reason, orderId, before, res.error);
        return Some(res.error);
      }
      DecrementSucceeds(start, items, k, reason, orderId, before, Ledger(db.inventory, db.movements));
      k := k + 1;
    }
    assert items[..k] == items;
    failure := None;
  }

  /** createOrder. `orderId` is the id the database generates for the header; the clock is `today`. */
  method CreateOrder(db: Database, input: OrderInput, orderId: string, today: Date) returns (r: Result<Order, StockError>)
    modifies db`orders, db`orderItems, db`inventory, db`movements, db`customers
    ensures var number := OrderNumbers.OrderNumber(today, OrderNumbers.OrdersOn(old(db.orders), today));
      var expected := DecrementLines(Ledger(old(db.inventory), old(db.movements)), input.items,
                                     SaleReason(input.channel, number), orderId);
      if expected.Failure? then
        && r == Failure(expected.error)
        && db.orders == old(db.orders) && db.orderItems == old(db.orderItems)
        && db.inventory == old(db.inventory) && db.movements == old(db.movements)
        && db.customers == old(db.customers)
      else
        var o := OrderRecord(input, orderId, number, today);
        && r == Success(o)
        && db.orders == old(db.orders) + [o]
        && db.orderItems == old(db.orderItems) + Lines(orderId, input.items)
        && Ledger(db.inventory, db.movements) == expected.value
        && db.customers == Customers.RecordPurchase(old(db.customers), input.customerId, o.total, today)
  {
    var savedOrders, savedItems, savedInventory, savedMovements := db.orders, db.orderItems, db.inventory, db.movements;
    var orderNumber := OrderNumbers.OrderNumber(today, OrderNumbers.OrdersOn(db.orders, today));
    var order := OrderRecord(input, orderId, orderNumber, today);
    db.orders := db.orders + [order];
    var failure := WriteLines(db, orderId, input.items, SaleReason(input.channel, orderNumber));
    if failure.Some? {
      // the transaction is rolled back
      db.orders, db.orderItems, db.inventory, db.movements := savedOrders, savedItems, savedInventory, savedMovements;
      return Failure(failure.value);
    }
    db.customers := Customers.RecordPurchase(db.customers, input.customerId, order.total, today);
    r := Success(order);
  }
}
