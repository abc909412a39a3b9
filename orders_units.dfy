/** createOrder of the legacy order writer: the same header, numbering and customer update as
    the kilogram writer, but each line names a product variant and takes `quantity` whole
    units out of the unit ledger. The call is atomic. */
module OrdersUnits {
  import opened Wrappers
  import opened Schema
  import opened UnitSchema
  import opened Store
  import SeqUtil
  import Customers
  import OrderNumbers
  import opened InventoryUnits

  /** One requested line: `quantity` units of a variant at `unitPrice`. */
  datatype UnitLineInput = UnitLineInput(variantId: VariantId, productName: string, variantName: string,
                                         quantity: int, unitPrice: real)

  datatype UnitOrderInput = UnitOrderInput(
    customerId: string, customerName: string, customerEmail: Option<string>, customerPhone: string,
    channel: Channel, shippingAddress: Address, items: seq<UnitLineInput>,
    paymentMethod: Option<string>, shippingCost: Option<real>, discount: Option<real>, notes: Option<string>)

  function LinePrice(i: UnitLineInput): real { i.unitPrice * i.quantity as real }

  /** The order header createOrder inserts. */
  function OrderRecord(input: UnitOrderInput, orderId: string, orderNumber: string, today: Date): (o: Order)
    ensures o.subtotal == SeqUtil.SumOf(input.items, LinePrice)
    ensures o.total == o.subtotal + o.shippingCost - o.discount
    ensures o.shippingCost == input.shippingCost.GetOr(0.0) && o.discount == input.discount.GetOr(0.0)
    ensures o.status == Confirmed && o.paymentStatus == Paid
    ensures o.paymentMethod.Some? && (Given(input.paymentMethod) ==> o.paymentMethod == input.paymentMethod)
    ensures !Given(input.paymentMethod) ==> o.paymentMethod == Some("efectivo")
    ensures o.customerEmail.Some? <==> Given(input.customerEmail)
    ensures o.id == orderId && o.orderNumber == orderNumber && o.customerId == input.customerId
    ensures o.createdOn == today
  {
    var subtotal := SeqUtil.FoldSum(input.items, LinePrice, 0.0);
    SeqUtil.FoldSumIsSum(input.items, LinePrice, 0.0);
    var shippingCost := input.shippingCost.GetOr(0.0);
    var discount := input.discount.GetOr(0.0);
    Order(orderId, orderNumber, input.customerId, Confirmed, input.channel, input.customerName,
          OrNull(input.customerEmail), input.customerPhone, input.shippingAddress,
          subtotal, shippingCost, discount, subtotal + shippingCost - discount,
          Some(OrElse(input.paymentMethod, "efectivo")), Paid, OrNull(input.notes), today)
  }

  function OrderLine(orderId: string, i: UnitLineInput): UnitOrderItem {
    UnitOrderItem(orderId, i.variantId, i.productName, i.variantName, i.quantity, i.unitPrice, LinePrice(i))
  }

  function Lines(orderId: string, items: seq<UnitLineInput>): seq<UnitOrderItem>
    decreases |items|
  {
    if items == [] then [] else Lines(orderId, items[..|items| - 1]) + [OrderLine(orderId, items[|items| - 1])]
  }

  /** Line k of the order is item k with its price worked out. */
  lemma {:induction false} LinesShape(orderId: string, items: seq<UnitLineInput>)
    ensures |Lines(orderId, items)| == |items|
    ensures forall k :: 0 <= k < |items| ==>
      var r := Lines(orderId, items)[k];
      && r.orderId == orderId && r.variantId == items[k].variantId && r.quantity == items[k].quantity
      && r.unitPrice == items[k].unitPrice && r.totalPrice == items[k].unitPrice * items[k].quantity as real
    decreases |items|
  {
    if items != [] {
      LinesShape(orderId, items[..|items| - 1]);
    }
  }

  lemma LinesAppend(orderId: string, items: seq<UnitLineInput>, k: nat)
    requires k < |items|
    ensures Lines(orderId, items[..k + 1]) == Lines(orderId, items[..k]) + [OrderLine(orderId, items[k])]
  {
    assert items[..k + 1][..k] == items[..k];
  }

  function SaleReason(channel: Channel, orderNumber: string): string {
    "Venta " + ChannelName(channel) + " - Pedido " + orderNumber
  }

  /** The unit decrements of createOrder's loop; the first failure stops it. */
  function DecrementLines(l: UnitLedger, items: seq<UnitLineInput>, reason: string, orderId: string)
    : Result<UnitLedger, UnitError>
    decreases |items|
  {
    if items == [] then Success(l)
    else
      match DecrementLines(l, items[..|items| - 1], reason, orderId)
      case Failure(e) => Failure(e)
      case Success(l1) =>
        var it := items[|items| - 1];
        match UpdateStock(l1, it.variantId, -it.quantity, Out, reason, Some(orderId), Some("order"))
        case Failure(e) => Failure(e)
        case Success(res) => Success(res.0)
  }

  /** Units the lines ask of variant `v`. */
  function UnitsFor(items: seq<UnitLineInput>, v: VariantId): int
    decreases |items|
  {
    if items == [] then 0
    else UnitsFor(items[..|items| - 1], v) + (if items[|items| - 1].variantId == v then items[|items| - 1].quantity else 0)
  }

  /** Every line names a variant with a record, and no line takes its variant's running demand
      above the variant's stock. */
  predicate Feasible(inv: map<VariantId, UnitRecord>, items: seq<UnitLineInput>) {
    forall k :: 0 <= k < |items| ==> LineFits(inv, items, k)
  }

  /** Line `k` names a record with room for the demand up to and including it. */
  predicate LineFits(inv: map<VariantId, UnitRecord>, items: seq<UnitLineInput>, k: nat)
    requires k < |items|
  {
    items[k].variantId in inv && inv[items[k].variantId].stockQuantity - UnitsFor(items[..k + 1], items[k].variantId) >= 0
  }

  lemma FeasiblePrefix(inv: map<VariantId, UnitRecord>, items: seq<UnitLineInput>)
    requires |items| > 0
    ensures Feasible(inv, items) <==>
      && Feasible(inv, items[..|items| - 1])
      && var it := items[|items| - 1];
         it.variantId in inv && inv[it.variantId].stockQuantity - UnitsFor(items, it.variantId) >= 0
  {
    var init := items[..|items| - 1];
    assert items[..|items|] == items;
    forall k | 0 <= k < |init| ensures LineFits(inv, init, k) == LineFits(inv, items, k) {
      assert init[..k + 1] == items[..k + 1];
    }
    assert Feasible(inv, items) <==> Feasible(inv, init) && LineFits(inv, items, |items| - 1);
  }

  /** The decrements succeed exactly when the lines are feasible, and then every variant loses
      the units its lines name. */
  lemma {:induction false} DecrementOutcome(l: UnitLedger, items: seq<UnitLineInput>, reason: string, orderId: string)
    ensures DecrementLines(l, items, reason, orderId).Success? <==> Feasible(l.inventory, items)
    ensures DecrementLines(l, items, reason, orderId).Success? ==>
      var l' := DecrementLines(l, items, reason, orderId).value;
      l'.inventory.Keys == l.inventory.Keys &&
      forall v :: v in l.inventory ==> l'.inventory[v].stockQuantity == l.inventory[v].stockQuantity - UnitsFor(items, v)
    decreases |items|
  {
    if items != [] {
      DecrementOutcome(l, items[..|items| - 1], reason, orderId);
      FeasiblePrefix(l.inventory, items);
    }
  }

  /** One movement per line, in line order: an `out` of the line's units carrying the order's
      id and the `order` reference type, each keeping the snapshot rule. */
  lemma {:induction false} DecrementMovements(l: UnitLedger, items: seq<UnitLineInput>, reason: string, orderId: string)
    requires DecrementLines(l, items, reason, orderId).Success?
    ensures var ms := DecrementLines(l, items, reason, orderId).value.movements;
      && |ms| == |l.movements| + |items|
      && ms[..|l.movements|] == l.movements
      && forall k :: 0 <= k < |items| ==>
           var m := ms[|l.movements| + k];
           && m.variantId == items[k].variantId && m.movementType == Out
           && m.quantity == -items[k].quantity && SnapshotHolds(m)
           && m.reason == reason && m.referenceId == Some(orderId) && m.referenceType == Some("order")
    decreases |items|
  {
    if items != [] {
      var init := items[..|items| - 1];
      DecrementMovements(l, init, reason, orderId);
      var l1 := DecrementLines(l, init, reason, orderId).value;
      var ms := DecrementLines(l, items, reason, orderId).value.movements;
      var n := |l.movements|;
      assert ms[..|l1.movements|] == l1.movements;
      assert ms[..n] == l1.movements[..n];
      forall k | 0 <= k < |items|
        ensures var m := ms[n + k];
          && m.variantId == items[k].variantId && m.movementType == Out
          && m.quantity == -items[k].quantity && SnapshotHolds(m)
          && m.reason == reason && m.referenceId == Some(orderId) && m.referenceType == Some("order")
      {
        if k < |init| {
          assert init[k] == items[k];
          assert ms[n + k] == l1.movements[n + k];
        } else {
          assert n + k == |l1.movements|;
        }
      }
    }
  }

  /** The ledger invariants survive a whole successful order. */
  lemma {:induction false} DecrementPreservesValidity(l: UnitLedger, items: seq<UnitLineInput>, reason: string, orderId: string)
    requires LedgerValid(l)
    requires DecrementLines(l, items, reason, orderId).Success?
    ensures LedgerValid(DecrementLines(l, items, reason, orderId).value)
    decreases |items|
  {
    if items != [] {
      var init, it := items[..|items| - 1], items[|items| - 1];
      DecrementPreservesValidity(l, init, reason, orderId);
      var l1 := DecrementLines(l, init, reason, orderId).value;
      UpdatePreservesValidity(l1, it.variantId, -it.quantity, Out, reason, Some(orderId), Some("order"));
    }
  }

  lemma {:induction false} PrefixFailure(l: UnitLedger, items: seq<UnitLineInput>, k: nat, reason: string, orderId: string)
    requires k <= |items|
    requires DecrementLines(l, items[..k], reason, orderId).Failure?
    ensures DecrementLines(l, items, reason, orderId) == DecrementLines(l, items[..k], reason, orderId)
    decreases |items| - k
  {
    if k == |items| {
      assert items[..k] == items;
    } else {
      assert items[..|items| - 1][..k] == items[..k];
      PrefixFailure(l, items[..|items| - 1], k, reason, orderId);
    }
  }

  lemma DecrementStep(start: UnitLedger, items: seq<UnitLineInput>, k: nat, reason: string, orderId: string,
                      before: UnitLedger, res: Result<UnitChange, UnitError>, after: UnitLedger)
    requires k < |items|
    requires DecrementLines(start, items[..k], reason, orderId) == Success(before)
    requires var e := UpdateStock(before, items[k].variantId, -items[k].quantity, Out, reason, Some(orderId), Some("order"));
      if e.Failure? then res == Failure(e.error) else res == Success(e.value.1) && after == e.value.0
    ensures res.Failure? ==> DecrementLines(start, items, reason, orderId) == Failure(res.error)
    ensures res.Success? ==> DecrementLines(start, items[..k + 1], reason, orderId) == Success(after)
  {
    assert items[..k + 1][..k] == items[..k];
    if res.Failure? {
      PrefixFailure(start, items, k + 1, reason, orderId);
    }
  }

  /** The loop of createOrder: a line row and a unit decrement per item. */
  method WriteLines(db: Database, orderId: string, items: seq<UnitLineInput>, reason: string)
    returns (failure: Option<UnitError>)
    modifies db`unitOrderItems, db`unitInventory, db`unitMovements
    ensures var expected := DecrementLines(UnitLedger(old(db.unitInventory), old(db.unitMovements)), items, reason, orderId);
      if expected.Failure? then failure == Some(expected.error)
      else
        && failure == None
        && db.unitOrderItems == old(db.unitOrderItems) + Lines(orderId, items)
        && UnitLedger(db.unitInventory, db.unitMovements) == expected.value
  {
    ghost var start := UnitLedger(db.unitInventory, db.unitMovements);
    var k := 0;
    while k < |items|
      invariant 0 <= k <= |items|
      invariant db.unitOrderItems == old(db.unitOrderItems) + Lines(orderId, items[..k])
      invariant DecrementLines(start, items[..k], reason, orderId) == Success(UnitLedger(db.unitInventory, db.unitMovements))
    {
      var item := items[k];
      LinesAppend(orderId, items, k);
      db.unitOrderItems := db.unitOrderItems + [OrderLine(orderId, item)];
      ghost var before := UnitLedger(db.unitInventory, db.unitMovements);
      var res := UpdateUnitStock(db, item.variantId, -item.quantity, Out, reason, Some(orderId), Some("order"));
      DecrementStep(start, items, k, reason, orderId, before, res, UnitLedger(db.unitInventory, db.unitMovements));
      if res.Failure? {
        return Some(res.error);
      }
      k := k + 1;
    }
    assert items[..k] == items;
    failure := None;
  }

  /** createOrder (units). `orderId` is the id the database generates; the clock is `today`. */
  method CreateOrder(db: Database, input: UnitOrderInput, orderId: string, today: Date) returns (r: Result<Order, UnitError>)
    modifies db`orders, db`unitOrderItems, db`unitInventory, db`unitMovements, db`customers
    ensures var number := OrderNumbers.OrderNumber(today, OrderNumbers.OrdersOn(old(db.orders), today));
      var expected := DecrementLines(UnitLedger(old(db.unitInventory), old(db.unitMovements)), input.items,
                                     SaleReason(input.channel, number), orderId);
      if expected.Failure? then
        && r == Failure(expected.error)
        && db.orders == old(db.orders) && db.unitOrderItems == old(db.unitOrderItems)
        && db.unitInventory == old(db.unitInventory) && db.unitMovements == old(db.unitMovements)
        && db.customers == old(db.customers)
      else
        var o := OrderRecord(input, orderId, number, today);
        && r == Success(o)
        && db.orders == old(db.orders) + [o]
        && db.unitOrderItems == old(db.unitOrderItems) + Lines(orderId, input.items)
        && UnitLedger(db.unitInventory, db.unitMovements) == expected.value
        && db.customers == Customers.RecordPurchase(old(db.customers), input.customerId, o.total, today)
  {
    var savedOrders, savedItems, savedInventory, savedMovements := db.orders, db.unitOrderItems, db.unitInventory, db.unitMovements;
    var orderNumber := OrderNumbers.OrderNumber(today, OrderNumbers.OrdersOn(db.orders, today));
    var order := OrderRecord(input, orderId, orderNumber, today);
    db.orders := db.orders + [order];
    var failure := WriteLines(db, orderId, input.items, SaleReason(input.channel, orderNumber));
    if failure.Some? {
      // the transaction is rolled back
      db.orders, db.unitOrderItems, db.unitInventory, db.unitMovements := savedOrders, savedItems, savedInventory, savedMovements;
      return Failure(failure.value);
    }
    db.customers := Customers.RecordPurchase(db.customers, input.customerId, order.total, today);
    r := Success(order);
  }
}
