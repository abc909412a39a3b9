/** `POST /api/checkout/create-order`, the storefront's own order path. It does not go through
    the order writer or the stock ledger: it writes the header as `pending` with the totals the
    client sent, and for each line it rewrites the inventory row and logs a movement itself,
    with no stock check, available clamped at zero, and the movement's quantity positive. Each
    write stands on its own; there is no transaction. */
module CheckoutCreateOrder {
  import opened Wrappers
  import opened Schema
  import opened KgSchema
  import opened Store
  import Customers
  import OrderNumbers
  import opened InventoryKg
  import OrdersKg
  import OrdersRoute

  datatype CheckoutRequest = CheckoutRequest(
    customerName: Option<string>, customerEmail: string, customerPhone: Option<string>,
    shippingAddress: Address, items: Option<seq<OrdersKg.LineInput>>, paymentMethod: Option<string>,
    subtotal: real, shippingCost: real, discount: real, total: real,
    channel: Option<Channel>, notes: Option<string>)

  datatype CheckoutResponse =
    | Saved(order: OrdersRoute.OrderSummary)
    | BadRequest(message: string)

  predicate Complete(body: CheckoutRequest) {
    Given(body.customerName) && Given(body.customerPhone) && body.items.Some? && |body.items.value| > 0
  }

  /** The customer of a checkout: the first one with this exact email, else a new guest with
      zero totals. The phone is not consulted. */
  function ResolveByEmail(cs: seq<Customer>, body: CheckoutRequest, newId: string): (r: (Customer, seq<Customer>))
    requires Complete(body)
    ensures Customers.ByEmail(cs, body.customerEmail).Some? ==>
      r == (Customers.ByEmail(cs, body.customerEmail).value, cs) && r.0.email == Some(body.customerEmail)
    ensures Customers.ByEmail(cs, body.customerEmail).None? ==>
      && r.1 == cs + [r.0]
      && r.0 == Customer(newId, Guest, Some(body.customerEmail), Some(body.customerPhone.value),
                         body.customerName.value, 0, 0.0, None)
  {
    match Customers.ByEmail(cs, body.customerEmail)
    case Some(c) => (c, cs)
    case None =>
      var c := Customer(newId, Guest, Some(body.customerEmail), Some(body.customerPhone.value),
                        body.customerName.value, 0, 0.0, None);
      (c, cs + [c])
  }

  /** The header: pending, unpaid, with the client's totals copied unchanged. */
  function CheckoutOrder(body: CheckoutRequest, customerId: string, orderId: string, orderNumber: string, today: Date): (o: Order)
    requires Complete(body)
    ensures o.status == Pending && o.paymentStatus == PaymentPending
    ensures o.channel == (if body.channel.Some? then body.channel.value else Online)
    ensures o.subtotal == body.subtotal && o.shippingCost == body.shippingCost
    ensures o.discount == body.discount && o.total == body.total
    ensures o.id == orderId && o.orderNumber == orderNumber && o.customerId == customerId && o.createdOn == today
  {
    Order(orderId, orderNumber, customerId, Pending, body.channel.GetOr(Online), body.customerName.value,
          Some(body.customerEmail), body.customerPhone.value, body.shippingAddress,
          body.subtotal, body.shippingCost, body.discount, body.total,
          body.paymentMethod, PaymentPending, body.notes, today)
  }

  /** The movement reason names the online channel whatever the order's channel is. */
  function CheckoutReason(orderNumber: string): string { "Venta online - Pedido " + orderNumber }

  function ClampAtZero(x: real): real { if x < 0.0 then 0.0 else x }

  /** One line's stock write: nothing when the product has no record; otherwise stock minus the
      line's kilograms, available minus them but not below zero, and a movement whose quantity
      is the positive kilograms. */
  function CheckoutStep(l: Ledger, it: OrdersKg.LineInput, reason: string, orderId: string): Ledger {
    if it.productId !in l.inventory then l
    else
      var cur := l.inventory[it.productId];
      var kg := OrdersKg.LineKg(it);
      var newStock := cur.stockKg - kg;
      Ledger(l.inventory[it.productId := cur.(stockKg := newStock, availableKg := ClampAtZero(cur.availableKg - kg))],
             l.movements + [StockMovement(it.productId, Out, kg, cur.stockKg, newStock, reason, Some(orderId), Some("order"))])
  }

  function CheckoutLedger(l: Ledger, items: seq<OrdersKg.LineInput>, reason: string, orderId: string): Ledger
    decreases |items|
  {
    if items == [] then l
    else CheckoutStep(CheckoutLedger(l, items[..|items| - 1], reason, orderId), items[|items| - 1], reason, orderId)
  }

  /** The checkout path takes the same kilograms out of each product's stock as createOrder
      would, every product keeps its record, and nothing is ever refused. */
  lemma {:induction false} CheckoutStock(l: Ledger, items: seq<OrdersKg.LineInput>, reason: string, orderId: string)
    ensures CheckoutLedger(l, items, reason, orderId).inventory.Keys == l.inventory.Keys
    ensures forall p :: p in l.inventory ==>
      CheckoutLedger(l, items, reason, orderId).inventory[p].stockKg == l.inventory[p].stockKg - OrdersKg.KgFor(items, p)
    decreases |items|
  {
    if items != [] {
      CheckoutStock(l, items[..|items| - 1], reason, orderId);
    }
  }

  /** Where createOrder succeeds the two paths leave the same stock column behind. */
  lemma SameStockAsCreateOrder(l: Ledger, items: seq<OrdersKg.LineInput>, r1: string, r2: string, orderId: string)
    requires OrdersKg.DecrementLines(l, items, r1, orderId).Success?
    ensures CheckoutLedger(l, items, r2, orderId).inventory.Keys == l.inventory.Keys
    ensures OrdersKg.DecrementLines(l, items, r1, orderId).value.inventory.Keys == l.inventory.Keys
    ensures forall p :: p in l.inventory ==>
      CheckoutLedger(l, items, r2, orderId).inventory[p].stockKg == OrdersKg.DecrementLines(l, items, r1, orderId).value.inventory[p].stockKg
  {
    CheckoutStock(l, items, r2, orderId);
    OrdersKg.DecrementOutcome(l, items, r1, orderId);
  }

  /** An order createOrder refuses for lack of stock goes through here and drives the stock
      below zero: 2 kg asked of a product with 1 kg. */
  lemma OversellExample(orderId: string, reason: string)
    ensures var l := Ledger(map["p" := InventoryRecord(1.0, 0.0, 1.0, 5.0, 100.0, None)], []);
      var items := [OrdersKg.LineInput("p", "Yerba", 1.0, 2, 1000.0)];
      && OrdersKg.DecrementLines(l, items, reason, orderId).Failure?
      && CheckoutLedger(l, items, reason, orderId).inventory["p"].stockKg == -1.0
      && !LedgerValid(CheckoutLedger(l, items, reason, orderId))
  {
    var l := Ledger(map["p" := InventoryRecord(1.0, 0.0, 1.0, 5.0, 100.0, None)], []);
    var items := [OrdersKg.LineInput("p", "Yerba", 1.0, 2, 1000.0)];
    assert items[..0] == [];
    var l' := CheckoutLedger(l, items, reason, orderId);
    assert l'.inventory["p"].stockKg == -1.0;
  }

  /** Clamping breaks `available == stock - reserved`: 9 kg asked of 10 kg with 2 reserved
      leaves stock 1 but available 0. */
  lemma ClampBreaksBalance(orderId: string, reason: string)
    ensures var l := Ledger(map["p" := InventoryRecord(10.0, 2.0, 8.0, 5.0, 100.0, None)], []);
      var l' := CheckoutStep(l, OrdersKg.LineInput("p", "Yerba", 1.0, 9, 1000.0), reason, orderId);
      && Balanced(l.inventory["p"])
      && l'.inventory["p"].stockKg == 1.0 && l'.inventory["p"].availableKg == 0.0
      && !Balanced(l'.inventory["p"])
  {
  }

  /** The movement logged here keeps the snapshot rule only for a line of zero kilograms. */
  lemma CheckoutMovementSnapshot(l: Ledger, it: OrdersKg.LineInput, reason: string, orderId: string)
    requires it.productId in l.inventory
    ensures var l' := CheckoutStep(l, it, reason, orderId);
      && |l'.movements| == |l.movements| + 1
      && (SnapshotHolds(l'.movements[|l.movements|]) <==> OrdersKg.LineKg(it) == 0.0)
  {
  }

  /** A line of non-zero kilograms breaks the fold of the log into the stock column: the log
      adds the kilograms while the stock loses them. */
  lemma CheckoutBreaksReplay(l: Ledger, it: OrdersKg.LineInput, reason: string, orderId: string)
    requires Replays(l) && it.productId in l.inventory && OrdersKg.LineKg(it) != 0.0
    ensures !Replays(CheckoutStep(l, it, reason, orderId))
  {
    var l' := CheckoutStep(l, it, reason, orderId);
    var p := it.productId;
    MovedKgAppend(l.movements, l'.movements[|l.movements|], p);
    assert l'.movements == l.movements + [l'.movements[|l.movements|]];
    assert MovedKg(l'.movements, p) == l.inventory[p].stockKg + OrdersKg.LineKg(it);
    assert l'.inventory[p].stockKg == l.inventory[p].stockKg - OrdersKg.LineKg(it);
  }

  /** A checkout order written today counts towards the day's total that numbers counter
      sales, so the counter sale after it skips a sequence number. */
  lemma CheckoutOrderLeavesGap(orders: seq<Order>, counter: Order, checkout: Order, today: Date)
    requires counter.createdOn == today && checkout.createdOn == today
    requires counter.orderNumber == OrderNumbers.OrderNumber(today, OrderNumbers.OrdersOn(orders, today))
    ensures var n := OrderNumbers.OrdersOn(orders, today);
      && OrderNumbers.OrdersOn(orders + [counter] + [checkout], today) == n + 2
      && OrderNumbers.OrderNumber(today, n + 2) != OrderNumbers.OrderNumber(today, n + 1)
  {
    var n := OrderNumbers.OrdersOn(orders, today);
    OrderNumbers.OrdersOnAppend(orders, counter, today);
    OrderNumbers.OrdersOnAppend(orders + [counter], checkout, today);
    if OrderNumbers.OrderNumber(today, n + 2) == OrderNumbers.OrderNumber(today, n + 1) {
      OrderNumbers.OrderNumberInjective(today, n + 2, n + 1);
    }
  }

  method CheckoutCustomer(db: Database, body: CheckoutRequest, newId: string) returns (c: Customer)
    requires Complete(body)
    modifies db`customers
    ensures (c, db.customers) == ResolveByEmail(old(db.customers), body, newId)
  {
    var found := Customers.ByEmail(db.customers, body.customerEmail);
    if found.Some? {
      return found.value;
    }
    c := Customer(newId, Guest, Some(body.customerEmail), Some(body.customerPhone.value),
                  body.customerName.value, 0, 0.0, None);
    db.customers := db.customers + [c];
  }

  /** The loop over the items: a line row for every item, a stock write where a record exists. */
  method WriteCheckoutLines(db: Database, orderId: string, items: seq<OrdersKg.LineInput>, reason: string)
    modifies db`orderItems, db`inventory, db`movements
    ensures db.orderItems == old(db.orderItems) + OrdersKg.Lines(orderId, items)
    ensures Ledger(db.inventory, db.movements) == CheckoutLedger(Ledger(old(db.inventory), old(db.movements)), items, reason, orderId)
  {
    ghost var start := Ledger(db.inventory, db.movements);
    var k := 0;
    while k < |items|
      invariant 0 <= k <= |items|
      invariant db.orderItems == old(db.orderItems) + OrdersKg.Lines(orderId, items[..k])
      invariant Ledger(db.inventory, db.movements) == CheckoutLedger(start, items[..k], reason, orderId)
    {
      var item := items[k];
      OrdersKg.LinesAppend(orderId, items, k);
      assert items[..k + 1][..k] == items[..k];
      db.orderItems := db.orderItems + [OrdersKg.OrderLine(orderId, item)];
      var kg := OrdersKg.LineKg(item);
      if item.productId in db.inventory {
        var current := db.inventory[item.productId];
        var newStock := current.stockKg - kg;
        var newAvailable := ClampAtZero(current.availableKg - kg);
        db.inventory := db.inventory[item.productId := current.(stockKg := newStock, availableKg := newAvailable)];
        db.movements := db.movements + [StockMovement(item.productId, Out, kg, current.stockKg, newStock, reason,
                                                      Some(orderId), Some("order"))];
      }
      k := k + 1;
    }
    assert items[..k] == items;
  }

  /** POST. The ids and the `YBS-` number are parameters; the clock is `today`. */
  method Post(db: Database, body: CheckoutRequest, newCustomerId: string, orderId: string, orderNumber: string, today: Date)
    returns (resp: CheckoutResponse)
    modifies db`customers, db`orders, db`orderItems, db`inventory, db`movements
    ensures !Complete(body) ==>
      && resp == BadRequest("Datos incompletos")
      && db.customers == old(db.customers) && db.orders == old(db.orders) && db.orderItems == old(db.orderItems)
      && db.inventory == old(db.inventory) && db.movements == old(db.movements)
    ensures Complete(body) ==>
      var resolved := ResolveByEmail(old(db.customers), body, newCustomerId);
      var o := CheckoutOrder(body, resolved.0.id, orderId, orderNumber, today);
      && resp == Saved(OrdersRoute.OrderSummary(orderId, orderNumber, body.total, Pending))
      && db.customers == resolved.1
      && db.orders == old(db.orders) + [o]
      && db.orderItems == old(db.orderItems) + OrdersKg.Lines(orderId, body.items.value)
      && Ledger(db.inventory, db.movements) ==
           CheckoutLedger(Ledger(old(db.inventory), old(db.movements)), body.items.value, CheckoutReason(orderNumber), orderId)
  {
    if !Complete(body) {
      return BadRequest("Datos incompletos");
    }
    var customer := CheckoutCustomer(db, body, newCustomerId);
    var order := CheckoutOrder(body, customer.id, orderId, orderNumber, today);
    db.orders := db.orders + [order];
    WriteCheckoutLines(db, orderId, body.items.value, CheckoutReason(orderNumber));
    resp := Saved(OrdersRoute.OrderSummary(orderId, orderNumber, body.total, Pending));
  }
}
