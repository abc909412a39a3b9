/** `POST /api/orders`, the counter-sale front door of the kilogram order writer: it checks the
    required fields, resolves the customer as a guest, fills in the defaults of a counter sale
    and delegates to createOrder; an error from there becomes a 500 response. */
module OrdersRoute {
  import opened Wrappers
  import opened Schema
  import opened Store
  import SeqUtil
  import Customers
  import OrderNumbers
  import InventoryKg
  import opened OrdersKg

  /** The JSON body; every field may be absent. */
  datatype OrderRequest = OrderRequest(
    customerName: Option<string>, customerPhone: Option<string>, customerEmail: Option<string>,
    channel: Option<Channel>, paymentMethod: Option<string>, items: Option<seq<LineInput>>,
    shippingAddress: Option<Address>, subtotal: Option<real>, total: Option<real>, notes: Option<string>)

  /** The `order` object of a success response. */
  datatype OrderSummary = OrderSummary(id: string, orderNumber: string, total: real, status: OrderStatus)

  datatype OrdersResponse =
    | Saved(order: OrderSummary)
    | BadRequest(message: string)
    | ServerError(cause: InventoryKg.StockError)

  function StatusCode(r: OrdersResponse): int {
    match r
    case Saved(_) => 200
    case BadRequest(_) => 400
    case ServerError(_) => 500
  }

  /** The `success` flag of the response body. */
  predicate Succeeded(r: OrdersResponse) { StatusCode(r) == 200 }

  const MissingContact := "Nombre y teléfono del cliente son obligatorios"
  const MissingItems := "Debe incluir al menos un producto"

  /** The 400 message, if the body fails a check: name and phone first, then the items. */
  function Validate(body: OrderRequest): (err: Option<string>)
    ensures !Given(body.customerName) || !Given(body.customerPhone) ==> err == Some(MissingContact)
    ensures Given(body.customerName) && Given(body.customerPhone) ==>
      (err.None? <==> body.items.Some? && |body.items.value| > 0)
    ensures err.Some? ==> err == Some(MissingContact) || err == Some(MissingItems)
  {
    if !Given(body.customerName) || !Given(body.customerPhone) then Some(MissingContact)
    else if body.items.None? || |body.items.value| == 0 then Some(MissingItems)
    else None
  }

  /** The customer lookup of the route: a guest, with an empty email treated as none. */
  function CustomerDataOf(body: OrderRequest): (d: Customers.CustomerData)
    requires Validate(body).None?
    ensures d.customerType == Some(Guest) && d.fullName == body.customerName.value
    ensures d.phone == body.customerPhone.value
    ensures Given(d.email) <==> Given(body.customerEmail)
  {
    Customers.CustomerData(OrNull(body.customerEmail), body.customerPhone.value, body.customerName.value, Some(Guest))
  }

  /** The argument handed to createOrder: a counter sale by default, no shipping cost, no
      discount; the client's own subtotal and total are not passed on. */
  function OrderInputOf(body: OrderRequest, customerId: string): (input: OrderInput)
    requires Validate(body).None?
    ensures input.customerId == customerId && input.items == body.items.value
    ensures input.channel == (if body.channel.Some? then body.channel.value else Presencial)
    ensures input.shippingAddress == (if body.shippingAddress.Some? then body.shippingAddress.value else StorePickup)
    ensures input.paymentMethod == Some(OrElse(body.paymentMethod, "efectivo"))
    ensures input.shippingCost == Some(0.0) && input.discount == Some(0.0)
  {
    OrderInput(customerId, body.customerName.value, body.customerEmail, body.customerPhone.value,
               body.channel.GetOr(Presencial), body.shippingAddress.GetOr(StorePickup), body.items.value,
               Some(OrElse(body.paymentMethod, "efectivo")), Some(0.0), Some(0.0), body.notes)
  }

  /** Whatever subtotal and total the client sends, the order written is the same. */
  lemma ClientTotalsIgnored(body: OrderRequest, subtotal: Option<real>, total: Option<real>, customerId: string)
    requires Validate(body).None?
    ensures Validate(body.(subtotal := subtotal, total := total)).None?
    ensures OrderInputOf(body.(subtotal := subtotal, total := total), customerId) == OrderInputOf(body, customerId)
  {
  }

  /** The stored total of a counter sale is the sum of its line prices, and the payment method
      is cash unless one is given. */
  lemma CounterSaleTotal(body: OrderRequest, customerId: string, orderId: string, orderNumber: string, today: Date)
    requires Validate(body).None?
    ensures var o := OrderRecord(OrderInputOf(body, customerId), orderId, orderNumber, today);
      && o.total == SeqUtil.SumOf(body.items.value, LinePrice)
      && o.status == Confirmed && o.paymentStatus == Paid
      && (!Given(body.paymentMethod) ==> o.paymentMethod == Some("efectivo"))
  {
    var o := OrderRecord(OrderInputOf(body, customerId), orderId, orderNumber, today);
    assert o.shippingCost == 0.0 && o.discount == 0.0;
  }

  function Summary(o: Order): OrderSummary { OrderSummary(o.id, o.orderNumber, o.total, o.status) }

  /** POST. `newCustomerId` and `orderId` are the ids the database would generate; the clock is
      `today`. The customer is resolved before createOrder's transaction starts, so a customer
      created here stays even when the order then fails. */
  method Post(db: Database, body: OrderRequest, newCustomerId: string, orderId: string, today: Date)
    returns (resp: OrdersResponse)
    modifies db`customers, db`orders, db`orderItems, db`inventory, db`movements
    ensures Validate(body).Some? ==>
      && resp == BadRequest(Validate(body).value)
      && db.customers == old(db.customers) && db.orders == old(db.orders) && db.orderItems == old(db.orderItems)
      && db.inventory == old(db.inventory) && db.movements == old(db.movements)
    ensures Validate(body).None? ==>
      var resolved := Customers.Resolve(old(db.customers), CustomerDataOf(body), newCustomerId);
      var input := OrderInputOf(body, resolved.0.id);
      var number := OrderNumbers.OrderNumber(today, OrderNumbers.OrdersOn(old(db.orders), today));
      var expected := DecrementLines(InventoryKg.Ledger(old(db.inventory), old(db.movements)), input.items,
                                     SaleReason(input.channel, number), orderId);
      if expected.Failure? then
        && resp == ServerError(expected.error)
        && db.customers == resolved.1
        && db.orders == old(db.orders) && db.orderItems == old(db.orderItems)
        && db.inventory == old(db.inventory) && db.movements == old(db.movements)
      else
        var o := OrderRecord(input, orderId, number, today);
        && resp == Saved(Summary(o))
        && db.orders == old(db.orders) + [o]
        && db.orderItems == old(db.orderItems) + Lines(orderId, input.items)
        && InventoryKg.Ledger(db.inventory, db.movements) == expected.value
        && db.customers == Customers.RecordPurchase(resolved.1, resolved.0.id, o.total, today)
  {
    var err := Validate(body);
    if err.Some? {
      return BadRequest(err.value);
    }
    var customer := Customers.FindOrCreateCustomer(db, CustomerDataOf(body), newCustomerId);
    var r := CreateOrder(db, OrderInputOf(body, customer.id), orderId, today);
    if r.Failure? {
      return ServerError(r.error);
    }
    resp := Saved(Summary(r.value));
  }
}
