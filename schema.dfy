/** The value types the two database schemas share: the enumerations, dates, the embedded
    shipping address, customers and order headers. */
module Schema {
  import opened Wrappers

  datatype MovementType = In | Out | Adjustment | Transfer
  datatype Channel = Online | WhatsApp | Instagram | Presencial
  datatype OrderStatus = Pending | Confirmed | Preparing | Shipped | Delivered | Cancelled
  datatype PaymentStatus = PaymentPending | Paid
  datatype CustomerType = Guest | Registered
  datatype ProductStatus = Active | Inactive | Draft

  /** A calendar day in the shop's local time zone. */
  datatype Date = Date(year: nat, month: nat, day: nat)

  datatype Address = Address(
    street: string, number: string, floor: Option<string>, apartment: Option<string>,
    neighborhood: string, city: string, state: string, postalCode: string, country: string,
    instructions: Option<string>)

  /** The address stored on counter sales: collection at the shop. */
  const StorePickup: Address :=
    Address("Retiro en local", "S/N", None, None, "Centro", "Córdoba", "Córdoba", "5000", "Argentina", None)

  datatype Customer = Customer(
    id: string, customerType: CustomerType, email: Option<string>, phone: Option<string>,
    fullName: string, totalOrders: int, totalSpent: real, lastOrderDate: Option<Date>)

  /** An order header row. `createdOn` is the local day of its `createdAt` timestamp. */
  datatype Order = Order(
    id: string, orderNumber: string, customerId: string, status: OrderStatus, channel: Channel,
    customerName: string, customerEmail: Option<string>, customerPhone: string,
    shippingAddress: Address, subtotal: real, shippingCost: real, discount: real, total: real,
    paymentMethod: Option<string>, paymentStatus: PaymentStatus, notes: Option<string>,
    createdOn: Date)

  function ChannelName(c: Channel): string {
    match c
    case Online => "online"
    case WhatsApp => "whatsapp"
    case Instagram => "instagram"
    case Presencial => "presencial"
  }

  /** JavaScript truthiness of an optional string: present and not empty. */
  predicate Given(s: Option<string>) {
    s.Some? && s.value != ""
  }

  /** `s || null`: an empty string is stored as null. */
  function OrNull(s: Option<string>): (r: Option<string>)
    ensures r.Some? <==> Given(s)
    ensures r.Some? ==> r == s
  {
    if Given(s) then s else None
  }

  /** `s || d`: the default replaces a missing or empty string. */
  function OrElse(s: Option<string>, d: string): (r: string)
    ensures Given(s) ==> r == s.value
    ensures !Given(s) ==> r == d
  {
    if Given(s) then s.value else d
  }
}
