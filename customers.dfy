/** Customer resolution and purchase statistics, shared verbatim by the kilogram and the
    legacy order writers. */
module Customers {
  import opened Wrappers
  import opened Schema
  import SeqUtil
  import Store

  /** The argument of findOrCreateCustomer. */
  datatype CustomerData = CustomerData(
    email: Option<string>, phone: string, fullName: string, customerType: Option<CustomerType>)

  predicate HasEmail(c: Customer, email: string) { c.email == Some(email) }
  predicate HasPhone(c: Customer, phone: string) { c.phone == Some(phone) }

  /** `SELECT ... WHERE email = $1 LIMIT 1`. */
  function ByEmail(cs: seq<Customer>, email: string): Option<Customer> {
    SeqUtil.Find(cs, c => HasEmail(c, email))
  }

  /** `SELECT ... WHERE phone = $1 LIMIT 1`. */
  function ByPhone(cs: seq<Customer>, phone: string): Option<Customer> {
    SeqUtil.Find(cs, c => HasPhone(c, phone))
  }

  /** Did the email lookup find someone? It runs only when an email is given. */
  predicate EmailMatches(cs: seq<Customer>, data: CustomerData) {
    Given(data.email) && exists i :: 0 <= i < |cs| && HasEmail(cs[i], data.email.value)
  }

  /** Did the phone lookup find someone? It runs only when a phone is given. */
  predicate PhoneMatches(cs: seq<Customer>, data: CustomerData) {
    data.phone != "" && exists i :: 0 <= i < |cs| && HasPhone(cs[i], data.phone)
  }

  /** The row inserted for a customer nobody matched; totals start at the column defaults. */
  function NewCustomer(data: CustomerData, id: string): Customer {
    Customer(id, data.customerType.GetOr(Guest), OrNull(data.email), Some(data.phone),
             data.fullName, 0, 0.0, None)
  }

  /** The customer findOrCreateCustomer returns, paired with the customers table afterwards:
      the first email match if an email is given and matches, else the first phone match,
      else a new guest (by default) appended to the table. */
  function Resolve(cs: seq<Customer>, data: CustomerData, newId: string): (r: (Customer, seq<Customer>))
    ensures r.1 == cs || r.1 == cs + [r.0]
    ensures r.1 == cs <==> EmailMatches(cs, data) || PhoneMatches(cs, data)
    ensures r.1 == cs ==> r.0 in cs
    ensures EmailMatches(cs, data) ==>
      exists i :: 0 <= i < |cs| && cs[i] == r.0 && HasEmail(r.0, data.email.value)
        && forall j :: 0 <= j < i ==> !HasEmail(cs[j], data.email.value)
    ensures !EmailMatches(cs, data) && PhoneMatches(cs, data) ==>
      exists i :: 0 <= i < |cs| && cs[i] == r.0 && HasPhone(r.0, data.phone)
        && forall j :: 0 <= j < i ==> !HasPhone(cs[j], data.phone)
    ensures r.1 != cs ==>
      && r.0.id == newId && r.0.fullName == data.fullName && r.0.phone == Some(data.phone)
      && r.0.customerType == (if data.customerType.Some? then data.customerType.value else Guest)
      && (r.0.email.Some? <==> Given(data.email))
      && r.0.totalOrders == 0 && r.0.totalSpent == 0.0
  {
    var byEmail := if Given(data.email) then ByEmail(cs, data.email.value) else None;
    var found := if byEmail.Some? then byEmail
                 else if data.phone != "" then ByPhone(cs, data.phone) else None;
    if found.Some? then (found.value, cs)
    else
      var c := NewCustomer(data, newId);
      (c, cs + [c])
  }

  /** The one customer's statistics after an order of `total`. */
  function WithPurchase(c: Customer, total: real, today: Date): Customer {
    c.(totalOrders := c.totalOrders + 1, totalSpent := c.totalSpent + total, lastOrderDate := Some(today))
  }

  /** `UPDATE customers SET totalOrders = totalOrders + 1, totalSpent = totalSpent + total
      WHERE id = customerId`: only the rows with that id change, and only in their statistics. */
  function RecordPurchase(cs: seq<Customer>, customerId: string, total: real, today: Date): (r: seq<Customer>)
    ensures |r| == |cs|
    ensures forall i :: 0 <= i < |cs| && cs[i].id != customerId ==> r[i] == cs[i]
    ensures forall i :: 0 <= i < |cs| && cs[i].id == customerId ==>
      && r[i].totalOrders == cs[i].totalOrders + 1
      && r[i].totalSpent == cs[i].totalSpent + total
      && r[i].lastOrderDate == Some(today)
      && r[i].(totalOrders := cs[i].totalOrders, totalSpent := cs[i].totalSpent,
               lastOrderDate := cs[i].lastOrderDate) == cs[i]
  {
    seq(|cs|, i requires 0 <= i < |cs| =>
      if cs[i].id == customerId then WithPurchase(cs[i], total, today) else cs[i])
  }

  /** 3 orders worth 1000 plus one of 250 give 4 orders worth 1250. */
  lemma PurchaseExample(c: Customer, today: Date)
    requires c.totalOrders == 3 && c.totalSpent == 1000.0
    ensures var r := RecordPurchase([c], c.id, 250.0, today);
      r[0].totalOrders == 4 && r[0].totalSpent == 1250.0
  {
  }

  /** findOrCreateCustomer on the database; `newId` is the id the database would generate. */
  method FindOrCreateCustomer(db: Store.Database, data: CustomerData, newId: string) returns (c: Customer)
    modifies db`customers
    ensures (c, db.customers) == Resolve(old(db.customers), data, newId)
  {
    var existing: Option<Customer> := None;
    if Given(data.email) {
      existing := ByEmail(db.customers, data.email.value);
    }
    if existing.None? && data.phone != "" {
      existing := ByPhone(db.customers, data.phone);
    }
    if existing.Some? {
      return existing.value;
    }
    c := NewCustomer(data, newId);
    db.customers := db.customers + [c];
  }
}
