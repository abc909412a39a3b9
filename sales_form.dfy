/** The counter-sale form of the dashboard: a cart of bags keyed by product and size, whose
    additions and quantity changes are capped so that a product's kilograms in the cart never
    exceed its available kilograms, and a submit that sends the cart to the order route. */
module SalesForm {
  import opened Wrappers
  import opened Schema
  import SeqUtil
  import OrdersKg
  import OrdersRoute

  datatype SizeOption = SizeOption(size: real, price: real)

  /** A product as the page hands it to the form. */
  datatype ProductWithSizes = ProductWithSizes(id: string, name: string, brand: string, stockKg: real,
                                               availableKg: real, sizes: seq<SizeOption>)

  /** A cart line; `availableKg` is a copy of the product's available kilograms taken when the
      line was first added. */
  datatype SaleLine = SaleLine(productId: string, productName: string, sizeKg: real, price: real,
                               quantity: int, availableKg: real)

  /** Kilograms in `quantity` bags of `sizeKg`. */
  function BagsKg(sizeKg: real, quantity: int): real { sizeKg * quantity as real }

  function KgOf(l: SaleLine): real { BagsKg(l.sizeKg, l.quantity) }

  function LineTotal(l: SaleLine): real { l.price * l.quantity as real }

  /** The line belongs to the key (productId, sizeKg). */
  predicate SameKey(l: SaleLine, productId: string, sizeKg: real) {
    l.productId == productId && l.sizeKg == sizeKg
  }

  function NotKey(productId: string, sizeKg: real): SaleLine -> bool {
    (l: SaleLine) => !SameKey(l, productId, sizeKg)
  }

  /** Kilograms of a product already in the cart, over all its sizes (the `filter` on the
      product and `reduce` of size × quantity). */
  function KgInCart(cart: seq<SaleLine>, productId: string): real
    decreases |cart|
  {
    if cart == [] then 0.0
    else
      var last := cart[|cart| - 1];
      KgInCart(cart[..|cart| - 1], productId) + (if last.productId == productId then KgOf(last) else 0.0)
  }

  /** Kilograms of the product's lines in sizes other than `sizeKg`. */
  function OtherSizesKg(cart: seq<SaleLine>, productId: string, sizeKg: real): real
    decreases |cart|
  {
    if cart == [] then 0.0
    else
      var last := cart[|cart| - 1];
      OtherSizesKg(cart[..|cart| - 1], productId, sizeKg)
        + (if last.productId == productId && last.sizeKg != sizeKg then KgOf(last) else 0.0)
  }

  predicate KeysUnique(cart: seq<SaleLine>) {
    forall i, j :: 0 <= i < j < |cart| ==> !SameKey(cart[j], cart[i].productId, cart[i].sizeKg)
  }

  /** `cart.find` on the key, as a position: the first matching line, or -1. */
  function IndexOf(cart: seq<SaleLine>, productId: string, sizeKg: real): (r: int)
    ensures -1 <= r < |cart|
    ensures r == -1 <==> forall k :: 0 <= k < |cart| ==> !SameKey(cart[k], productId, sizeKg)
    ensures r >= 0 ==> SameKey(cart[r], productId, sizeKg)
                       && forall k :: 0 <= k < r ==> !SameKey(cart[k], productId, sizeKg)
  {
    if cart == [] then -1
    else if SameKey(cart[0], productId, sizeKg) then 0
    else
      var r := IndexOf(cart[1..], productId, sizeKg);
      assert forall k :: 1 <= k < |cart| ==> cart[k] == cart[1..][k - 1];
      if r == -1 then -1 else r + 1
  }

  function Subtotal(cart: seq<SaleLine>): real {
    SeqUtil.SumOf(cart, LineTotal)
  }

  datatype AddOutcome = NoSelection | Insufficient(availableKg: real, requestedKg: real) | Merged | Appended

  datatype AddResult = AddResult(cart: seq<SaleLine>, outcome: AddOutcome)

  function NewLine(product: ProductWithSizes, size: SizeOption, quantity: int): SaleLine {
    SaleLine(product.id, product.name, size.size, size.price, quantity, product.availableKg)
  }

  /** Every line of the key gets `quantity` more bags. */
  function MergeInto(cart: seq<SaleLine>, productId: string, sizeKg: real, quantity: int): seq<SaleLine> {
    seq(|cart|, k requires 0 <= k < |cart| =>
          if SameKey(cart[k], productId, sizeKg) then cart[k].(quantity := cart[k].quantity + quantity) else cart[k])
  }

  /** addToCart once a product and one of its sizes are selected. */
  function AddLine(cart: seq<SaleLine>, product: ProductWithSizes, size: SizeOption, quantity: int): AddResult {
    var kgNeeded := BagsKg(size.size, quantity);
    var totalKgRequested := KgInCart(cart, product.id) + kgNeeded;
    if totalKgRequested > product.availableKg then AddResult(cart, Insufficient(product.availableKg, totalKgRequested))
    else if IndexOf(cart, product.id, size.size) >= 0 then
      AddResult(MergeInto(cart, product.id, size.size, quantity), Merged)
    else AddResult(cart + [NewLine(product, size, quantity)], Appended)
  }

  datatype UpdateOutcome = Ignored | OverStock(availableKg: real) | Changed

  datatype UpdateResult = UpdateResult(cart: seq<SaleLine>, outcome: UpdateOutcome)

  function WithQuantity(cart: seq<SaleLine>, productId: string, sizeKg: real, quantity: int): seq<SaleLine> {
    seq(|cart|, k requires 0 <= k < |cart| =>
          if SameKey(cart[k], productId, sizeKg) then cart[k].(quantity := quantity) else cart[k])
  }

  /** updateQuantity: below one bag or for an unknown line nothing happens; otherwise the
      line's new kilograms plus the product's other sizes are held to the line's copy of the
      available kilograms. */
  function UpdateLine(cart: seq<SaleLine>, productId: string, sizeKg: real, newQuantity: int): UpdateResult {
    if newQuantity < 1 then UpdateResult(cart, Ignored)
    else
      var i := IndexOf(cart, productId, sizeKg);
      if i == -1 then UpdateResult(cart, Ignored)
      else
        var newTotalKg := BagsKg(sizeKg, newQuantity);
        if newTotalKg + OtherSizesKg(cart, productId, sizeKg) > cart[i].availableKg then
          UpdateResult(cart, OverStock(cart[i].availableKg))
        else UpdateResult(WithQuantity(cart, productId, sizeKg, newQuantity), Changed)
  }

  /** removeFromCart. */
  function RemoveLine(cart: seq<SaleLine>, productId: string, sizeKg: real): seq<SaleLine> {
    SeqUtil.Filter(cart, NotKey(productId, sizeKg))
  }

  const EmptyCartMessage := "Agrega al menos un producto al carrito"
  const MissingCustomerMessage := "Complete los datos del cliente"

  /** The checks of handleSubmit, in their order. */
  function SubmitError(cart: seq<SaleLine>, customerName: string, customerPhone: string): (err: Option<string>)
    ensures err.None? <==> cart != [] && customerName != "" && customerPhone != ""
    ensures cart == [] ==> err == Some(EmptyCartMessage)
  {
    if |cart| == 0 then Some(EmptyCartMessage)
    else if customerName == "" || customerPhone == "" then Some(MissingCustomerMessage)
    else None
  }

  function RequestLine(l: SaleLine): OrdersKg.LineInput {
    OrdersKg.LineInput(l.productId, l.productName, l.sizeKg, l.quantity, l.price)
  }

  function RequestLines(cart: seq<SaleLine>): seq<OrdersKg.LineInput> {
    seq(|cart|, k requires 0 <= k < |cart| => RequestLine(cart[k]))
  }

  /** The body handleSubmit posts to the order route: a store pickup, and the cart total as
      both subtotal and total. */
  function OrderRequestOf(cart: seq<SaleLine>, customerName: string, customerPhone: string, customerEmail: string,
                          channel: Channel, paymentMethod: string): OrdersRoute.OrderRequest {
    OrdersRoute.OrderRequest(Some(customerName), Some(customerPhone),
                             if customerEmail == "" then None else Some(customerEmail),
                             Some(channel), Some(paymentMethod), Some(RequestLines(cart)), Some(StorePickup),
                             Some(Subtotal(cart)), Some(Subtotal(cart)), None)
  }

  // Facts about the cart functions.

  lemma KgAppend(cart: seq<SaleLine>, x: SaleLine, p: string)
    ensures KgInCart(cart + [x], p) == KgInCart(cart, p) + (if x.productId == p then KgOf(x) else 0.0)
  {
    assert (cart + [x])[..|cart|] == cart;
  }

  /** The kilograms the cart holds of `p` change only through the replaced line. */
  lemma {:induction false} KgUpdate(cart: seq<SaleLine>, i: nat, x: SaleLine, p: string)
    requires i < |cart|
    ensures KgInCart(cart[i := x], p)
         == KgInCart(cart, p) - (if cart[i].productId == p then KgOf(cart[i]) else 0.0)
                               + (if x.productId == p then KgOf(x) else 0.0)
    decreases |cart|
  {
    var n := |cart|;
    var c := cart[i := x];
    if i == n - 1 {
      assert c[..n - 1] == cart[..n - 1];
    } else {
      assert c[..n - 1] == cart[..n - 1][i := x];
      KgUpdate(cart[..n - 1], i, x, p);
    }
  }

  /** The same for the kilograms of the product's other sizes. */
  lemma {:induction false} OtherSizesUpdate(cart: seq<SaleLine>, i: nat, x: SaleLine, p: string, size: real)
    requires i < |cart| && SameKey(cart[i], p, size) && SameKey(x, p, size)
    ensures OtherSizesKg(cart[i := x], p, size) == OtherSizesKg(cart, p, size)
    decreases |cart|
  {
    var n := |cart|;
    var c := cart[i := x];
    if i == n - 1 {
      assert c[..n - 1] == cart[..n - 1];
    } else {
      assert c[..n - 1] == cart[..n - 1][i := x];
      OtherSizesUpdate(cart[..n - 1], i, x, p, size);
    }
  }

  /** Without a line of the key, all of the product's kilograms are in other sizes. */
  lemma {:induction false} NoKeyKg(cart: seq<SaleLine>, p: string, size: real)
    requires forall k :: 0 <= k < |cart| ==> !SameKey(cart[k], p, size)
    ensures KgInCart(cart, p) == OtherSizesKg(cart, p, size)
    decreases |cart|
  {
    if cart != [] {
      var init := cart[..|cart| - 1];
      assert forall k :: 0 <= k < |init| ==> init[k] == cart[k];
      NoKeyKg(init, p, size);
    }
  }

  /** A product's kilograms are its line of one size plus its other sizes. */
  lemma {:induction false} KgSplit(cart: seq<SaleLine>, i: nat, p: string, size: real)
    requires KeysUnique(cart) && i < |cart| && SameKey(cart[i], p, size)
    ensures KgInCart(cart, p) == OtherSizesKg(cart, p, size) + KgOf(cart[i])
    decreases |cart|
  {
    var n := |cart|;
    var init := cart[..n - 1];
    assert forall k :: 0 <= k < |init| ==> init[k] == cart[k];
    if i == n - 1 {
      forall k | 0 <= k < |init| ensures !SameKey(init[k], p, size) {
        assert !SameKey(cart[n - 1], cart[k].productId, cart[k].sizeKg);
      }
      NoKeyKg(init, p, size);
    } else {
      assert !SameKey(cart[n - 1], cart[i].productId, cart[i].sizeKg);
      KgSplit(init, i, p, size);
    }
  }

  lemma MergeIsUpdate(cart: seq<SaleLine>, i: nat, productId: string, sizeKg: real, quantity: int)
    requires KeysUnique(cart) && i < |cart| && SameKey(cart[i], productId, sizeKg)
    ensures MergeInto(cart, productId, sizeKg, quantity) == cart[i := cart[i].(quantity := cart[i].quantity + quantity)]
  {
    forall k | 0 <= k < |cart| && k != i ensures !SameKey(cart[k], productId, sizeKg) {
      if k < i {
        assert !SameKey(cart[i], cart[k].productId, cart[k].sizeKg);
      }
    }
  }

  lemma SetIsUpdate(cart: seq<SaleLine>, i: nat, productId: string, sizeKg: real, quantity: int)
    requires KeysUnique(cart) && i < |cart| && SameKey(cart[i], productId, sizeKg)
    ensures WithQuantity(cart, productId, sizeKg, quantity) == cart[i := cart[i].(quantity := quantity)]
  {
    forall k | 0 <= k < |cart| && k != i ensures !SameKey(cart[k], productId, sizeKg) {
      if k < i {
        assert !SameKey(cart[i], cart[k].productId, cart[k].sizeKg);
      }
    }
  }

  /** Changing one line's quantity keeps the keys unique. */
  lemma UpdateKeepsKeys(cart: seq<SaleLine>, i: nat, q: int)
    requires KeysUnique(cart) && i < |cart|
    ensures KeysUnique(cart[i := cart[i].(quantity := q)])
  {
    var r := cart[i := cart[i].(quantity := q)];
    forall a, b | 0 <= a < b < |r| ensures !SameKey(r[b], r[a].productId, r[a].sizeKg) {
      assert r[a].productId == cart[a].productId && r[a].sizeKg == cart[a].sizeKg;
      assert r[b].productId == cart[b].productId && r[b].sizeKg == cart[b].sizeKg;
    }
  }

  /** Kilograms of a line with `q` more bags. */
  lemma MoreBags(l: SaleLine, q: int)
    ensures KgOf(l.(quantity := l.quantity + q)) == KgOf(l) + BagsKg(l.sizeKg, q)
  {
    assert (l.quantity + q) as real == l.quantity as real + q as real;
  }

  /** Merging into the line at `i` adds the request's kilograms to its product. */
  lemma MergedKg(cart: seq<SaleLine>, i: nat, productId: string, sizeKg: real, quantity: int)
    requires KeysUnique(cart) && i < |cart| && SameKey(cart[i], productId, sizeKg)
    ensures KgInCart(MergeInto(cart, productId, sizeKg, quantity), productId)
         == KgInCart(cart, productId) + BagsKg(sizeKg, quantity)
  {
    var x := cart[i].(quantity := cart[i].quantity + quantity);
    MergeIsUpdate(cart, i, productId, sizeKg, quantity);
    KgUpdate(cart, i, x, productId);
    MoreBags(cart[i], quantity);
  }

  /** An add is refused exactly when it would take the product past its available kilograms,
      and then changes nothing. */
  lemma AddRefused(cart: seq<SaleLine>, product: ProductWithSizes, size: SizeOption, quantity: int)
    ensures var r := AddLine(cart, product, size, quantity);
      var requested := KgInCart(cart, product.id) + BagsKg(size.size, quantity);
      && (r.outcome.Insufficient? <==> requested > product.availableKg)
      && (r.outcome.Insufficient? ==> r.cart == cart && r.outcome.requestedKg == requested)
  {
  }

  /** An accepted add puts exactly the requested kilograms in the cart, so the product stays
      within its available kilograms. */
  lemma AddRespectsStock(cart: seq<SaleLine>, product: ProductWithSizes, size: SizeOption, quantity: int)
    requires KeysUnique(cart)
    ensures var r := AddLine(cart, product, size, quantity);
      var requested := KgInCart(cart, product.id) + BagsKg(size.size, quantity);
      !r.outcome.Insufficient? ==> KgInCart(r.cart, product.id) == requested <= product.availableKg
  {
    var i := IndexOf(cart, product.id, size.size);
    if i >= 0 {
      MergedKg(cart, i, product.id, size.size, quantity);
    } else {
      KgAppend(cart, NewLine(product, size, quantity), product.id);
    }
  }

  /** An add leaves every other product's kilograms as they were. */
  lemma AddKeepsOtherProducts(cart: seq<SaleLine>, product: ProductWithSizes, size: SizeOption, quantity: int, p: string)
    requires KeysUnique(cart) && p != product.id
    ensures KgInCart(AddLine(cart, product, size, quantity).cart, p) == KgInCart(cart, p)
  {
    var r := AddLine(cart, product, size, quantity);
    var i := IndexOf(cart, product.id, size.size);
    if !r.outcome.Insufficient? {
      if i >= 0 {
        MergeIsUpdate(cart, i, product.id, size.size, quantity);
        KgUpdate(cart, i, cart[i].(quantity := cart[i].quantity + quantity), p);
      } else {
        KgAppend(cart, NewLine(product, size, quantity), p);
      }
    }
  }

  /** Appending a line of a new key keeps the keys unique. */
  lemma AppendKeepsKeys(cart: seq<SaleLine>, n: SaleLine)
    requires KeysUnique(cart)
    requires forall k :: 0 <= k < |cart| ==> !SameKey(cart[k], n.productId, n.sizeKg)
    ensures KeysUnique(cart + [n])
  {
    var r := cart + [n];
    forall a, b | 0 <= a < b < |r| ensures !SameKey(r[b], r[a].productId, r[a].sizeKg) {
      assert r[a] == cart[a];
      if b < |cart| {
        assert r[b] == cart[b];
      }
    }
  }

  /** Whatever addToCart does, the keys stay unique. */
  lemma AddKeepsKeys(cart: seq<SaleLine>, product: ProductWithSizes, size: SizeOption, quantity: int)
    requires KeysUnique(cart)
    ensures KeysUnique(AddLine(cart, product, size, quantity).cart)
  {
    var r := AddLine(cart, product, size, quantity);
    var i := IndexOf(cart, product.id, size.size);
    if r.outcome.Merged? {
      MergeIsUpdate(cart, i, product.id, size.size, quantity);
      UpdateKeepsKeys(cart, i, cart[i].quantity + quantity);
    } else if r.outcome.Appended? {
      AppendKeepsKeys(cart, NewLine(product, size, quantity));
    }
  }

  /** A merge raises the existing line of the key by the requested bags and changes no other
      line. */
  lemma AddMerges(cart: seq<SaleLine>, product: ProductWithSizes, size: SizeOption, quantity: int)
    requires KeysUnique(cart)
    ensures var r := AddLine(cart, product, size, quantity);
      var i := IndexOf(cart, product.id, size.size);
      r.outcome.Merged? ==> i >= 0 && r.cart == cart[i := cart[i].(quantity := cart[i].quantity + quantity)]
  {
    var r := AddLine(cart, product, size, quantity);
    if r.outcome.Merged? {
      MergeIsUpdate(cart, IndexOf(cart, product.id, size.size), product.id, size.size, quantity);
    }
  }

  /** An accepted add of a new key appends one line, which carries the product's available
      kilograms. */
  lemma AddAppends(cart: seq<SaleLine>, product: ProductWithSizes, size: SizeOption, quantity: int)
    ensures var r := AddLine(cart, product, size, quantity);
      r.outcome.Appended? ==>
        && (forall k :: 0 <= k < |cart| ==> !SameKey(cart[k], product.id, size.size))
        && r.cart == cart + [SaleLine(product.id, product.name, size.size, size.price, quantity, product.availableKg)]
  {
  }

  /** A quantity below one bag, or a key not in the cart, is ignored and changes nothing; a
      refused change changes nothing either. */
  lemma UpdateIgnored(cart: seq<SaleLine>, productId: string, sizeKg: real, newQuantity: int)
    ensures var r := UpdateLine(cart, productId, sizeKg, newQuantity);
      && (newQuantity < 1 || IndexOf(cart, productId, sizeKg) == -1 ==> r.outcome == Ignored)
      && (!r.outcome.Changed? ==> r.cart == cart)
  {
  }

  lemma UpdateLineKeepsKeys(cart: seq<SaleLine>, productId: string, sizeKg: real, newQuantity: int)
    requires KeysUnique(cart)
    ensures KeysUnique(UpdateLine(cart, productId, sizeKg, newQuantity).cart)
  {
    var r := UpdateLine(cart, productId, sizeKg, newQuantity);
    if r.outcome.Changed? {
      var i := IndexOf(cart, productId, sizeKg);
      SetIsUpdate(cart, i, productId, sizeKg, newQuantity);
      UpdateKeepsKeys(cart, i, newQuantity);
    }
  }

  /** Setting the line of the key to `q` bags leaves the product at those bags' kilograms
      plus its other sizes. */
  lemma SetLineKg(cart: seq<SaleLine>, i: nat, productId: string, sizeKg: real, q: int)
    requires KeysUnique(cart) && i < |cart| && SameKey(cart[i], productId, sizeKg)
    ensures KgInCart(cart[i := cart[i].(quantity := q)], productId) == OtherSizesKg(cart, productId, sizeKg) + BagsKg(sizeKg, q)
  {
    var x := cart[i].(quantity := q);
    var c := cart[i := x];
    UpdateKeepsKeys(cart, i, q);
    KgSplit(c, i, productId, sizeKg);
    OtherSizesUpdate(cart, i, x, productId, sizeKg);
  }

  /** An accepted quantity change sets only that line, and leaves the product at the line's
      new kilograms plus its other sizes, within the line's copy of the available kilograms. */
  lemma UpdateRespectsStock(cart: seq<SaleLine>, productId: string, sizeKg: real, newQuantity: int)
    requires KeysUnique(cart)
    ensures var r := UpdateLine(cart, productId, sizeKg, newQuantity);
      var i := IndexOf(cart, productId, sizeKg);
      r.outcome.Changed? ==>
        && i >= 0 && r.cart == cart[i := cart[i].(quantity := newQuantity)]
        && KgInCart(r.cart, productId) == OtherSizesKg(cart, productId, sizeKg) + BagsKg(sizeKg, newQuantity)
        && KgInCart(r.cart, productId) <= cart[i].availableKg
  {
    var r := UpdateLine(cart, productId, sizeKg, newQuantity);
    if r.outcome.Changed? {
      var i := IndexOf(cart, productId, sizeKg);
      SetIsUpdate(cart, i, productId, sizeKg, newQuantity);
      SetLineKg(cart, i, productId, sizeKg, newQuantity);
    }
  }

  lemma RemoveAt(cart: seq<SaleLine>, i: nat, productId: string, sizeKg: real)
    requires KeysUnique(cart) && i < |cart| && SameKey(cart[i], productId, sizeKg)
    ensures RemoveLine(cart, productId, sizeKg) == cart[..i] + cart[i+1..]
  {
    var a, b := cart[..i], cart[i+1..];
    forall k | 0 <= k < |a| ensures NotKey(productId, sizeKg)(a[k]) {
      assert a[k] == cart[k];
      assert !SameKey(cart[i], cart[k].productId, cart[k].sizeKg);
    }
    forall k | 0 <= k < |b| ensures NotKey(productId, sizeKg)(b[k]) {
      assert b[k] == cart[i + 1 + k];
    }
    assert cart == a + [cart[i]] + b;
    SeqUtil.FilterDropOne(a, cart[i], b, NotKey(productId, sizeKg));
  }

  /** removeFromCart drops exactly the line of the key and keeps the others in order; an
      unknown key leaves the cart as it was. */
  lemma RemoveEffect(cart: seq<SaleLine>, productId: string, sizeKg: real)
    requires KeysUnique(cart)
    ensures var i := IndexOf(cart, productId, sizeKg);
      RemoveLine(cart, productId, sizeKg) == if i >= 0 then cart[..i] + cart[i+1..] else cart
  {
    var i := IndexOf(cart, productId, sizeKg);
    if i >= 0 {
      RemoveAt(cart, i, productId, sizeKg);
    } else {
      SeqUtil.FilterAll(cart, NotKey(productId, sizeKg));
    }
  }

  /** Dropping one line keeps the keys unique. */
  lemma DropKeepsKeys(cart: seq<SaleLine>, i: nat)
    requires KeysUnique(cart) && i < |cart|
    ensures KeysUnique(cart[..i] + cart[i+1..])
  {
    var r := cart[..i] + cart[i+1..];
    forall a, b | 0 <= a < b < |r| ensures !SameKey(r[b], r[a].productId, r[a].sizeKg) {
      var a' := if a < i then a else a + 1;
      var b' := if b < i then b else b + 1;
      assert r[a] == cart[a'] && r[b] == cart[b'] && a' < b';
    }
  }

  lemma RemoveKeepsKeys(cart: seq<SaleLine>, productId: string, sizeKg: real)
    requires KeysUnique(cart)
    ensures KeysUnique(RemoveLine(cart, productId, sizeKg))
  {
    RemoveEffect(cart, productId, sizeKg);
    var i := IndexOf(cart, productId, sizeKg);
    if i >= 0 {
      DropKeepsKeys(cart, i);
    }
  }

  /** What the order route computes from the posted lines agrees with the form: the same
      subtotal, and the same kilograms per product. */
  lemma {:induction false} RequestMatchesCart(cart: seq<SaleLine>, p: string)
    ensures SeqUtil.SumOf(RequestLines(cart), OrdersKg.LinePrice) == Subtotal(cart)
    ensures OrdersKg.KgFor(RequestLines(cart), p) == KgInCart(cart, p)
    decreases |cart|
  {
    if cart != [] {
      var init, x := cart[..|cart| - 1], cart[|cart| - 1];
      var lines := RequestLines(cart);
      assert cart == init + [x];
      assert lines[..|lines| - 1] == RequestLines(init);
      assert lines == RequestLines(init) + [RequestLine(x)];
      RequestMatchesCart(init, p);
      SeqUtil.SumOfAppend(RequestLines(init), [RequestLine(x)], OrdersKg.LinePrice);
      SeqUtil.SumOfAppend(init, [x], LineTotal);
    }
  }

  /** A form that passes its own checks also passes the order route's checks, and the order
      written for it carries the form's total. */
  lemma SubmittedFormIsAccepted(cart: seq<SaleLine>, customerName: string, customerPhone: string,
                                customerEmail: string, channel: Channel, paymentMethod: string,
                                customerId: string, orderId: string, orderNumber: string, today: Date)
    requires SubmitError(cart, customerName, customerPhone).None?
    ensures var body := OrderRequestOf(cart, customerName, customerPhone, customerEmail, channel, paymentMethod);
      && OrdersRoute.Validate(body).None?
      && OrdersKg.OrderRecord(OrdersRoute.OrderInputOf(body, customerId), orderId, orderNumber, today).total
           == Subtotal(cart)
  {
    RequestMatchesCart(cart, "");
  }

  /** The quantity box reads `parseInt(value) || 1`: a negative number passes, and the add
      puts a line with negative bags in the cart. */
  lemma NegativeQuantityAccepted(product: ProductWithSizes, size: SizeOption)
    requires size.size > 0.0 && product.availableKg >= 0.0
    ensures AddLine([], product, size, -2) == AddResult([NewLine(product, size, -2)], Appended)
  {
  }

  /** The form as the component holds it in state. */
  class SalesFormState {
    const products: seq<ProductWithSizes>
    var cart: seq<SaleLine>
    var channel: Channel
    var customerName: string
    var customerPhone: string
    var customerEmail: string
    var paymentMethod: string
    var selectedProduct: string
    /** The size picked in the size menu, None while nothing is picked. */
    var selectedSize: Option<real>
    var quantity: int

    predicate Valid()
      reads this
    {
      KeysUnique(cart)
    }

    constructor (products: seq<ProductWithSizes>)
      ensures this.products == products && cart == [] && Valid()
      ensures channel == Presencial && customerName == "" && customerPhone == "" && customerEmail == ""
      ensures paymentMethod == "efectivo" && selectedProduct == "" && selectedSize == None && quantity == 1
    {
      this.products := products;
      cart := [];
      channel := Presencial;
      customerName, customerPhone, customerEmail := "", "", "";
      paymentMethod := "efectivo";
      selectedProduct, selectedSize, quantity := "", None, 1;
    }

    function SelectedProductData(): Option<ProductWithSizes>
      reads this
    {
      var id := selectedProduct;
      SeqUtil.Find(products, (p: ProductWithSizes) => p.id == id)
    }

    function SelectedSizeData(): Option<SizeOption>
      reads this
    {
      var product := SelectedProductData();
      if product.None? || selectedSize.None? then None
      else
        var size := selectedSize.value;
        SeqUtil.Find(product.value.sizes, (s: SizeOption) => s.size == size)
    }

    /** The quantity box: `parsed` is what parseInt made of the input; a missing or zero
        number reads as one bag. */
    method SetQuantity(parsed: Option<int>)
      modifies this`quantity
      ensures quantity == if parsed.None? || parsed.value == 0 then 1 else parsed.value
    {
      quantity := if parsed.None? || parsed.value == 0 then 1 else parsed.value;
    }

    method SelectProduct(id: string)
      modifies this`selectedProduct
      ensures selectedProduct == id
    {
      selectedProduct := id;
    }

    method SelectSize(size: Option<real>)
      modifies this`selectedSize
      ensures selectedSize == size
    {
      selectedSize := size;
    }

    /** addToCart: nothing without a selection; a refused add keeps the selection, an
        accepted one resets it. */
    method AddToCart() returns (outcome: AddOutcome)
      modifies this`cart, this`selectedProduct, this`selectedSize, this`quantity
      ensures old(SelectedSizeData()).None? || old(SelectedProductData()).None? ==>
        outcome == NoSelection && cart == old(cart)
        && selectedProduct == old(selectedProduct) && selectedSize == old(selectedSize) && quantity == old(quantity)
      ensures old(SelectedSizeData()).Some? && old(SelectedProductData()).Some? ==>
        var r := AddLine(old(cart), old(SelectedProductData()).value, old(SelectedSizeData()).value, old(quantity));
        && cart == r.cart && outcome == r.outcome
        && (outcome.Insufficient? ==> selectedProduct == old(selectedProduct) && selectedSize == old(selectedSize) && quantity == old(quantity))
        && (!outcome.Insufficient? ==> selectedProduct == "" && selectedSize == None && quantity == 1)
      ensures old(Valid()) ==> Valid()
    {
      var sizeData := SelectedSizeData();
      var productData := SelectedProductData();
      if sizeData.None? || productData.None? {
        return NoSelection;
      }
      var product, size := productData.value, sizeData.value;
      ghost var r := AddLine(cart, product, size, quantity);
      if Valid() {
        AddKeepsKeys(cart, product, size, quantity);
      }
      var kgNeeded := BagsKg(size.size, quantity);
      var kgInCart := KgInCart(cart, product.id);
      var totalKgRequested := kgInCart + kgNeeded;
      if totalKgRequested > product.availableKg {
        assert r.outcome == Insufficient(product.availableKg, totalKgRequested) && r.cart == cart;
        return Insufficient(product.availableKg, totalKgRequested);
      }
      var existingItem := IndexOf(cart, product.id, size.size);
      if existingItem >= 0 {
        assert r == AddResult(MergeInto(cart, product.id, size.size, quantity), Merged);
        cart := MergeInto(cart, product.id, size.size, quantity);
        outcome := Merged;
      } else {
        assert r == AddResult(cart + [NewLine(product, size, quantity)], Appended);
        cart := cart + [NewLine(product, size, quantity)];
        outcome := Appended;
      }
      selectedProduct := "";
      selectedSize := None;
      quantity := 1;
    }

    method RemoveFromCart(productId: string, sizeKg: real)
      modifies this`cart
      ensures cart == RemoveLine(old(cart), productId, sizeKg)
      ensures old(Valid()) ==> Valid()
    {
      if Valid() {
        RemoveKeepsKeys(cart, productId, sizeKg);
      }
      cart := SeqUtil.Filter(cart, NotKey(productId, sizeKg));
    }

    method UpdateQuantity(productId: string, sizeKg: real, newQuantity: int) returns (outcome: UpdateOutcome)
      modifies this`cart
      ensures var r := UpdateLine(old(cart), productId, sizeKg, newQuantity);
        cart == r.cart && outcome == r.outcome
      ensures old(Valid()) ==> Valid()
    {
      if Valid() {
        UpdateLineKeepsKeys(cart, productId, sizeKg, newQuantity);
      }
      if newQuantity < 1 {
        return Ignored;
      }
      var i := IndexOf(cart, productId, sizeKg);
      if i == -1 {
        return Ignored;
      }
      var item := cart[i];
      var newTotalKg := BagsKg(sizeKg, newQuantity);
      var otherItemsKg := OtherSizesKg(cart, productId, sizeKg);
      if newTotalKg + otherItemsKg > item.availableKg {
        return OverStock(item.availableKg);
      }
      cart := WithQuantity(cart, productId, sizeKg, newQuantity);
      outcome := Changed;
    }

    function Total(): real
      reads this
    {
      Subtotal(cart)
    }

    /** handleSubmit. The checks run first; a passing form posts its order, and `accepted` is
        the `success` flag of the route's answer: on success the cart and the customer fields
        are cleared, otherwise the form stays as it was. */
    method HandleSubmit(accepted: bool) returns (err: Option<string>, sent: Option<OrdersRoute.OrderRequest>)
      modifies this`cart, this`customerName, this`customerPhone, this`customerEmail, this`paymentMethod
      ensures err == SubmitError(old(cart), old(customerName), old(customerPhone))
      ensures err.Some? ==>
        (sent.None? && cart == old(cart) && customerName == old(customerName)
         && customerPhone == old(customerPhone) && customerEmail == old(customerEmail) && paymentMethod == old(paymentMethod))
      ensures err.None? ==> sent == Some(OrderRequestOf(old(cart), old(customerName), old(customerPhone),
                                                        old(customerEmail), channel, old(paymentMethod)))
      ensures err.None? && accepted ==>
        (cart == [] && customerName == "" && customerPhone == "" && customerEmail == "" && paymentMethod == "efectivo")
      ensures err.None? && !accepted ==>
        (cart == old(cart) && customerName == old(customerName)
         && customerPhone == old(customerPhone) && customerEmail == old(customerEmail) && paymentMethod == old(paymentMethod))
    {
      err := SubmitError(cart, customerName, customerPhone);
      if err.Some? {
        return err, None;
      }
      sent := Some(OrderRequestOf(cart, customerName, customerPhone, customerEmail, channel, paymentMethod));
      if accepted {
        cart := [];
        customerName, customerPhone, customerEmail := "", "", "";
        paymentMethod := "efectivo";
      }
    }
  }
}
