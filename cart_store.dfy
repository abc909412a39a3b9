/** The shop's client-side cart (the persisted `useCartStore`): a list of lines keyed by
    product and bag size, with the store's add, remove, update and clear actions and its two
    totals. */
module CartStore {
  import opened Wrappers
  import SeqUtil

  datatype CartItem = CartItem(productId: string, productName: string, sizeKg: real,
                               price: real, quantity: int, image: Option<string>)

  /** What `addItem` receives: a line without its quantity. */
  datatype NewItem = NewItem(productId: string, productName: string, sizeKg: real,
                             price: real, image: Option<string>)

  /** A line belongs to the key (productId, sizeKg). */
  predicate Matches(it: CartItem, productId: string, sizeKg: real) {
    it.productId == productId && it.sizeKg == sizeKg
  }

  function Other(productId: string, sizeKg: real): CartItem -> bool {
    it => !Matches(it, productId, sizeKg)
  }

  /** No two lines share a (productId, sizeKg) key. */
  predicate KeysUnique(items: seq<CartItem>) {
    forall i, j :: 0 <= i < j < |items| ==> !Matches(items[j], items[i].productId, items[i].sizeKg)
  }

  /** `findIndex` on the key: the first matching position, or -1. */
  function FindIndex(items: seq<CartItem>, productId: string, sizeKg: real): (r: int)
    ensures -1 <= r < |items|
    ensures r == -1 <==> forall k :: 0 <= k < |items| ==> !Matches(items[k], productId, sizeKg)
    ensures r >= 0 ==> Matches(items[r], productId, sizeKg)
                       && forall k :: 0 <= k < r ==> !Matches(items[k], productId, sizeKg)
  {
    if items == [] then -1
    else if Matches(items[0], productId, sizeKg) then 0
    else
      var r := FindIndex(items[1..], productId, sizeKg);
      assert forall k :: 1 <= k < |items| ==> items[k] == items[1..][k - 1];
      if r == -1 then -1 else r + 1
  }

  function FirstLine(n: NewItem): CartItem {
    CartItem(n.productId, n.productName, n.sizeKg, n.price, 1, n.image)
  }

  /** The cart after `addItem(n)`. */
  function Added(items: seq<CartItem>, n: NewItem): seq<CartItem> {
    var i := FindIndex(items, n.productId, n.sizeKg);
    if i > -1 then items[i := items[i].(quantity := items[i].quantity + 1)]
    else items + [FirstLine(n)]
  }

  /** The cart after `removeItem(productId, sizeKg)`. */
  function Removed(items: seq<CartItem>, productId: string, sizeKg: real): seq<CartItem> {
    SeqUtil.Filter(items, Other(productId, sizeKg))
  }

  /** The cart after `updateQuantity(productId, sizeKg, quantity)`. */
  function Updated(items: seq<CartItem>, productId: string, sizeKg: real, quantity: int): seq<CartItem> {
    if quantity <= 0 then Removed(items, productId, sizeKg)
    else seq(|items|, k requires 0 <= k < |items| =>
               if Matches(items[k], productId, sizeKg) then items[k].(quantity := quantity) else items[k])
  }

  /** `getTotalItems`: the number of bags in the cart. */
  function TotalItems(items: seq<CartItem>): int {
    if items == [] then 0 else items[0].quantity + TotalItems(items[1..])
  }

  function LinePrice(it: CartItem): real {
    it.price * it.quantity as real
  }

  /** `getTotalPrice`: what the cart costs. */
  function TotalPrice(items: seq<CartItem>): real {
    SeqUtil.SumOf(items, LinePrice)
  }

  lemma {:induction false} TotalItemsAppend(a: seq<CartItem>, b: seq<CartItem>)
    ensures TotalItems(a + b) == TotalItems(a) + TotalItems(b)
  {
    if a == [] {
      assert a + b == b;
    } else {
      assert (a + b)[1..] == a[1..] + b;
      TotalItemsAppend(a[1..], b);
    }
  }

  lemma TotalItemsSplit(s: seq<CartItem>, k: nat)
    requires k < |s|
    ensures TotalItems(s) == TotalItems(s[..k]) + s[k].quantity + TotalItems(s[k+1..])
  {
    assert s == s[..k] + ([s[k]] + s[k+1..]);
    TotalItemsAppend(s[..k], [s[k]] + s[k+1..]);
    assert ([s[k]] + s[k+1..])[1..] == s[k+1..];
  }

  /** Replacing one line changes the bag count by the difference of the two quantities. */
  lemma TotalItemsUpdate(s: seq<CartItem>, k: nat, x: CartItem)
    requires k < |s|
    ensures TotalItems(s[k := x]) == TotalItems(s) - s[k].quantity + x.quantity
  {
    TotalItemsSplit(s, k);
    TotalItemsSplit(s[k := x], k);
    assert s[k := x][..k] == s[..k] && s[k := x][k+1..] == s[k+1..];
  }

  /** With unique keys, the line holding a key is the one findIndex returns. */
  lemma FindIndexUnique(items: seq<CartItem>, k: nat, productId: string, sizeKg: real)
    requires KeysUnique(items)
    requires k < |items| && Matches(items[k], productId, sizeKg)
    ensures FindIndex(items, productId, sizeKg) == k
  {
  }

  /** addItem on a key already in the cart adds one bag to that line and to no other; on a
      new key it appends the item with quantity 1. */
  lemma AddItemEffect(items: seq<CartItem>, n: NewItem)
    requires KeysUnique(items)
    ensures var r := Added(items, n);
      if exists k :: 0 <= k < |items| && Matches(items[k], n.productId, n.sizeKg) then
        |r| == |items|
        && forall k :: 0 <= k < |items| ==>
             r[k] == if Matches(items[k], n.productId, n.sizeKg) then items[k].(quantity := items[k].quantity + 1)
                     else items[k]
      else r == items + [CartItem(n.productId, n.productName, n.sizeKg, n.price, 1, n.image)]
  {
    var i := FindIndex(items, n.productId, n.sizeKg);
    if i >= 0 {
      forall k | 0 <= k < |items| && Matches(items[k], n.productId, n.sizeKg) ensures k == i {
        FindIndexUnique(items, k, n.productId, n.sizeKg);
      }
    }
  }

  lemma AddKeepsUnique(items: seq<CartItem>, n: NewItem)
    requires KeysUnique(items)
    ensures KeysUnique(Added(items, n))
  {
    var r := Added(items, n);
    var i := FindIndex(items, n.productId, n.sizeKg);
    if i > -1 {
      forall a, b | 0 <= a < b < |r| ensures !Matches(r[b], r[a].productId, r[a].sizeKg) {
        assert r[a].productId == items[a].productId && r[a].sizeKg == items[a].sizeKg;
        assert r[b].productId == items[b].productId && r[b].sizeKg == items[b].sizeKg;
      }
    }
  }

  lemma OneMoreBag(it: CartItem)
    ensures LinePrice(it.(quantity := it.quantity + 1)) == LinePrice(it) + it.price
  {
    assert (it.quantity + 1) as real == it.quantity as real + 1.0;
  }

  /** One more bag in the cart; the price grows by the matching line's price, which is kept
      even when the item passed in carries another one. */
  lemma AddTotals(items: seq<CartItem>, n: NewItem)
    ensures var i := FindIndex(items, n.productId, n.sizeKg);
      && TotalItems(Added(items, n)) == TotalItems(items) + 1
      && TotalPrice(Added(items, n)) == TotalPrice(items) + (if i >= 0 then items[i].price else n.price)
  {
    var i := FindIndex(items, n.productId, n.sizeKg);
    if i > -1 {
      var x := items[i].(quantity := items[i].quantity + 1);
      TotalItemsUpdate(items, i, x);
      SeqUtil.SumOfUpdate(items, i, x, LinePrice);
      OneMoreBag(items[i]);
    } else {
      TotalItemsAppend(items, [FirstLine(n)]);
      assert [FirstLine(n)][1..] == [];
      SeqUtil.SumOfAppend(items, [FirstLine(n)], LinePrice);
    }
  }

  /** With unique keys, removing the line at the first match leaves the lines around it. */
  lemma RemoveFound(items: seq<CartItem>, i: nat, productId: string, sizeKg: real)
    requires KeysUnique(items) && i < |items| && Matches(items[i], productId, sizeKg)
    ensures Removed(items, productId, sizeKg) == items[..i] + items[i+1..]
  {
    var p := Other(productId, sizeKg);
    var a, b := items[..i], items[i+1..];
    forall k | 0 <= k < |b| ensures p(b[k]) {
      assert b[k] == items[i + 1 + k];
    }
    forall k | 0 <= k < |a| ensures p(a[k]) {
      assert a[k] == items[k];
    }
    assert items == a + [items[i]] + b;
    SeqUtil.FilterDropOne(a, items[i], b, p);
  }

  /** removeItem drops the one line with the key and keeps the rest in order; an unknown key
      leaves the cart as it was. */
  lemma RemoveEffect(items: seq<CartItem>, productId: string, sizeKg: real)
    requires KeysUnique(items)
    ensures var i := FindIndex(items, productId, sizeKg);
      Removed(items, productId, sizeKg) == if i >= 0 then items[..i] + items[i+1..] else items
  {
    var i := FindIndex(items, productId, sizeKg);
    if i >= 0 {
      RemoveFound(items, i, productId, sizeKg);
    } else {
      SeqUtil.FilterAll(items, Other(productId, sizeKg));
    }
  }

  /** Dropping one line keeps the keys unique. */
  lemma DropKeepsUnique(items: seq<CartItem>, i: nat)
    requires KeysUnique(items) && i < |items|
    ensures KeysUnique(items[..i] + items[i+1..])
  {
    var r := items[..i] + items[i+1..];
    forall a, b | 0 <= a < b < |r| ensures !Matches(r[b], r[a].productId, r[a].sizeKg) {
      var a' := if a < i then a else a + 1;
      var b' := if b < i then b else b + 1;
      assert r[a] == items[a'] && r[b] == items[b'] && a' < b';
    }
  }

  lemma RemoveKeepsUnique(items: seq<CartItem>, productId: string, sizeKg: real)
    requires KeysUnique(items)
    ensures KeysUnique(Removed(items, productId, sizeKg))
  {
    RemoveEffect(items, productId, sizeKg);
    var i := FindIndex(items, productId, sizeKg);
    if i >= 0 {
      DropKeepsUnique(items, i);
    }
  }

  lemma RemoveTotals(items: seq<CartItem>, productId: string, sizeKg: real)
    requires KeysUnique(items)
    ensures var i := FindIndex(items, productId, sizeKg);
      && TotalItems(Removed(items, productId, sizeKg)) == TotalItems(items) - (if i >= 0 then items[i].quantity else 0)
      && TotalPrice(Removed(items, productId, sizeKg)) == TotalPrice(items) - (if i >= 0 then LinePrice(items[i]) else 0.0)
  {
    RemoveEffect(items, productId, sizeKg);
    var i := FindIndex(items, productId, sizeKg);
    if i >= 0 {
      TotalItemsSplit(items, i);
      TotalItemsAppend(items[..i], items[i+1..]);
      SeqUtil.SumOfRemove(items, i, LinePrice);
    }
  }

  /** updateQuantity with a positive quantity sets that line's quantity and touches nothing
      else; an unknown key leaves the cart as it was. */
  lemma UpdateEffect(items: seq<CartItem>, productId: string, sizeKg: real, quantity: int)
    requires KeysUnique(items) && quantity > 0
    ensures var i := FindIndex(items, productId, sizeKg);
      Updated(items, productId, sizeKg, quantity)
        == if i >= 0 then items[i := items[i].(quantity := quantity)] else items
  {
    var r := Updated(items, productId, sizeKg, quantity);
    var i := FindIndex(items, productId, sizeKg);
    if i >= 0 {
      forall k | 0 <= k < |items| && Matches(items[k], productId, sizeKg) ensures k == i {
        FindIndexUnique(items, k, productId, sizeKg);
      }
      assert r == items[i := items[i].(quantity := quantity)];
    } else {
      assert r == items;
    }
  }

  lemma UpdateKeepsUnique(items: seq<CartItem>, productId: string, sizeKg: real, quantity: int)
    requires KeysUnique(items)
    ensures KeysUnique(Updated(items, productId, sizeKg, quantity))
  {
    if quantity <= 0 {
      RemoveKeepsUnique(items, productId, sizeKg);
    } else {
      var r := Updated(items, productId, sizeKg, quantity);
      forall a, b | 0 <= a < b < |r| ensures !Matches(r[b], r[a].productId, r[a].sizeKg) {
        assert r[a].productId == items[a].productId && r[a].sizeKg == items[a].sizeKg;
        assert r[b].productId == items[b].productId && r[b].sizeKg == items[b].sizeKg;
      }
    }
  }

  /** Setting a line to `quantity` bags replaces that line's share of both totals. */
  lemma UpdateTotals(items: seq<CartItem>, productId: string, sizeKg: real, quantity: int)
    requires KeysUnique(items) && quantity > 0
    ensures var i := FindIndex(items, productId, sizeKg);
      && TotalItems(Updated(items, productId, sizeKg, quantity))
           == TotalItems(items) + (if i >= 0 then quantity - items[i].quantity else 0)
      && TotalPrice(Updated(items, productId, sizeKg, quantity))
           == TotalPrice(items) + (if i >= 0 then items[i].price * (quantity - items[i].quantity) as real else 0.0)
  {
    UpdateEffect(items, productId, sizeKg, quantity);
    var i := FindIndex(items, productId, sizeKg);
    if i >= 0 {
      var x := items[i].(quantity := quantity);
      TotalItemsUpdate(items, i, x);
      SeqUtil.SumOfUpdate(items, i, x, LinePrice);
    }
  }

  class Cart {
    var items: seq<CartItem>

    predicate Valid()
      reads this
    {
      KeysUnique(items)
    }

    constructor ()
      ensures items == [] && Valid()
    {
      items := [];
    }

    method AddItem(newItem: NewItem)
      modifies this
      ensures items == Added(old(items), newItem)
      ensures old(Valid()) ==> Valid()
    {
      if Valid() {
        AddKeepsUnique(items, newItem);
      }
      var existingItemIndex := FindIndex(items, newItem.productId, newItem.sizeKg);
      if existingItemIndex > -1 {
        var updatedItems := items;
        var line := updatedItems[existingItemIndex];
        updatedItems := updatedItems[existingItemIndex := line.(quantity := line.quantity + 1)];
        items := updatedItems;
      } else {
        items := items + [FirstLine(newItem)];
      }
    }

    method RemoveItem(productId: string, sizeKg: real)
      modifies this
      ensures items == Removed(old(items), productId, sizeKg)
      ensures old(Valid()) ==> Valid()
    {
      if Valid() {
        RemoveKeepsUnique(items, productId, sizeKg);
      }
      items := SeqUtil.Filter(items, Other(productId, sizeKg));
    }

    /** A quantity of zero or less is a removal. */
    method UpdateQuantity(productId: string, sizeKg: real, quantity: int)
      modifies this
      ensures items == Updated(old(items), productId, sizeKg, quantity)
      ensures old(Valid()) ==> Valid()
    {
      if quantity <= 0 {
        RemoveItem(productId, sizeKg);
        return;
      }
      if Valid() {
        UpdateKeepsUnique(items, productId, sizeKg, quantity);
      }
      var current := items;
      items := seq(|current|, k requires 0 <= k < |current| =>
                     if Matches(current[k], productId, sizeKg) then current[k].(quantity := quantity) else current[k]);
    }

    method ClearCart()
      modifies this
      ensures items == [] && Valid()
    {
      items := [];
    }

    function GetTotalItems(): int
      reads this
    {
      TotalItems(items)
    }

    function GetTotalPrice(): real
      reads this
    {
      TotalPrice(items)
    }
  }
}
