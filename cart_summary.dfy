/** The cart summary panel: shipping is free above 5000 and 800 otherwise, the amount due is
    the cart total plus shipping, and an empty cart shows only its empty state. */
module CartSummary {
  import opened Wrappers
  import opened CartStore

  const FreeShippingAbove: real := 5000.0
  const ShippingFee: real := 800.0

  datatype SummaryView =
    | EmptyCart
    | Totals(totalItems: int, totalPrice: real, shippingCost: real, finalTotal: real)

  function ShippingCost(totalPrice: real): (r: real)
    ensures r == 0.0 <==> totalPrice > FreeShippingAbove
    ensures r == 0.0 || r == ShippingFee
  {
    if totalPrice > FreeShippingAbove then 0.0 else ShippingFee
  }

  function FinalTotal(totalPrice: real): (r: real)
    ensures r >= totalPrice
    ensures r - totalPrice == ShippingCost(totalPrice)
  {
    totalPrice + ShippingCost(totalPrice)
  }

  /** What the panel shows for the cart's lines. */
  function Summary(items: seq<CartItem>): (v: SummaryView)
    ensures v.EmptyCart? <==> items == []
    ensures v.Totals? ==> v.totalItems == TotalItems(items) && v.totalPrice == TotalPrice(items)
    ensures v.Totals? ==> v.finalTotal == v.totalPrice + v.shippingCost
                          && (v.shippingCost == 0.0 <==> v.totalPrice > FreeShippingAbove)
  {
    var totalPrice := TotalPrice(items);
    var shippingCost := ShippingCost(totalPrice);
    var finalTotal := totalPrice + shippingCost;
    if |items| == 0 then EmptyCart
    else Totals(TotalItems(items), totalPrice, shippingCost, finalTotal)
  }

  /** Only a panel with lines offers the checkout button. */
  predicate OffersCheckout(v: SummaryView) {
    v.Totals?
  }

  /** A cart of exactly 5000 still pays shipping. */
  lemma ThresholdPaysShipping()
    ensures ShippingCost(5000.0) == 800.0 && FinalTotal(5000.0) == 5800.0
    ensures ShippingCost(5000.5) == 0.0 && FinalTotal(5000.5) == 5000.5
  {
  }

  /** The amount due is not monotone in the cart total: just above the threshold it drops by
      up to the shipping fee. */
  lemma FinalTotalDropsAtThreshold(t: real)
    requires FreeShippingAbove < t < FreeShippingAbove + ShippingFee
    ensures FinalTotal(t) < FinalTotal(FreeShippingAbove)
  {
  }

  /** Hence adding one bag to a cart can lower what the customer pays. */
  lemma AddingABagCanLowerTheBill()
    ensures var items := [CartItem("p", "Yerba", 1.0, 4900.0, 1, None)];
      var more := Added(items, NewItem("q", "Yerba", 0.5, 200.0, None));
      && Summary(items).finalTotal == 5700.0
      && Summary(more).finalTotal == 5100.0
  {
    var items := [CartItem("p", "Yerba", 1.0, 4900.0, 1, None)];
    var n := NewItem("q", "Yerba", 0.5, 200.0, None);
    AddTotals(items, n);
    assert TotalPrice(items) == 4900.0 by {
      assert items[1..] == [];
    }
  }

  lemma EmptyCartHasNoCheckout()
    ensures !OffersCheckout(Summary([]))
    ensures forall items :: items != [] ==> OffersCheckout(Summary(items))
  {
  }
}
