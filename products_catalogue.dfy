/** The price rules of the kilogram catalogue: the price of one package size, and the sizes a
    product can be bought in, each with its price, smallest first. */
module ProductsCatalogue {
  import opened Wrappers
  import opened KgSchema
  import SeqUtil

  /** `pricesPerKg[size] || 0`: a missing price reads as zero. */
  function PriceOrZero(prices: map<real, real>, size: real): real {
    if size in prices then prices[size] else 0.0
  }

  /** getPriceForSize: null without a price map, and null when the size has no price or a
      price of zero; any other price, negative ones included, is returned as it is. */
  function PriceForSize(p: Product, size: real): (r: Option<real>)
    ensures p.pricesPerKg.None? ==> r.None?
    ensures p.pricesPerKg.Some? ==>
      (r.Some? <==> size in p.pricesPerKg.value && p.pricesPerKg.value[size] != 0.0)
    ensures r.Some? ==> r.value == p.pricesPerKg.value[size] && r.value != 0.0
  {
    if p.pricesPerKg.None? then None
    else
      var price := PriceOrZero(p.pricesPerKg.value, size);
      if price != 0.0 then Some(price) else None
  }

  datatype SizePrice = SizePrice(size: real, price: real)

  function SizeOf(x: SizePrice): real { x.size }

  predicate Priced(x: SizePrice) { x.price > 0.0 }

  /** `sizes.map(size => ({ size, price: prices[size] || 0 }))`. */
  function WithPrices(sizes: seq<real>, prices: map<real, real>): (r: seq<SizePrice>)
    ensures |r| == |sizes|
    ensures forall i :: 0 <= i < |sizes| ==> r[i] == SizePrice(sizes[i], PriceOrZero(prices, sizes[i]))
  {
    seq(|sizes|, i requires 0 <= i < |sizes| => SizePrice(sizes[i], PriceOrZero(prices, sizes[i])))
  }

  /** getAvailableSizesWithPrices: [] unless both sizes and prices are present; otherwise the
      sizes whose price is positive, with their prices, by ascending size. */
  function SizesWithPrices(p: Product): (r: seq<SizePrice>)
    ensures p.availableSizes.None? || p.pricesPerKg.None? ==> r == []
    ensures SeqUtil.SortedBy(r, SizeOf)
    ensures p.availableSizes.Some? && p.pricesPerKg.Some? ==>
      forall x :: multiset(r)[x] ==
        if Priced(x) then multiset(WithPrices(p.availableSizes.value, p.pricesPerKg.value))[x] else 0
  {
    if p.availableSizes.None? || p.pricesPerKg.None? then []
    else SeqUtil.SortBy(SeqUtil.Filter(WithPrices(p.availableSizes.value, p.pricesPerKg.value), Priced), SizeOf)
  }

  /** A pair is offered exactly when its size is one of the product's sizes and its price is
      that size's positive price. */
  lemma SizesWithPricesMembers(p: Product, x: SizePrice)
    requires p.availableSizes.Some? && p.pricesPerKg.Some?
    ensures x in SizesWithPrices(p) <==>
      x.size in p.availableSizes.value && x.price == PriceOrZero(p.pricesPerKg.value, x.size) && x.price > 0.0
  {
    var sizes, prices := p.availableSizes.value, p.pricesPerKg.value;
    var w := WithPrices(sizes, prices);
    var r := SizesWithPrices(p);
    assert x in r <==> multiset(r)[x] > 0;
    assert x in w <==> multiset(w)[x] > 0;
    if x.size in sizes {
      var i :| 0 <= i < |sizes| && sizes[i] == x.size;
      assert w[i] == SizePrice(x.size, PriceOrZero(prices, x.size));
    }
  }

  /** Every pair offered carries the price getPriceForSize gives for that size. */
  lemma OfferedPriceAgrees(p: Product, x: SizePrice)
    requires x in SizesWithPrices(p)
    ensures PriceForSize(p, x.size) == Some(x.price)
  {
    if p.availableSizes.Some? && p.pricesPerKg.Some? {
      SizesWithPricesMembers(p, x);
    }
  }

  /** Each size appears as often as it is listed, provided it has a positive price. */
  lemma SizesWithPricesCount(p: Product, s: real)
    requires p.availableSizes.Some? && p.pricesPerKg.Some?
    requires PriceOrZero(p.pricesPerKg.value, s) > 0.0
    ensures multiset(SizesWithPrices(p))[SizePrice(s, PriceOrZero(p.pricesPerKg.value, s))] ==
            multiset(p.availableSizes.value)[s]
  {
    var sizes, prices := p.availableSizes.value, p.pricesPerKg.value;
    WithPricesCount(sizes, prices, s);
  }

  lemma {:induction false} WithPricesCount(sizes: seq<real>, prices: map<real, real>, s: real)
    ensures multiset(WithPrices(sizes, prices))[SizePrice(s, PriceOrZero(prices, s))] == multiset(sizes)[s]
    decreases |sizes|
  {
    if sizes != [] {
      var w := WithPrices(sizes, prices);
      var x := SizePrice(s, PriceOrZero(prices, s));
      calc {
        multiset(w)[x];
        { assert w == [w[0]] + w[1..]; }
        multiset([w[0]])[x] + multiset(w[1..])[x];
        { assert WithPrices(sizes[1..], prices) == w[1..];
          WithPricesCount(sizes[1..], prices, s); }
        multiset([w[0]])[x] + multiset(sizes[1..])[s];
        { assert w[0] == x <==> sizes[0] == s; }
        multiset([sizes[0]])[s] + multiset(sizes[1..])[s];
        { assert sizes == [sizes[0]] + sizes[1..]; }
        multiset(sizes)[s];
      }
    }
  }
}
