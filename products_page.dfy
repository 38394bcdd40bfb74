/** The products screen: the search filter over the cached items and the promotional price
    each product card shows. */
module ProductsPage {
  import opened Maybe
  import opened Seqs
  import opened Text
  import opened Dates
  import opened Items

  /** `product.promotionEnd && new Date(product.promotionEnd) >= new Date()` */
  predicate IsPromotionActive(product: Item, now: Date) {
    product.promotionEnd.Some? && Le(now, product.promotionEnd.value)
  }

  /** `product.discount` is truthy: present and not zero. */
  predicate HasDiscount(product: Item) {
    product.discount.Some? && product.discount.value != 0.0
  }

  /** The price the card shows: discounted by `discount` percent while a promotion with a
      truthy discount runs, the list price otherwise. */
  function DisplayPrice(product: Item, now: Date): (r: real)
    ensures !HasDiscount(product) ==> r == product.price
    ensures !IsPromotionActive(product, now) ==> r == product.price
    ensures IsPromotionActive(product, now) && HasDiscount(product) ==>
      r == product.price * (1.0 - product.discount.value / 100.0)
  {
    if IsPromotionActive(product, now) && HasDiscount(product) then
      product.price * (1.0 - product.discount.value / 100.0)
    else product.price
  }

  /** The card strikes through the list price exactly when it shows a discounted one. */
  predicate ShowsStrikeThrough(product: Item, now: Date) {
    HasDiscount(product) && IsPromotionActive(product, now)
  }

  /** A discount between 0 and 100 percent keeps the shown price between 0 and the list
      price, and a real discount on a positive price lowers it strictly. */
  lemma DisplayPriceBounds(product: Item, now: Date)
    requires product.price >= 0.0
    requires product.discount.Some? ==> 0.0 <= product.discount.value <= 100.0
    ensures 0.0 <= DisplayPrice(product, now) <= product.price
    ensures ShowsStrikeThrough(product, now) && product.price > 0.0 && product.discount.value > 0.0 ==>
      DisplayPrice(product, now) < product.price
  {
    if ShowsStrikeThrough(product, now) {
      var d := product.discount.value;
      assert 0.0 <= 1.0 - d / 100.0 <= 1.0;
      MulBetween(product.price, 1.0 - d / 100.0);
      if product.price > 0.0 && d > 0.0 {
        assert 1.0 - d / 100.0 < 1.0;
        assert product.price * (1.0 - d / 100.0) < product.price * 1.0;
      }
    }
  }

  lemma MulBetween(x: real, f: real)
    requires x >= 0.0 && 0.0 <= f <= 1.0
    ensures 0.0 <= x * f <= x
  {
    assert x * f <= x * 1.0;
  }

  /** Nothing clamps the discount: above 100 percent a running promotion shows a negative
      price. */
  lemma DiscountIsNotClamped(product: Item, now: Date)
    requires IsPromotionActive(product, now) && product.price > 0.0
    requires product.discount.Some? && product.discount.value > 100.0
    ensures DisplayPrice(product, now) < 0.0
  {
    var f := 1.0 - product.discount.value / 100.0;
    assert f < 0.0;
    assert DisplayPrice(product, now) == product.price * f;
    assert product.price * (-f) > 0.0;
  }

  /** A promotion whose end has passed shows the list price, whatever the discount. */
  lemma ExpiredPromotionShowsListPrice(product: Item, now: Date)
    requires product.promotionEnd.Some? && Le(product.promotionEnd.value, now)
    requires product.promotionEnd.value != now
    ensures !ShowsStrikeThrough(product, now) && DisplayPrice(product, now) == product.price
  {
    LeTotal(now, product.promotionEnd.value);
  }

  predicate NameMatches(item: Item, term: string) {
    IncludesIgnoringCase(item.name, term)
  }

  /** `items.filter(item => item.name.toLowerCase().includes(searchTerm.toLowerCase()))` */
  function FilteredProducts(items: seq<Item>, term: string): (r: seq<Item>)
    ensures IsSubsequence(r, items)
    ensures forall p :: p in r <==> p in items && IncludesIgnoringCase(p.name, term)
    ensures forall p :: multiset(r)[p] == if NameMatches(p, term) then multiset(items)[p] else 0
  {
    Filter(items, (p: Item) => NameMatches(p, term))
  }

  /** An empty search shows every product, in order. */
  lemma EmptySearchShowsAll(items: seq<Item>)
    ensures FilteredProducts(items, "") == items
  {
    forall i | 0 <= i < |items| ensures NameMatches(items[i], "") {
      EmptyTermMatchesAll(items[i].name);
    }
    FilterKeepsAll(items, (p: Item) => NameMatches(p, ""));
  }
}
