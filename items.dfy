/** The catalog item of the item store, the partial items its operations take, and the
    rules that turn a partial item into form entries and merge a server reply into an item. */
module Items {
  import opened Maybe
  import opened Seqs
  import opened Http
  import opened Dates

  datatype QuantityOffer = QuantityOffer(quantity: real, price: real)

  /** An `Item` as the product list holds it: the optional properties are `Option`s, and
      `promotionEnd` is the instant that `new Date(promotionEnd)` denotes. */
  datatype Item = Item(
    id: string,
    category: string,
    name: string,
    image: string,
    price: real,
    discountedPrice: Option<real>,
    description: string,
    weight: real,
    stockQuantity: real,
    unit: string,
    discount: Option<real>,
    promotionEnd: Option<Date>,
    supermarket: string,
    quantityOffers: Option<seq<QuantityOffer>>
  )

  /** The property names of `Item`. */
  datatype ItemKey =
    | IdKey | CategoryKey | NameKey | ImageKey | PriceKey | DiscountedPriceKey | DescriptionKey
    | WeightKey | StockQuantityKey | UnitKey | DiscountKey | PromotionEndKey | SupermarketKey
    | QuantityOffersKey

  function KeyName(k: ItemKey): (name: string)
    ensures name != ""
  {
    match k
    case IdKey => "_id"
    case CategoryKey => "category"
    case NameKey => "name"
    case ImageKey => "image"
    case PriceKey => "price"
    case DiscountedPriceKey => "discountedPrice"
    case DescriptionKey => "description"
    case WeightKey => "weight"
    case StockQuantityKey => "stockQuantity"
    case UnitKey => "unit"
    case DiscountKey => "discount"
    case PromotionEndKey => "promotionEnd"
    case SupermarketKey => "supermarket"
    case QuantityOffersKey => "quantityOffers"
  }

  /** Different properties have different names, so a form entry's key says which
      property it came from. */
  lemma KeyNameInjective(a: ItemKey, b: ItemKey)
    requires KeyName(a) == KeyName(b)
    ensures a == b
  {
    assert KeyName(a)[0] == KeyName(b)[0];
    if |KeyName(a)| > 1 {
      assert KeyName(a)[1] == KeyName(b)[1];
    }
    if |KeyName(a)| > 2 {
      assert KeyName(a)[2] == KeyName(b)[2];
    }
  }

  predicate IsStringKey(k: ItemKey) {
    k in {IdKey, CategoryKey, NameKey, ImageKey, DescriptionKey, UnitKey, SupermarketKey}
  }

  predicate IsNumberKey(k: ItemKey) {
    k in {PriceKey, DiscountedPriceKey, WeightKey, StockQuantityKey, DiscountKey}
  }

  /** A property value of a JavaScript object holding (part of) an item. */
  datatype Value = Undefined | Str(s: string) | Num(x: real) | DateValue(date: Date) | Offers(offers: seq<QuantityOffer>)

  /** The value a property has in a `Partial<Item>` built by the forms: absent, or of the
      property's declared type, where `promotionEnd` may also still be the text of a date
      input (the `instanceof Date` test in the store tells the two apart). */
  predicate Conforms(k: ItemKey, v: Value) {
    match v
    case Undefined => true
    case Str(_) => IsStringKey(k) || k == PromotionEndKey
    case Num(_) => IsNumberKey(k)
    case DateValue(d) => k == PromotionEndKey && Valid(d)
    case Offers(_) => k == QuantityOffersKey
  }

  /** The value a property has in a server reply: JSON has no `undefined`, and dates arrive
      as the instants they denote. */
  predicate IsReplyValue(k: ItemKey, v: Value) {
    match v
    case Undefined => false
    case Str(_) => IsStringKey(k)
    case Num(_) => IsNumberKey(k)
    case DateValue(_) => k == PromotionEndKey
    case Offers(_) => k == QuantityOffersKey
  }

  /** A JavaScript object with item properties, its keys in `Object.keys` order. */
  type Patch = seq<(ItemKey, Value)>

  predicate DistinctKeys(p: Patch) {
    forall i, j :: 0 <= i < j < |p| ==> p[i].0 != p[j].0
  }

  /** A `Partial<Item>` as the product form builds it. */
  predicate IsPartialItem(p: Patch) {
    DistinctKeys(p) && forall i :: 0 <= i < |p| ==> Conforms(p[i].0, p[i].1)
  }

  /** The body of a successful update reply, as an object with item properties. */
  predicate IsReplyPatch(p: Patch) {
    forall i :: 0 <= i < |p| ==> IsReplyValue(p[i].0, p[i].1)
  }

  function OptNum(o: Option<real>): (v: Value)
    ensures o.None? <==> v.Undefined?
  {
    if o.Some? then Num(o.value) else Undefined
  }

  /** `item[k]` */
  function Get(item: Item, k: ItemKey): (v: Value)
    ensures IsStringKey(k) ==> v.Str?
    ensures k == PriceKey ==> v == Num(item.price)
  {
    match k
    case IdKey => Str(item.id)
    case CategoryKey => Str(item.category)
    case NameKey => Str(item.name)
    case ImageKey => Str(item.image)
    case PriceKey => Num(item.price)
    case DiscountedPriceKey => OptNum(item.discountedPrice)
    case DescriptionKey => Str(item.description)
    case WeightKey => Num(item.weight)
    case StockQuantityKey => Num(item.stockQuantity)
    case UnitKey => Str(item.unit)
    case DiscountKey => OptNum(item.discount)
    case PromotionEndKey => if item.promotionEnd.Some? then DateValue(item.promotionEnd.value) else Undefined
    case SupermarketKey => Str(item.supermarket)
    case QuantityOffersKey => if item.quantityOffers.Some? then Offers(item.quantityOffers.value) else Undefined
  }

  /** `{...item, [k]: v}` for a reply value. */
  function Set(item: Item, k: ItemKey, v: Value): (r: Item)
    requires IsReplyValue(k, v)
  {
    match k
    case IdKey => item.(id := v.s)
    case CategoryKey => item.(category := v.s)
    case NameKey => item.(name := v.s)
    case ImageKey => item.(image := v.s)
    case PriceKey => item.(price := v.x)
    case DiscountedPriceKey => item.(discountedPrice := Some(v.x))
    case DescriptionKey => item.(description := v.s)
    case WeightKey => item.(weight := v.x)
    case StockQuantityKey => item.(stockQuantity := v.x)
    case UnitKey => item.(unit := v.s)
    case DiscountKey => item.(discount := Some(v.x))
    case PromotionEndKey => item.(promotionEnd := Some(v.date))
    case SupermarketKey => item.(supermarket := v.s)
    case QuantityOffersKey => item.(quantityOffers := Some(v.offers))
  }

  /** Setting a property changes that property, to the value set, and no other. */
  lemma GetSet(item: Item, k: ItemKey, v: Value, k': ItemKey)
    requires IsReplyValue(k, v)
    ensures Get(Set(item, k, v), k') == if k == k' then v else Get(item, k')
  {
  }

  /** `{...item, ...patch}`: the patch's properties, in order, over the item's. */
  function Merge(item: Item, patch: Patch): Item
    requires IsReplyPatch(patch)
    decreases |patch|
  {
    if patch == [] then item else Merge(Set(item, patch[0].0, patch[0].1), patch[1..])
  }

  /** Whether the object has property `k`. */
  predicate HasKey(patch: Patch, k: ItemKey) {
    exists i :: 0 <= i < |patch| && patch[i].0 == k
  }

  /** The value of `k` in the object: the last pair with that key wins. */
  function Lookup(patch: Patch, k: ItemKey): Value
    requires HasKey(patch, k)
    decreases |patch|
  {
    if patch[|patch| - 1].0 == k then patch[|patch| - 1].1
    else
      var init := patch[..|patch| - 1];
      assert HasKey(init, k) by {
        var i :| 0 <= i < |patch| && patch[i].0 == k;
        assert init[i].0 == k;
      }
      Lookup(init, k)
  }

  /** Spread semantics: after the merge a property holds the patch's value if the patch has
      it, and the item's own value otherwise. */
  lemma {:induction false} GetMerge(item: Item, patch: Patch, k: ItemKey)
    requires IsReplyPatch(patch)
    ensures Get(Merge(item, patch), k) == if HasKey(patch, k) then Lookup(patch, k) else Get(item, k)
    decreases |patch|
  {
    if patch != [] {
      var init, last := patch[..|patch| - 1], patch[|patch| - 1];
      assert patch == init + [last];
      MergeSnoc(item, init, last);
      GetSet(Merge(item, init), last.0, last.1, k);
      GetMerge(item, init, k);
      if last.0 != k {
        if HasKey(patch, k) {
          var i :| 0 <= i < |patch| && patch[i].0 == k;
          assert init[i].0 == k;
        }
        if HasKey(init, k) {
          var i :| 0 <= i < |init| && init[i].0 == k;
          assert patch[i].0 == k;
          assert Lookup(patch, k) == Lookup(init, k);
        }
      } else {
        assert patch[|patch| - 1].0 == k;
        assert HasKey(patch, k);
        assert Lookup(patch, k) == last.1;
      }
    }
  }

  lemma {:induction false} MergeSnoc(item: Item, init: Patch, last: (ItemKey, Value))
    requires IsReplyPatch(init + [last])
    ensures IsReplyPatch(init) && IsReplyValue(last.0, last.1)
    ensures Merge(item, init + [last]) == Set(Merge(item, init), last.0, last.1)
    decreases |init|
  {
    assert forall i :: 0 <= i < |init| ==> init[i] == (init + [last])[i];
    assert (init + [last])[|init|] == last;
    if init != [] {
      var rest := init[1..];
      assert (init + [last])[1..] == rest + [last];
      MergeSnoc(Set(item, init[0].0, init[0].1), rest, last);
    }
  }

  /** `items.map(it => it._id === id ? {...it, ...patch} : it)` */
  function ReplaceById(items: seq<Item>, id: string, patch: Patch): (r: seq<Item>)
    requires IsReplyPatch(patch)
    ensures |r| == |items|
    ensures forall i :: 0 <= i < |items| ==> r[i] == if items[i].id == id then Merge(items[i], patch) else items[i]
  {
    if items == [] then []
    else [if items[0].id == id then Merge(items[0], patch) else items[0]] + ReplaceById(items[1..], id, patch)
  }

  /** `items.filter(it => it._id !== id)` */
  function RemoveById(items: seq<Item>, id: string): (r: seq<Item>)
    ensures IsSubsequence(r, items)
    ensures forall x :: x in r <==> x in items && x.id != id
    ensures forall x :: multiset(r)[x] == if x.id != id then multiset(items)[x] else 0
  {
    Filter(items, (x: Item) => x.id != id)
  }

  /** Removing an id that no item has changes nothing. */
  lemma RemoveAbsentId(items: seq<Item>, id: string)
    requires forall i :: 0 <= i < |items| ==> items[i].id != id
    ensures RemoveById(items, id) == items
  {
    FilterKeepsAll(items, (x: Item) => x.id != id);
  }

  /** `JSON.stringify(offers)` for an array of `{quantity, price}` objects. */
  function OffersJson(offers: seq<QuantityOffer>): Text {
    [Chars("[")] + OfferList(offers) + [Chars("]")]
  }

  function OfferJson(o: QuantityOffer): (t: Text)
    ensures |t| == 5
  {
    [Chars("{\"quantity\":"), Numeral(o.quantity), Chars(",\"price\":"), Numeral(o.price), Chars("}")]
  }

  /** The array elements, separated by commas. */
  function OfferList(offers: seq<QuantityOffer>): Text {
    if offers == [] then []
    else if |offers| == 1 then OfferJson(offers[0])
    else OfferJson(offers[0]) + [Chars(",")] + OfferList(offers[1..])
  }

  /** How the back end reads the offers back: `JSON.parse` on the text of `OffersJson`. */
  function ParseOffers(t: Text): Option<seq<QuantityOffer>> {
    if |t| >= 2 && t[0] == Chars("[") && t[|t| - 1] == Chars("]") then ParseOfferList(t[1..|t| - 1])
    else None
  }

  function ParseOfferList(t: Text): Option<seq<QuantityOffer>>
    decreases |t|
  {
    if t == [] then Some([])
    else if |t| >= 5 && t[0] == Chars("{\"quantity\":") && t[1].Numeral? && t[2] == Chars(",\"price\":")
         && t[3].Numeral? && t[4] == Chars("}") then
      var o := QuantityOffer(t[1].x, t[3].x);
      var rest := t[5..];
      if rest == [] then Some([o])
      else if rest[0] == Chars(",") && rest[1..] != [] then
        var tail := ParseOfferList(rest[1..]);
        if tail.Some? then Some([o] + tail.value) else None
      else None
    else None
  }

  lemma {:induction false} ParseOfferListWritten(offers: seq<QuantityOffer>)
    ensures ParseOfferList(OfferList(offers)) == Some(offers)
  {
    if |offers| > 1 {
      ParseOfferListWritten(offers[1..]);
      var t := OfferList(offers);
      var rest := [Chars(",")] + OfferList(offers[1..]);
      assert t == OfferJson(offers[0]) + rest;
      assert t[5..] == rest;
      assert rest[1..] == OfferList(offers[1..]);
      assert OfferList(offers[1..]) != [] by {
        assert |OfferJson(offers[1])| == 5;
        assert |offers[1..]| >= 1;
        if |offers[1..]| == 1 {
        } else {
          assert |OfferList(offers[1..])| >= 5;
        }
      }
      assert [offers[0]] + offers[1..] == offers;
    } else if |offers| == 1 {
      assert OfferList(offers)[5..] == [];
      assert [offers[0]] == offers;
    }
  }

  /** The quantity offers survive the trip through `JSON.stringify` and back. */
  lemma ParseOffersWritten(offers: seq<QuantityOffer>)
    ensures ParseOffers(OffersJson(offers)) == Some(offers)
  {
    var t := OffersJson(offers);
    assert t[1..|t| - 1] == OfferList(offers);
    ParseOfferListWritten(offers);
  }

  /** The form value the store appends for property `k`, or `None` when the property is
      undefined and skipped. */
  function EncodeField(k: ItemKey, v: Value): (r: Option<FormValue>)
    requires Conforms(k, v)
    ensures r.None? <==> v.Undefined?
    ensures r.Some? ==> r.value.TextValue?
  {
    match v
    case Undefined => None
    case DateValue(d) => Some(TextValue(Plain(ToIsoString(d))))
    case Offers(os) => Some(TextValue(OffersJson(os)))
    case Str(s) => Some(TextValue(Plain(s)))
    case Num(x) => Some(TextValue([Numeral(x)]))
  }

  /** How the back end reads one form field back into a property value. */
  function DecodeField(k: ItemKey, f: FormValue): Option<Value> {
    if !f.TextValue? then None
    else
      var t := f.text;
      if k == QuantityOffersKey then
        var os := ParseOffers(t);
        if os.Some? then Some(Offers(os.value)) else None
      else if |t| == 1 && t[0].Numeral? && IsNumberKey(k) then Some(Num(t[0].x))
      else if |t| == 1 && t[0].Chars? && k == PromotionEndKey then
        var d := ParseIso(t[0].s);
        if d.Some? then Some(DateValue(d.value)) else Some(Str(t[0].s))
      else if |t| == 1 && t[0].Chars? && IsStringKey(k) then Some(Str(t[0].s))
      else None
  }

  /** Every defined property of its declared type reaches the back end intact: a date as
      its ISO string, the offers as their JSON, strings and numbers as themselves. */
  lemma DecodeEncoded(k: ItemKey, v: Value)
    requires Conforms(k, v) && !v.Undefined? && !(k == PromotionEndKey && v.Str?)
    ensures DecodeField(k, EncodeField(k, v).value) == Some(v)
  {
    match v
    case DateValue(d) => ParseWritten(d);
    case Offers(os) => ParseOffersWritten(os);
    case Str(_) =>
    case Num(_) =>
  }

  /** The entries the `Object.keys(item).forEach` loop appends: one per defined property, in
      key order, each under its own property name. */
  function FieldEntries(p: Patch): (es: seq<Entry>)
    requires forall i :: 0 <= i < |p| ==> Conforms(p[i].0, p[i].1)
  {
    if p == [] then []
    else
      var e := EncodeField(p[0].0, p[0].1);
      (if e.Some? then [Entry(KeyName(p[0].0), e.value)] else []) + FieldEntries(p[1..])
  }

  /** The form carries property `k` with form value `f` exactly when the item defines `k`
      and `f` is how the store encodes its value: undefined properties are skipped, a date
      goes as its ISO string and the offers as their JSON. */
  lemma {:induction false} FieldEntryMembership(p: Patch, k: ItemKey, f: FormValue)
    requires forall i :: 0 <= i < |p| ==> Conforms(p[i].0, p[i].1)
    ensures Entry(KeyName(k), f) in FieldEntries(p) <==>
      exists i :: 0 <= i < |p| && p[i].0 == k && EncodeField(p[i].0, p[i].1) == Some(f)
  {
    if p != [] {
      FieldEntryMembership(p[1..], k, f);
      var e := EncodeField(p[0].0, p[0].1);
      var head := if e.Some? then [Entry(KeyName(p[0].0), e.value)] else [];
      assert FieldEntries(p) == head + FieldEntries(p[1..]);
      if Entry(KeyName(k), f) in head {
        KeyNameInjective(p[0].0, k);
        assert p[0].0 == k && e == Some(f);
      }
      if exists i :: 0 <= i < |p| && p[i].0 == k && EncodeField(p[i].0, p[i].1) == Some(f) {
        var i :| 0 <= i < |p| && p[i].0 == k && EncodeField(p[i].0, p[i].1) == Some(f);
        if i > 0 {
          assert p[1..][i - 1] == p[i];
        }
      }
      if exists i :: 0 <= i < |p[1..]| && p[1..][i].0 == k && EncodeField(p[1..][i].0, p[1..][i].1) == Some(f) {
        var i :| 0 <= i < |p[1..]| && p[1..][i].0 == k && EncodeField(p[1..][i].0, p[1..][i].1) == Some(f);
        assert p[i + 1] == p[1..][i];
      }
    }
  }
}
