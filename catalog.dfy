/**
 * The product record the storefront pages pass around (the mock catalogue in
 * frontend/src/pages/Products.jsx and ProductDetail.jsx) and its stored form.
 * Prices are integer minor units (pesewas): 9.99 is 999.
 */
module Catalog {
  import opened Wrappers
  import opened Json
  import JsonList

  /** `rating` is in tenths of a star (4.5 is 45), and 0 where the record has none, as `product.rating || 0` reads it. */
  datatype Product = Product(id: nat, name: string, price: nat, image: string, category: string, rating: int)

  function ProductToValue(p: Product): Value {
    Arr([Num(p.id), Str(p.name), Num(p.price), Str(p.image), Str(p.category), Num(p.rating)])
  }

  function ProductFromValue(v: Value): (r: Option<Product>)
    ensures r.Some? ==> ProductToValue(r.value) == v
  {
    match v
    case Arr(fs) =>
      if |fs| == 6 && fs[0].Num? && fs[0].n >= 0 && fs[1].Str? && fs[2].Num? && fs[2].n >= 0
         && fs[3].Str? && fs[4].Str? && fs[5].Num?
      then
        assert fs == [fs[0], fs[1], fs[2], fs[3], fs[4], fs[5]];
        Some(Product(fs[0].n, fs[1].s, fs[2].n, fs[3].s, fs[4].s, fs[5].n))
      else None
    case _ => None
  }

  lemma ProductRoundTrip(p: Product)
    ensures ProductFromValue(ProductToValue(p)) == Some(p)
  {
  }

  function SerializeProducts(ps: seq<Product>): string {
    Stringify(JsonList.EncodeList(ps, ProductToValue))
  }

  function ParseProducts(text: string): Option<seq<Product>> {
    match Parse(text)
    case None => None
    case Some(v) => JsonList.DecodeList(v, ProductFromValue)
  }

  /** What is written can be read back unchanged. */
  lemma ParseSerializeProducts(ps: seq<Product>)
    ensures ParseProducts(SerializeProducts(ps)) == Some(ps)
  {
    ParseStringify(JsonList.EncodeList(ps, ProductToValue));
    forall p ensures ProductFromValue(ProductToValue(p)) == Some(p) {
      ProductRoundTrip(p);
    }
    JsonList.DecodeEncodeList(ps, ProductToValue, ProductFromValue);
  }
}
