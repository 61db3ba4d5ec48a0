/**
 * The product page (frontend/src/pages/ProductDetail.jsx): look the product up
 * in the catalogue, merge its detail record over it, pick up to four related
 * products, and step a quantity that is added to the cart.
 */
module ProductDetailPage {
  import opened Wrappers
  import opened Text
  import opened Catalog
  import opened CartContext
  import ProductsPage

  /** The detail fields merged over a catalogue entry; `rating` in tenths of a star. */
  datatype Details = Details(description: string, rating: int, reviews: nat, inStock: bool, specs: seq<string>)

  /** A catalogue entry with its details spread over it (`{...base, ...details}`). */
  datatype Detailed = Detailed(product: Product, details: Option<Details>)

  const MockDetails: map<nat, Details> := map[
    1 := Details("High-quality light bulb with energy efficient LED technology. Perfect for any room in your home.", 45, 24, true,
                 ["60W equivalent", "800 Lumens", "Soft White (2700K)", "E26 Base", "10,000 hours lifespan"]),
    2 := Details("Premium coaxial cable for high-definition audio and video transmission.", 42, 18, true,
                 ["50 feet length", "Gold-plated connectors", "75 Ohm impedance", "UV resistant", "RG6 type"]),
    3 := Details("Explosion proof light fixture designed for hazardous locations.", 47, 32, true,
                 ["100W LED", "IP66 rated", "120-277V", "5000K daylight", "Aluminum housing"]),
    4 := Details("Complete electrical toolkit for all your home improvement projects.", 48, 45, true,
                 ["42-piece set", "Durable carrying case", "VDE insulated", "Lifetime warranty", "Meets ANSI standards"]),
    5 := Details("Heavy-duty safety gloves for electrical work.", 46, 29, true,
                 ["Class 00 rated", "Rubber insulated", "Textured grip", "One size fits most", "Meets ASTM D120"]),
    6 := Details("20-amp circuit breaker for electrical panels.", 49, 56, true,
                 ["1-pole", "120/240V", "10kA interrupt rating", "Thermal-magnetic protection", "UL listed"]),
    7 := Details("Non-contact voltage tester with LED display.", 44, 38, true,
                 ["12-1000V AC", "LED flashlight", "Pocket clip", "Low battery indicator", "CAT III 600V"]),
    8 := Details("Standard wall socket with USB ports.", 47, 42, true,
                 ["2 USB ports", "15A, 125V", "Tamper-resistant", "LED indicator", "Wall plate included"])
  ]

  /** Length of the run of digits `s` starts with. */
  function DigitRun(s: string): (k: nat)
    ensures k <= |s| && AllDigits(s[..k])
    ensures k < |s| ==> !IsDigit(s[k])
    ensures AllDigits(s) ==> k == |s|
  {
    if |s| == 0 || !IsDigit(s[0]) then 0
    else
      var k := DigitRun(s[1..]);
      assert s[..k + 1] == [s[0]] + s[1..][..k];
      k + 1
  }

  /** parseInt(id, 10) on the route parameter: the leading digits, or NaN (None) when there are none. */
  function ParseIntParam(s: string): (r: Option<nat>)
    ensures AllDigits(s) && |s| > 0 ==> r == Some(DigitsValue(s))
    ensures |s| == 0 || !IsDigit(s[0]) ==> r == None
  {
    var k := DigitRun(s);
    assert AllDigits(s) ==> s[..k] == s;
    if k == 0 then None else Some(DigitsValue(s[..k]))
  }

  /** The route parameter of a product page link reads back as its id. */
  lemma ParseIntParamOfId(id: nat)
    ensures ParseIntParam(NatToString(id)) == Some(id)
  {
    DigitsValueOfNatToString(id);
  }

  /** Array.prototype.find on the id: the first entry with that id. */
  function FindById(ps: seq<Product>, id: nat): (r: Option<Product>)
    ensures r.Some? ==> r.value in ps && r.value.id == id
    ensures r.None? <==> forall p :: p in ps ==> p.id != id
  {
    if |ps| == 0 then None
    else if ps[0].id == id then Some(ps[0])
    else
      assert ps == [ps[0]] + ps[1..];
      FindById(ps[1..], id)
  }

  /** `{...p, ...(details[p.id] || {})}`: the only catalogue field a detail record overrides is the rating. */
  function Merge(p: Product, details: map<nat, Details>): (d: Detailed)
    ensures p.id in details ==> d == Detailed(p.(rating := details[p.id].rating), Some(details[p.id]))
    ensures p.id !in details ==> d == Detailed(p, None)
  {
    if p.id in details then Detailed(p.(rating := details[p.id].rating), Some(details[p.id]))
    else Detailed(p, None)
  }

  /** The product the page shows for a parsed route id, or the error it reports. */
  function Lookup(catalogue: seq<Product>, details: map<nat, Details>, id: Option<nat>): (r: Result<Detailed, string>)
    ensures r.Err? <==> id.None? || forall p :: p in catalogue ==> p.id != id.value
    ensures r.Err? ==> r.error == "Product not found"
    ensures r.Ok? ==> r.value.product.id == id.value
  {
    if id.None? then Err("Product not found")
    else match FindById(catalogue, id.value)
      case None => Err("Product not found")
      case Some(base) => Ok(Merge(base, details))
  }

  /** The related list before merging: same category, not the product itself, catalogue order. */
  function SameCategory(catalogue: seq<Product>, id: nat, category: string): (r: seq<Product>)
    ensures forall p :: p in r <==> p in catalogue && p.id != id && p.category == category
    ensures |r| <= |catalogue|
  {
    if |catalogue| == 0 then []
    else
      var p := catalogue[0];
      assert catalogue == [p] + catalogue[1..];
      if p.id != id && p.category == category then [p] + SameCategory(catalogue[1..], id, category)
      else SameCategory(catalogue[1..], id, category)
  }

  function MergeAll(ps: seq<Product>, details: map<nat, Details>): (r: seq<Detailed>)
    ensures |r| == |ps|
    ensures forall i :: 0 <= i < |ps| ==> r[i] == Merge(ps[i], details)
  {
    seq(|ps|, i requires 0 <= i < |ps| => Merge(ps[i], details))
  }

  /** filter, slice(0, 4), then merge each with its details. */
  function Related(catalogue: seq<Product>, details: map<nat, Details>, id: nat, category: string): seq<Detailed> {
    var same := SameCategory(catalogue, id, category);
    MergeAll(if |same| <= 4 then same else same[..4], details)
  }

  /**
   * At most four related products, each in the current category and none the
   * current product; they are the first matches in catalogue order, and all of
   * them when there are no more than four.
   */
  lemma RelatedSpec(catalogue: seq<Product>, details: map<nat, Details>, id: nat, category: string)
    ensures var r := Related(catalogue, details, id, category);
      var same := SameCategory(catalogue, id, category);
      && |r| == (if |same| <= 4 then |same| else 4)
      && (forall i :: 0 <= i < |r| ==>
            r[i].product.id != id && r[i].product.category == category
            && r[i] == Merge(same[i], details))
  {
    var same := SameCategory(catalogue, id, category);
    var r := Related(catalogue, details, id, category);
    forall i | 0 <= i < |r|
      ensures r[i].product.id != id && r[i].product.category == category && r[i] == Merge(same[i], details)
    {
      assert same[i] in same;
    }
  }

  /** The related list keeps catalogue order: filtering distributes over concatenation. */
  lemma {:induction false} SameCategoryAppend(a: seq<Product>, b: seq<Product>, id: nat, category: string)
    ensures SameCategory(a + b, id, category) == SameCategory(a, id, category) + SameCategory(b, id, category)
    decreases |a|
  {
    if |a| == 0 {
      assert a + b == b;
    } else {
      assert (a + b)[1..] == a[1..] + b;
      SameCategoryAppend(a[1..], b, id, category);
    }
  }

  /** Ids that are in the catalogue are found, with details merged; ids that are not give the error. */
  lemma LookupSpec(catalogue: seq<Product>, details: map<nat, Details>, id: nat)
    ensures var r := Lookup(catalogue, details, Some(id));
      && ((exists p :: p in catalogue && p.id == id) <==> r.Ok?)
      && (r.Ok? ==> exists p :: p in catalogue && p.id == id && r.value == Merge(p, details))
  {
    var f := FindById(catalogue, id);
    if f.Some? {
      assert f.value in catalogue && f.value.id == id;
    }
  }

  // ---------------------------------------------------------------------------
  // Adding to the cart
  // ---------------------------------------------------------------------------

  /**
   * handleAddToCart as written: the chosen quantity travels inside the product
   * object and the second argument keeps its default of 1.
   */
  function AddToCartCallAsWritten(p: Product, quantity: int): (call: (ProductArg, int))
    ensures call.0.quantity == Some(quantity) && call.1 == 1
  {
    (ProductArg(p, Some(quantity)), 1)
  }

  /** handleAddToCart as intended: the chosen quantity is the second argument. */
  function AddToCartCall(p: Product, quantity: int): (call: (ProductArg, int))
    ensures call.0.product == p && call.1 == quantity
  {
    (ProductArg(p, None), quantity)
  }

  /** As written, whatever the stepper shows, exactly one unit is added. */
  lemma AsWrittenAddsOne(items: seq<LineItem>, p: Product, quantity: int)
    ensures var call := AddToCartCallAsWritten(p, quantity);
      QuantityOf(Add(items, AddToCartPayload(call.0, call.1)), p.id) == QuantityOf(items, p.id) + 1
  {
    var call := AddToCartCallAsWritten(p, quantity);
    AddQuantityOf(items, AddToCartPayload(call.0, call.1), p.id);
  }

  /** With the stepper at 3 on an empty cart, the as-written call leaves a line of quantity 1. */
  lemma AsWrittenStepperAtThree(p: Product)
    ensures var call := AddToCartCallAsWritten(p, 3);
      Add([], AddToCartPayload(call.0, call.1)) == [LineItem(p, 1)]
  {
  }

  /** Corrected, the cart gains exactly the quantity the stepper shows. */
  lemma AddsChosenQuantity(items: seq<LineItem>, p: Product, quantity: int)
    requires quantity >= 1
    ensures var call := AddToCartCall(p, quantity);
      QuantityOf(Add(items, AddToCartPayload(call.0, call.1)), p.id) == QuantityOf(items, p.id) + quantity
  {
    var call := AddToCartCall(p, quantity);
    AddQuantityOf(items, AddToCartPayload(call.0, call.1), p.id);
  }

  // ---------------------------------------------------------------------------
  // The page
  // ---------------------------------------------------------------------------

  class ProductDetailView {
    var product: Option<Detailed>
    var related: seq<Detailed>
    var error: Option<string>
    var quantity: int

    ghost predicate Valid()
      reads this
    {
      quantity >= 1 && (product.Some? <==> error.None?)
    }

    /** Mount: parse the route id, look it up in the mock catalogue and pick the related products. */
    constructor (routeId: string)
      ensures var r := Lookup(ProductsPage.MockProducts, MockDetails, ParseIntParam(routeId));
        && (r.Ok? ==>
              product == Some(r.value) && error == None
              && related == Related(ProductsPage.MockProducts, MockDetails, r.value.product.id, r.value.product.category))
        && (r.Err? ==> product == None && error == Some(r.error) && related == [])
      ensures quantity == 1
      ensures Valid()
    {
      var r := Lookup(ProductsPage.MockProducts, MockDetails, ParseIntParam(routeId));
      quantity := 1;
      if r.Ok? {
        product := Some(r.value);
        error := None;
        related := Related(ProductsPage.MockProducts, MockDetails, r.value.product.id, r.value.product.category);
      } else {
        product := None;
        error := Some(r.error);
        related := [];
      }
    }

    /** The minus button: Math.max(1, quantity - 1). */
    method Decrement()
      requires Valid()
      modifies this
      ensures quantity == if old(quantity) > 1 then old(quantity) - 1 else 1
      ensures product == old(product) && related == old(related) && error == old(error)
      ensures Valid()
    {
      quantity := if quantity - 1 > 1 then quantity - 1 else 1;
    }

    /** The plus button. */
    method Increment()
      requires Valid()
      modifies this
      ensures quantity == old(quantity) + 1
      ensures product == old(product) && related == old(related) && error == old(error)
      ensures Valid()
    {
      quantity := quantity + 1;
    }

    /** The add-to-cart button, with the chosen quantity passed as the second argument. */
    method AddToCart(cart: CartProvider)
      requires Valid() && product.Some?
      modifies cart, cart.storage
      ensures cart.items == Add(old(cart.items), AddPayload(product.value.product, Some(quantity)))
      ensures QuantityOf(cart.items, product.value.product.id)
           == old(QuantityOf(cart.items, product.value.product.id)) + quantity
      ensures cart.Valid()
    {
      var call := AddToCartCall(product.value.product, quantity);
      AddsChosenQuantity(cart.items, product.value.product, quantity);
      cart.AddToCart(call.0, call.1);
    }
  }
}
