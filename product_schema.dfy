/**
 * The server-side product record (backend/src/models/Product.js): which
 * documents the schema accepts, and the defaults it fills in. Numbers are
 * integers here (prices in minor units).
 */
module ProductSchema {
  import opened Wrappers

  const NameMaxLength: nat := 100

  /** The category enum, compared case-sensitively. */
  const Categories: seq<string> := [
    "Electronics", "Cables & Wires", "Safety Equipment", "Lighting",
    "Electrical Appliances", "Tools & Equipment", "Sports", "Other"
  ]

  /**
   * Whitespace String.prototype.trim removes: the WhiteSpace and
   * LineTerminator code points of section 12.2 and 12.3 of ECMA-262 (tab,
   * vertical tab, form feed, space, no-break space, the byte-order mark, the
   * Unicode space separators, line feed, carriage return, line and paragraph
   * separator).
   */
  predicate IsSpace(c: char) {
    || c == '\t' || c == '\U{000B}' || c == '\U{000C}' || c == ' ' || c == '\U{00A0}' || c == '\U{FEFF}'
    || c == '\U{1680}' || ('\U{2000}' <= c <= '\U{200A}') || c == '\U{202F}' || c == '\U{205F}' || c == '\U{3000}'
    || c == '\n' || c == '\r' || c == '\U{2028}' || c == '\U{2029}'
  }

  function TrimStart(s: string): (r: string)
    ensures |r| <= |s| && r == s[|s| - |r|..]
    ensures |r| > 0 ==> !IsSpace(r[0])
    ensures forall i :: 0 <= i < |s| - |r| ==> IsSpace(s[i])
  {
    if |s| > 0 && IsSpace(s[0]) then TrimStart(s[1..]) else s
  }

  function TrimEnd(s: string): (r: string)
    ensures |r| <= |s| && r == s[..|r|]
    ensures |r| > 0 ==> !IsSpace(r[|r| - 1])
    ensures forall i :: |r| <= i < |s| ==> IsSpace(s[i])
  {
    if |s| > 0 && IsSpace(s[|s| - 1]) then TrimEnd(s[..|s| - 1]) else s
  }

  /** The `trim: true` setter. */
  function Trim(s: string): (r: string)
    ensures |r| <= |s|
    ensures |r| > 0 ==> !IsSpace(r[0]) && !IsSpace(r[|r| - 1])
  {
    var t := TrimStart(s);
    var r := TrimEnd(t);
    assert |r| > 0 ==> r[0] == t[0];
    r
  }

  lemma TrimIdempotent(s: string)
    ensures Trim(Trim(s)) == Trim(s)
  {
    var r := Trim(s);
    assert TrimStart(r) == r;
    assert TrimEnd(r) == r;
  }

  /** A string of whitespace only trims to nothing. */
  lemma {:induction false} TrimAllSpace(s: string)
    requires forall i :: 0 <= i < |s| ==> IsSpace(s[i])
    ensures Trim(s) == ""
    decreases |s|
  {
    if |s| > 0 {
      TrimAllSpace(s[1..]);
    }
  }

  datatype Review = Review(user: Option<string>, name: Option<string>, rating: Option<int>, comment: Option<string>)

  /** A document as submitted; a field left out is None. */
  datatype ProductInput = ProductInput(
    name: Option<string>,
    price: Option<int>,
    description: Option<string>,
    images: Option<seq<string>>,
    category: Option<string>,
    stock: Option<int>,
    ratings: Option<int>,
    numOfReviews: Option<int>,
    reviews: Option<seq<Review>>,
    user: Option<string>)

  /** The document after the setters and defaults ran. */
  datatype ProductDoc = ProductDoc(
    name: Option<string>,
    price: Option<int>,
    description: Option<string>,
    images: seq<string>,
    category: Option<string>,
    stock: int,
    ratings: int,
    numOfReviews: int,
    reviews: seq<Review>,
    user: Option<string>)

  function OrElse<T>(o: Option<T>, d: T): (r: T)
    ensures o.Some? ==> r == o.value
    ensures o.None? ==> r == d
  {
    if o.Some? then o.value else d
  }

  /** Trim the name; stock, ratings and numOfReviews default to 0; absent arrays are empty. */
  function ApplyDefaults(p: ProductInput): (d: ProductDoc)
    ensures p.stock.None? ==> d.stock == 0
    ensures p.ratings.None? ==> d.ratings == 0
    ensures p.numOfReviews.None? ==> d.numOfReviews == 0
    ensures p.stock.Some? ==> d.stock == p.stock.value
    ensures p.ratings.Some? ==> d.ratings == p.ratings.value
    ensures p.numOfReviews.Some? ==> d.numOfReviews == p.numOfReviews.value
    ensures p.name.Some? ==> d.name == Some(Trim(p.name.value))
    ensures p.name.None? ==> d.name.None?
    ensures p.images.Some? ==> d.images == p.images.value
    ensures p.images.None? ==> d.images == []
    ensures p.reviews.Some? ==> d.reviews == p.reviews.value
    ensures p.reviews.None? ==> d.reviews == []
    ensures d.price == p.price && d.category == p.category && d.user == p.user
    ensures d.description == p.description
  {
    ProductDoc(
      if p.name.Some? then Some(Trim(p.name.value)) else None,
      p.price,
      p.description,
      OrElse(p.images, []),
      p.category,
      OrElse(p.stock, 0),
      OrElse(p.ratings, 0),
      OrElse(p.numOfReviews, 0),
      OrElse(p.reviews, []),
      p.user)
  }

  /** A `required` String: present and not empty. */
  predicate Required(s: Option<string>) { s.Some? && s.value != "" }

  predicate ReviewOk(r: Review) {
    r.user.Some? && Required(r.name) && r.rating.Some? && Required(r.comment)
  }

  datatype Field = Name | Price | Description | Images | Category | Stock | Reviews | User

  predicate FieldOk(d: ProductDoc, x: Field) {
    match x
    case Name => Required(d.name) && |d.name.value| <= NameMaxLength
    case Price => d.price.Some? && d.price.value >= 0
    case Description => Required(d.description)
    case Images => forall i :: 0 <= i < |d.images| ==> d.images[i] != ""
    case Category => d.category.Some? && d.category.value in Categories
    case Stock => d.stock >= 0
    case Reviews => forall i :: 0 <= i < |d.reviews| ==> ReviewOk(d.reviews[i])
    case User => d.user.Some?
  }

  const AllFields: set<Field> := {Name, Price, Description, Images, Category, Stock, Reviews, User}

  lemma AllFieldsComplete(x: Field)
    ensures x in AllFields
  {
  }

  /** The paths validation reports. */
  function InvalidFields(d: ProductDoc): (bad: set<Field>)
    ensures forall x :: x in bad <==> !FieldOk(d, x)
  {
    forall x ensures x in AllFields { AllFieldsComplete(x); }
    set x | x in AllFields && !FieldOk(d, x)
  }

  predicate Valid(p: ProductInput) {
    InvalidFields(ApplyDefaults(p)) == {}
  }

  /** The name rule is on the trimmed name: 1 to 100 characters once surrounding whitespace is gone. */
  lemma NameRule(p: ProductInput)
    ensures Name !in InvalidFields(ApplyDefaults(p)) <==>
      p.name.Some? && 1 <= |Trim(p.name.value)| <= NameMaxLength
  {
  }

  /** A name of spaces only is rejected, as if it were missing. */
  lemma BlankNameRejected(p: ProductInput)
    requires p.name.Some? && forall i :: 0 <= i < |p.name.value| ==> IsSpace(p.name.value[i])
    ensures !Valid(p)
  {
    TrimAllSpace(p.name.value);
    assert Name in InvalidFields(ApplyDefaults(p));
  }

  /** Leaving stock out is accepted: it defaults to 0. A negative stock or price is not. */
  lemma StockAndPrice(p: ProductInput)
    ensures p.stock.None? ==> Stock !in InvalidFields(ApplyDefaults(p))
    ensures p.stock.Some? && p.stock.value < 0 ==> !Valid(p)
    ensures p.price.None? || p.price.value < 0 ==> !Valid(p)
  {
    var bad := InvalidFields(ApplyDefaults(p));
    assert p.stock.Some? && p.stock.value < 0 ==> Stock in bad;
    assert p.price.None? || p.price.value < 0 ==> Price in bad;
  }

  /** Categories are matched exactly: the lower-case ids the storefront uses are not in the enum. */
  lemma CategoryCaseSensitive()
    ensures "Lighting" in Categories
    ensures "lighting" !in Categories
  {
  }

  /** An image list may be empty; a review missing any of its fields fails the document. */
  lemma ImagesAndReviews(p: ProductInput, i: int)
    ensures p.images == Some([]) || p.images.None? ==> Images !in InvalidFields(ApplyDefaults(p))
    ensures p.reviews.Some? && 0 <= i < |p.reviews.value| && !ReviewOk(p.reviews.value[i]) ==> !Valid(p)
  {
    var d := ApplyDefaults(p);
    if p.images == Some([]) || p.images.None? {
      assert d.images == [];
      assert FieldOk(d, Images);
    }
    if p.reviews.Some? && 0 <= i < |p.reviews.value| && !ReviewOk(p.reviews.value[i]) {
      assert d.reviews == p.reviews.value;
      assert !FieldOk(d, Reviews);
      assert Reviews in InvalidFields(d);
    }
  }

  /** The whole rule set in one statement, on the document after defaults. */
  lemma ValidIff(p: ProductInput)
    ensures var d := ApplyDefaults(p);
      Valid(p) <==>
        && FieldOk(d, Name) && FieldOk(d, Price) && FieldOk(d, Description) && FieldOk(d, Images)
        && FieldOk(d, Category) && FieldOk(d, Stock) && FieldOk(d, Reviews) && FieldOk(d, User)
  {
    var d := ApplyDefaults(p);
    var bad := InvalidFields(d);
    if !Valid(p) {
      var x :| x in bad;
      match x {
        case Name =>
        case Price =>
        case Description =>
        case Images =>
        case Category =>
        case Stock =>
        case Reviews =>
        case User =>
      }
    }
  }

  /** A complete document, as the admin form sends it, is accepted. */
  lemma ExampleValid()
    ensures Valid(ProductInput(Some("LED Bulb"), Some(999), Some("Energy saving bulb"), None,
                               Some("Lighting"), None, None, None, None, Some("u1")))
  {
    var p := ProductInput(Some("LED Bulb"), Some(999), Some("Energy saving bulb"), None,
                          Some("Lighting"), None, None, None, None, Some("u1"));
    ExampleName();
    ValidIff(p);
    assert Categories[3] == "Lighting";
  }

  lemma ExampleName()
    ensures Trim("LED Bulb") == "LED Bulb"
  {
    assert TrimStart("LED Bulb") == "LED Bulb";
    assert TrimEnd("LED Bulb") == "LED Bulb";
  }
}
