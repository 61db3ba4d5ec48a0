/**
 * The catalogue page (frontend/src/pages/Products.jsx): the visible list is
 * the catalogue filtered by search term, category and price range, sorted by
 * the chosen order and cut into pages of eight, with a window of at most five
 * page buttons.
 */
module ProductsPage {
  import opened Wrappers
  import opened Text
  import opened Catalog

  const ItemsPerPage: nat := 8

  /** The catalogue the page shows once its simulated fetch completes (prices in pesewas). */
  const MockProducts: seq<Product> := [
    Product(1, "LED Bulb", 999, "/images/bulb.jpeg", "lighting", 0),
    Product(2, "Coaxial Cable", 1499, "/images/coaxial.jpeg", "cables", 0),
    Product(3, "Explosion Proof Light", 19999, "/images/ex-bd.jpeg", "lighting", 0),
    Product(4, "Tool Kit", 7999, "/images/kit.jpeg", "tools", 0),
    Product(5, "Safety Gloves", 1299, "/images/safetyglo.jpeg", "safety", 0),
    Product(6, "Circuit Breaker", 2999, "/images/circbr.jpeg", "switches", 0),
    Product(7, "Voltage Tester", 2499, "/images/voltest.jpeg", "tools", 0),
    Product(8, "Wall Socket", 799, "/images/wasoc.jpeg", "switches", 0)
  ]

  // ---------------------------------------------------------------------------
  // Filtering
  // ---------------------------------------------------------------------------

  /** `searchParams.get(name) || 'all'`: a missing or empty parameter reads as `all`. */
  function ParamOr(params: map<string, string>, name: string): (r: string)
    ensures name !in params ==> r == "all"
    ensures name in params && params[name] != "" ==> r == params[name]
    ensures name in params && params[name] == "" ==> r == "all"
  {
    if name in params && params[name] != "" then params[name] else "all"
  }

  /** Case-insensitive substring test on the name or the category. */
  predicate MatchesSearch(p: Product, term: string) {
    Includes(LowerStr(p.name), LowerStr(term)) || Includes(LowerStr(p.category), LowerStr(term))
  }

  predicate MatchesCategory(p: Product, selected: string) {
    selected == "all" || p.category == selected
  }

  /**
   * The price-range test. `N+` keeps prices of at least N; `a-b` keeps prices
   * from a to b inclusive. Bounds are whole cedis, prices pesewas. A bound that
   * Number() turns into NaN (or a missing upper bound) makes every comparison false.
   */
  predicate MatchesPrice(p: Product, range: string) {
    if range == "all" then true
    else if EndsWith(range, "+") then
      var bound := ParseNumber(ReplaceFirst(range, '+', ""));
      bound.Some? && p.price >= bound.value * 100
    else
      var parts := Split(range, '-');
      if |parts| < 2 then false
      else
        var lo := ParseNumber(parts[0]);
        var hi := ParseNumber(parts[1]);
        lo.Some? && hi.Some? && lo.value * 100 <= p.price <= hi.value * 100
  }

  predicate Matches(p: Product, term: string, params: map<string, string>) {
    MatchesSearch(p, term) && MatchesCategory(p, ParamOr(params, "category"))
    && MatchesPrice(p, ParamOr(params, "price"))
  }

  /** products.filter(...): keeps the matching products, each as often as it occurs, in order. */
  function Filter(ps: seq<Product>, term: string, params: map<string, string>): (r: seq<Product>)
    ensures forall p {:trigger multiset(r)[p]} :: multiset(r)[p] == if Matches(p, term, params) then multiset(ps)[p] else 0
    ensures forall p :: p in r <==> p in ps && Matches(p, term, params)
    ensures |r| <= |ps|
  {
    if |ps| == 0 then []
    else
      assert ps == [ps[0]] + ps[1..];
      if Matches(ps[0], term, params) then [ps[0]] + Filter(ps[1..], term, params)
      else Filter(ps[1..], term, params)
  }

  /** The filter distributes over concatenation, so the kept products stay in catalogue order. */
  lemma FilterAppend(a: seq<Product>, b: seq<Product>, term: string, params: map<string, string>)
    ensures Filter(a + b, term, params) == Filter(a, term, params) + Filter(b, term, params)
  {
    if |a| == 0 {
      assert a + b == b;
    } else {
      assert (a + b)[1..] == a[1..] + b;
    }
  }

  /** The empty search term matches every product. */
  lemma EmptySearchMatches(p: Product)
    ensures MatchesSearch(p, "")
  {
    assert LowerStr("") == "";
    IncludesEmpty(LowerStr(p.name));
  }

  /** Search matches exactly when the lower-cased term occurs in the lower-cased name or category. */
  lemma SearchIff(p: Product, term: string)
    ensures MatchesSearch(p, term) <==>
      (exists i :: OccursAt(LowerStr(p.name), LowerStr(term), i))
      || (exists i :: OccursAt(LowerStr(p.category), LowerStr(term), i))
  {
    IncludesIff(LowerStr(p.name), LowerStr(term));
    IncludesIff(LowerStr(p.category), LowerStr(term));
  }

  /** With no category and no price parameter, and an empty term, nothing is filtered out. */
  lemma {:induction false} NoFilters(ps: seq<Product>, params: map<string, string>)
    requires "category" !in params && "price" !in params
    ensures Filter(ps, "", params) == ps
    decreases |ps|
  {
    if |ps| > 0 {
      MatchesWithoutFilters(ps[0], params);
      NoFilters(ps[1..], params);
      assert Filter(ps, "", params) == [ps[0]] + Filter(ps[1..], "", params);
      assert ps == [ps[0]] + ps[1..];
    }
  }

  lemma MatchesWithoutFilters(p: Product, params: map<string, string>)
    requires "category" !in params && "price" !in params
    ensures Matches(p, "", params)
  {
    EmptySearchMatches(p);
  }

  /** `N+` keeps exactly the prices of at least N cedis. */
  lemma PriceAtLeast(p: Product, n: nat)
    ensures MatchesPrice(p, NatToString(n) + "+") <==> p.price >= n * 100
  {
    var s := NatToString(n);
    var range := s + "+";
    assert range[|range| - 1..] == "+";
    assert '+' !in s by {
      forall i | 0 <= i < |s| ensures s[i] != '+' { assert IsDigit(s[i]); }
    }
    IndexOfAfter(s, '+', "");
    assert range == s + ['+'] + "";
    assert range[..|s|] == s && range[|s| + 1..] == "";
    assert ReplaceFirst(range, '+', "") == s;
    ParseNumberOfNatToString(n);
    assert range != "all";
  }

  /** `a-b` keeps exactly the prices from a to b cedis, both ends included. */
  lemma PriceBetween(p: Product, a: nat, b: nat)
    ensures MatchesPrice(p, NatToString(a) + "-" + NatToString(b)) <==> a * 100 <= p.price <= b * 100
  {
    var sa, sb := NatToString(a), NatToString(b);
    var range := sa + "-" + sb;
    assert '-' !in sa && '-' !in sb by {
      forall i | 0 <= i < |sa| ensures sa[i] != '-' { assert IsDigit(sa[i]); }
      forall i | 0 <= i < |sb| ensures sb[i] != '-' { assert IsDigit(sb[i]); }
    }
    assert range == Join([sa, sb], '-');
    SplitJoin([sa, sb], '-');
    assert !EndsWith(range, "+") by {
      assert range[|range| - 1] == sb[|sb| - 1];
      assert IsDigit(sb[|sb| - 1]);
    }
    assert range != "all" by { assert range[0] == sa[0]; assert IsDigit(sa[0]); }
    ParseNumberOfNatToString(a);
    ParseNumberOfNatToString(b);
  }

  // ---------------------------------------------------------------------------
  // Ordering
  // ---------------------------------------------------------------------------

  /** sortConfig; `direction` is None when the select value had no `-`. */
  datatype SortConfig = SortConfig(key: string, direction: Option<string>)

  function IsAsc(cfg: SortConfig): bool { cfg.direction == Some("asc") }

  /**
   * Code-point lexicographic order on names, standing in for localeCompare:
   * negative, zero or positive as x sorts before, with or after y.
   */
  function NameCompare(x: string, y: string): (r: int)
    ensures -1 <= r <= 1
    decreases |x|
  {
    if |x| == 0 && |y| == 0 then 0
    else if |x| == 0 then -1
    else if |y| == 0 then 1
    else if x[0] < y[0] then -1
    else if x[0] > y[0] then 1
    else NameCompare(x[1..], y[1..])
  }

  lemma {:induction false} NameCompareAntisym(x: string, y: string)
    ensures NameCompare(y, x) == -NameCompare(x, y)
    decreases |x|
  {
    if |x| > 0 && |y| > 0 && x[0] == y[0] {
      NameCompareAntisym(x[1..], y[1..]);
    }
  }

  lemma {:induction false} NameCompareTrans(x: string, y: string, z: string)
    requires NameCompare(x, y) <= 0 && NameCompare(y, z) <= 0
    ensures NameCompare(x, z) <= 0
    decreases |x|
  {
    if |x| > 0 && |y| > 0 && |z| > 0 && x[0] == y[0] && y[0] == z[0] {
      NameCompareTrans(x[1..], y[1..], z[1..]);
    }
  }

  /** NameCompare is zero exactly on equal names. */
  lemma {:induction false} NameCompareZero(x: string, y: string)
    ensures NameCompare(x, y) == 0 <==> x == y
    decreases |x|
  {
    if |x| > 0 && |y| > 0 {
      NameCompareZero(x[1..], y[1..]);
      if x[0] == y[0] && x[1..] == y[1..] {
        assert x == [x[0]] + x[1..] && y == [y[0]] + y[1..];
      }
    }
  }

  /** The comparator handed to sort. */
  function Compare(cfg: SortConfig, a: Product, b: Product): int {
    match cfg.key
    case "name" => if IsAsc(cfg) then NameCompare(a.name, b.name) else NameCompare(b.name, a.name)
    case "price" => if IsAsc(cfg) then a.price - b.price else b.price - a.price
    case "popular" => b.rating - a.rating
    case _ => 0   // `newest`: the catalogue has no creation dates, so every difference is 0
  }

  lemma CompareAntisym(cfg: SortConfig, a: Product, b: Product)
    ensures Compare(cfg, b, a) == -Compare(cfg, a, b)
  {
    NameCompareAntisym(a.name, b.name);
  }

  lemma CompareTrans(cfg: SortConfig, a: Product, b: Product, c: Product)
    requires Compare(cfg, a, b) <= 0 && Compare(cfg, b, c) <= 0
    ensures Compare(cfg, a, c) <= 0
  {
    if cfg.key == "name" {
      if IsAsc(cfg) {
        NameCompareTrans(a.name, b.name, c.name);
      } else {
        NameCompareTrans(c.name, b.name, a.name);
      }
    }
  }

  ghost predicate Sorted(cfg: SortConfig, s: seq<Product>) {
    forall i, j :: 0 <= i < j < |s| ==> Compare(cfg, s[i], s[j]) <= 0
  }

  /** Inserts x after every element that does not sort after it. */
  function Insert(cfg: SortConfig, x: Product, s: seq<Product>): (r: seq<Product>)
    ensures multiset(r) == multiset(s) + multiset{x}
  {
    if |s| == 0 then [x]
    else if Compare(cfg, x, s[0]) < 0 then [x] + s
    else
      assert s == [s[0]] + s[1..];
      [s[0]] + Insert(cfg, x, s[1..])
  }

  lemma {:induction false} InsertSorted(cfg: SortConfig, x: Product, s: seq<Product>)
    requires Sorted(cfg, s)
    ensures Sorted(cfg, Insert(cfg, x, s))
    decreases |s|
  {
    if |s| == 0 {
    } else if Compare(cfg, x, s[0]) < 0 {
      PrependSmaller(cfg, x, s);
    } else {
      InsertSorted(cfg, x, s[1..]);
      PrependAfter(cfg, x, s, Insert(cfg, x, s[1..]));
    }
  }

  /** An element sorting before the head of a sorted list may go in front of it. */
  lemma PrependSmaller(cfg: SortConfig, x: Product, s: seq<Product>)
    requires Sorted(cfg, s) && |s| > 0 && Compare(cfg, x, s[0]) < 0
    ensures Sorted(cfg, [x] + s)
  {
    var r := [x] + s;
    forall i, j | 0 <= i < j < |r| ensures Compare(cfg, r[i], r[j]) <= 0 {
      if i == 0 && j > 1 {
        CompareTrans(cfg, x, s[0], s[j - 1]);
      }
    }
  }

  /** The head of a sorted list stays in front when x, not sorting before it, is inserted behind. */
  lemma PrependAfter(cfg: SortConfig, x: Product, s: seq<Product>, t: seq<Product>)
    requires Sorted(cfg, s) && |s| > 0 && Compare(cfg, x, s[0]) >= 0
    requires Sorted(cfg, t) && multiset(t) == multiset(s[1..]) + multiset{x}
    ensures Sorted(cfg, [s[0]] + t)
  {
    var r := [s[0]] + t;
    forall j | 0 <= j < |t| ensures Compare(cfg, s[0], t[j]) <= 0 {
      assert t[j] in multiset(t);
      if t[j] == x {
        CompareAntisym(cfg, x, s[0]);
      } else {
        assert t[j] in multiset(s[1..]);
        var m :| 0 <= m < |s[1..]| && s[1..][m] == t[j];
        assert s[m + 1] == t[j];
      }
    }
    forall i, j | 0 <= i < j < |r| ensures Compare(cfg, r[i], r[j]) <= 0 {
      if i == 0 {
        assert r[j] == t[j - 1];
      } else {
        assert r[i] == t[i - 1] && r[j] == t[j - 1];
      }
    }
  }

  /** Array.prototype.sort with the comparator: a stable insertion sort. */
  function Sort(cfg: SortConfig, s: seq<Product>): (r: seq<Product>)
    ensures multiset(r) == multiset(s)
  {
    if |s| == 0 then []
    else
      assert s == s[..|s| - 1] + [s[|s| - 1]];
      Insert(cfg, s[|s| - 1], Sort(cfg, s[..|s| - 1]))
  }

  lemma {:induction false} SortSorted(cfg: SortConfig, s: seq<Product>)
    ensures Sorted(cfg, Sort(cfg, s))
    decreases |s|
  {
    if |s| > 0 {
      SortSorted(cfg, s[..|s| - 1]);
      InsertSorted(cfg, s[|s| - 1], Sort(cfg, s[..|s| - 1]));
    }
  }

  /** The products of s that compare equal to e, in their order in s. */
  function EqualKeys(cfg: SortConfig, e: Product, s: seq<Product>): seq<Product> {
    if |s| == 0 then []
    else (if Compare(cfg, e, s[0]) == 0 then [s[0]] else []) + EqualKeys(cfg, e, s[1..])
  }

  lemma {:induction false} EqualKeysAppend(cfg: SortConfig, e: Product, a: seq<Product>, b: seq<Product>)
    ensures EqualKeys(cfg, e, a + b) == EqualKeys(cfg, e, a) + EqualKeys(cfg, e, b)
    decreases |a|
  {
    if |a| > 0 {
      EqualKeysAppend(cfg, e, a[1..], b);
      assert (a + b)[1..] == a[1..] + b;
    } else {
      assert a + b == b;
    }
  }

  lemma CompareLessTrans(cfg: SortConfig, a: Product, b: Product, c: Product)
    requires Compare(cfg, a, b) < 0 && Compare(cfg, b, c) <= 0
    ensures Compare(cfg, a, c) < 0
  {
    CompareTrans(cfg, a, b, c);
    if Compare(cfg, a, c) == 0 {
      CompareAntisym(cfg, a, c);
      CompareTrans(cfg, b, c, a);
      CompareAntisym(cfg, a, b);
    }
  }

  lemma SortedTail(cfg: SortConfig, t: seq<Product>)
    requires Sorted(cfg, t) && |t| > 0
    ensures Sorted(cfg, t[1..])
  {
    forall i, j | 0 <= i < j < |t[1..]| ensures Compare(cfg, t[1..][i], t[1..][j]) <= 0 {
      assert t[1..][i] == t[i + 1] && t[1..][j] == t[j + 1];
    }
  }

  /** Something equal to e that sorts before the head of a sorted list is equal to none of it. */
  lemma {:induction false} NoneEqualAfter(cfg: SortConfig, e: Product, x: Product, t: seq<Product>)
    requires Sorted(cfg, t) && |t| > 0 && Compare(cfg, x, t[0]) < 0 && Compare(cfg, e, x) == 0
    ensures EqualKeys(cfg, e, t) == []
    decreases |t|
  {
    CompareAntisym(cfg, e, x);
    if Compare(cfg, e, t[0]) == 0 {
      CompareAntisym(cfg, e, t[0]);
      CompareLessTrans(cfg, x, t[0], e);
    }
    if |t| > 1 {
      CompareLessTrans(cfg, x, t[0], t[1]);
      SortedTail(cfg, t);
      NoneEqualAfter(cfg, e, x, t[1..]);
    }
  }

  /** Inserting x into a sorted list puts it after every product equal to it. */
  lemma {:induction false} InsertEqualKeys(cfg: SortConfig, e: Product, x: Product, t: seq<Product>)
    requires Sorted(cfg, t)
    ensures EqualKeys(cfg, e, Insert(cfg, x, t)) == EqualKeys(cfg, e, t) + EqualKeys(cfg, e, [x])
    decreases |t|
  {
    if |t| == 0 {
    } else if Compare(cfg, x, t[0]) < 0 {
      assert Insert(cfg, x, t) == [x] + t;
      EqualKeysAppend(cfg, e, [x], t);
      if Compare(cfg, e, x) == 0 {
        NoneEqualAfter(cfg, e, x, t);
      }
    } else {
      SortedTail(cfg, t);
      InsertEqualKeys(cfg, e, x, t[1..]);
      InsertBehindHead(cfg, e, x, t);
    }
  }

  /** The step of InsertEqualKeys where x goes behind the head of t. */
  lemma InsertBehindHead(cfg: SortConfig, e: Product, x: Product, t: seq<Product>)
    requires |t| > 0 && Compare(cfg, x, t[0]) >= 0
    requires EqualKeys(cfg, e, Insert(cfg, x, t[1..])) == EqualKeys(cfg, e, t[1..]) + EqualKeys(cfg, e, [x])
    ensures EqualKeys(cfg, e, Insert(cfg, x, t)) == EqualKeys(cfg, e, t) + EqualKeys(cfg, e, [x])
  {
    var rest := Insert(cfg, x, t[1..]);
    var head, ex := EqualKeys(cfg, e, [t[0]]), EqualKeys(cfg, e, [x]);
    calc {
      EqualKeys(cfg, e, Insert(cfg, x, t));
    == { assert Insert(cfg, x, t) == [t[0]] + rest; }
      EqualKeys(cfg, e, [t[0]] + rest);
    == { EqualKeysAppend(cfg, e, [t[0]], rest); }
      head + (EqualKeys(cfg, e, t[1..]) + ex);
    ==
      (head + EqualKeys(cfg, e, t[1..])) + ex;
    == { EqualKeysAppend(cfg, e, [t[0]], t[1..]); assert [t[0]] + t[1..] == t; }
      EqualKeys(cfg, e, t) + ex;
    }
  }

  /**
   * The sort is stable: the products that compare equal to any e come out in
   * the order they had in s.
   */
  lemma {:induction false} SortStable(cfg: SortConfig, e: Product, s: seq<Product>)
    ensures EqualKeys(cfg, e, Sort(cfg, s)) == EqualKeys(cfg, e, s)
    decreases |s|
  {
    if |s| > 0 {
      var init := s[..|s| - 1];
      SortStable(cfg, e, init);
      SortSorted(cfg, init);
      InsertEqualKeys(cfg, e, s[|s| - 1], Sort(cfg, init));
      EqualKeysAppend(cfg, e, init, [s[|s| - 1]]);
      assert init + [s[|s| - 1]] == s;
    }
  }

  /** Under `newest` (and any unknown key) every comparison is 0 and the order is kept. */
  lemma {:induction false} SortKeepsOrderWhenAllEqual(cfg: SortConfig, s: seq<Product>)
    requires cfg.key != "name" && cfg.key != "price" && cfg.key != "popular"
    ensures Sort(cfg, s) == s
    decreases |s|
  {
    if |s| > 0 {
      var init, last := s[..|s| - 1], s[|s| - 1];
      assert Sort(cfg, s) == Insert(cfg, last, Sort(cfg, init));
      SortKeepsOrderWhenAllEqual(cfg, init);
      InsertAtEnd(cfg, last, init);
      assert init + [last] == s;
    }
  }

  lemma {:induction false} InsertAtEnd(cfg: SortConfig, x: Product, s: seq<Product>)
    requires cfg.key != "name" && cfg.key != "price" && cfg.key != "popular"
    ensures Insert(cfg, x, s) == s + [x]
    decreases |s|
  {
    if |s| > 0 {
      InsertAtEnd(cfg, x, s[1..]);
      assert s == [s[0]] + s[1..];
    }
  }

  /** Price ascending gives non-decreasing prices, descending non-increasing ones. */
  lemma PriceOrder(dir: string, s: seq<Product>)
    ensures var r := Sort(SortConfig("price", Some(dir)), s);
      forall i, j :: 0 <= i < j < |r| ==>
        if dir == "asc" then r[i].price <= r[j].price else r[i].price >= r[j].price
  {
    SortSorted(SortConfig("price", Some(dir)), s);
  }

  /** `popular` puts higher ratings first. */
  lemma PopularOrder(dir: Option<string>, s: seq<Product>)
    ensures var r := Sort(SortConfig("popular", dir), s);
      forall i, j :: 0 <= i < j < |r| ==> r[i].rating >= r[j].rating
  {
    SortSorted(SortConfig("popular", dir), s);
  }

  /** filteredProducts: the filter, then the sort. */
  function Visible(ps: seq<Product>, term: string, params: map<string, string>, cfg: SortConfig): seq<Product> {
    Sort(cfg, Filter(ps, term, params))
  }

  /** The visible list holds exactly the matching products, as often as the catalogue does, in sorted order. */
  lemma VisibleSpec(ps: seq<Product>, term: string, params: map<string, string>, cfg: SortConfig)
    ensures var r := Visible(ps, term, params, cfg);
      && Sorted(cfg, r)
      && (forall p :: multiset(r)[p] == if Matches(p, term, params) then multiset(ps)[p] else 0)
  {
    SortSorted(cfg, Filter(ps, term, params));
  }

  // ---------------------------------------------------------------------------
  // Sort select
  // ---------------------------------------------------------------------------

  /** handleSortChange: `popular` and `newest` go descending, anything else splits at `-`. */
  function ParseSort(value: string): (cfg: SortConfig)
    ensures value == "popular" || value == "newest" ==> cfg == SortConfig(value, Some("desc"))
  {
    if value == "popular" || value == "newest" then SortConfig(value, Some("desc"))
    else
      var parts := Split(value, '-');
      SortConfig(parts[0], if |parts| >= 2 then Some(parts[1]) else None)
  }

  /** The value the select shows for a sort configuration. */
  function SortValue(cfg: SortConfig): string {
    if cfg.key == "popular" || cfg.key == "newest" then cfg.key
    else cfg.key + "-" + (if cfg.direction.Some? then cfg.direction.value else "undefined")
  }

  /** A `key-direction` value is read back as that key and direction, and shown as the same value. */
  lemma ParseSortKeyDirection(k: string, d: string)
    requires '-' !in k && '-' !in d
    requires k != "popular" && k != "newest"
    ensures ParseSort(k + "-" + d) == SortConfig(k, Some(d))
    ensures SortValue(ParseSort(k + "-" + d)) == k + "-" + d
  {
    var v := k + "-" + d;
    assert v == Join([k, d], '-');
    SplitJoin([k, d], '-');
    assert v != "popular" && v != "newest" by {
      assert v[|k|] == '-';
      assert '-' !in "popular" && '-' !in "newest";
    }
  }

  /** The four `key-direction` options of the sort select round-trip through handleSortChange and the select value. */
  lemma SortOptionRoundTrip(k: string, d: string)
    requires k == "name" || k == "price"
    requires d == "asc" || d == "desc"
    ensures ParseSort(k + "-" + d) == SortConfig(k, Some(d))
    ensures SortValue(ParseSort(k + "-" + d)) == k + "-" + d
  {
    ParseSortKeyDirection(k, d);
  }

  /** The `popular` and `newest` options round-trip as well, always descending. */
  lemma SortKeywordRoundTrip(v: string)
    requires v == "popular" || v == "newest"
    ensures ParseSort(v) == SortConfig(v, Some("desc"))
    ensures SortValue(ParseSort(v)) == v
  {
  }

  // ---------------------------------------------------------------------------
  // Pagination
  // ---------------------------------------------------------------------------

  /** Array.prototype.slice, negative indices counting from the end. */
  function JsSlice(s: seq<Product>, start: int, end: int): (r: seq<Product>)
    ensures |r| <= |s|
  {
    var n := |s|;
    var from := if start < 0 then (if n + start < 0 then 0 else n + start) else (if start > n then n else start);
    var to := if end < 0 then (if n + end < 0 then 0 else n + end) else (if end > n then n else end);
    if from >= to then [] else s[from..to]
  }

  /** The products of page p: slice(p * 8 - 8, p * 8). */
  function PageOf(items: seq<Product>, page: int): seq<Product> {
    JsSlice(items, page * ItemsPerPage - ItemsPerPage, page * ItemsPerPage)
  }

  /** Math.ceil(n / 8). */
  function TotalPages(n: nat): (t: nat)
    ensures n == 0 ==> t == 0
    ensures n > 0 ==> (t - 1) * ItemsPerPage < n <= t * ItemsPerPage
  {
    (n + ItemsPerPage - 1) / ItemsPerPage
  }

  /** Page p (from 1) holds the items at indices [(p-1)*8, p*8) that exist, in order. */
  lemma PageContents(items: seq<Product>, p: int)
    requires p >= 1
    ensures var r := PageOf(items, p);
      && |r| == (if (p - 1) * 8 >= |items| then 0 else if |items| - (p - 1) * 8 < 8 then |items| - (p - 1) * 8 else 8)
      && forall k :: 0 <= k < |r| ==> r[k] == items[(p - 1) * 8 + k]
  {
  }

  /** A page beyond the last is empty, and every page from 1 to the last is not. */
  lemma PageEmptyIff(items: seq<Product>, p: int)
    requires p >= 1
    ensures PageOf(items, p) == [] <==> p > TotalPages(|items|)
  {
    PageContents(items, p);
  }

  /** Every item is on exactly the page its index says, and that page exists. */
  lemma PageOfIndex(items: seq<Product>, i: int)
    requires 0 <= i < |items|
    ensures var p := i / 8 + 1;
      && 1 <= p <= TotalPages(|items|)
      && i % 8 < |PageOf(items, p)|
      && PageOf(items, p)[i % 8] == items[i]
  {
    var p := i / 8 + 1;
    PageContents(items, p);
    assert (p - 1) * 8 + i % 8 == i;
  }

  /** Button i of the page window. */
  function PageButton(current: int, total: nat, i: nat): int {
    if total <= 5 then i + 1
    else if current <= 3 then i + 1
    else if current >= total - 2 then total - 4 + i
    else current - 2 + i
  }

  /** Array.from({length: Math.min(5, totalPages)}, ...) */
  function PageWindow(current: int, total: nat): (w: seq<int>)
    ensures |w| == if total < 5 then total else 5
    ensures forall i :: 0 <= i < |w| ==> w[i] == PageButton(current, total, i)
  {
    seq(if total < 5 then total else 5, i requires 0 <= i => PageButton(current, total, i))
  }

  /** For a current page within range the window is consecutive, in range and shows the current page. */
  lemma PageWindowSpec(current: int, total: nat)
    requires 1 <= current <= total
    ensures var w := PageWindow(current, total);
      && (forall i :: 0 <= i < |w| - 1 ==> w[i + 1] == w[i] + 1)
      && (forall i :: 0 <= i < |w| ==> 1 <= w[i] <= total)
      && current in w
  {
    var w := PageWindow(current, total);
    var k := if total <= 5 || current <= 3 then current - 1
             else if current >= total - 2 then current - total + 4
             else 2;
    assert 0 <= k < |w| && w[k] == current;
  }

  // ---------------------------------------------------------------------------
  // The page
  // ---------------------------------------------------------------------------

  class ProductsView {
    var products: seq<Product>
    var searchTerm: string
    var params: map<string, string>
    var sortConfig: SortConfig
    var currentPage: int

    /** Mount: term from `q`, first page, name ascending, catalogue not yet fetched. */
    constructor (params: map<string, string>)
      ensures this.params == params
      ensures searchTerm == (if "q" in params then params["q"] else "")
      ensures products == [] && currentPage == 1 && sortConfig == SortConfig("name", Some("asc"))
    {
      this.params := params;
      searchTerm := if "q" in params then params["q"] else "";
      products := [];
      currentPage := 1;
      sortConfig := SortConfig("name", Some("asc"));
    }

    /** The simulated fetch resolving. */
    method Loaded()
      modifies this
      ensures products == MockProducts
      ensures searchTerm == old(searchTerm) && params == old(params)
      ensures sortConfig == old(sortConfig) && currentPage == old(currentPage)
    {
      products := MockProducts;
    }

    /** Typing in the search box. */
    method SetSearchTerm(t: string)
      modifies this
      ensures searchTerm == t
      ensures products == old(products) && params == old(params)
      ensures sortConfig == old(sortConfig) && currentPage == old(currentPage)
    {
      searchTerm := t;
    }

    /** handleSearch: mirror the term into `q` (or drop it) and go back to page 1. */
    method HandleSearch()
      modifies this
      ensures params == if searchTerm != "" then old(params)["q" := searchTerm] else old(params) - {"q"}
      ensures currentPage == 1
      ensures products == old(products) && searchTerm == old(searchTerm) && sortConfig == old(sortConfig)
    {
      if searchTerm != "" {
        params := params["q" := searchTerm];
      } else {
        params := params - {"q"};
      }
      currentPage := 1;
    }

    method HandleSortChange(value: string)
      modifies this
      ensures sortConfig == ParseSort(value)
      ensures products == old(products) && searchTerm == old(searchTerm)
      ensures params == old(params) && currentPage == old(currentPage)
    {
      sortConfig := ParseSort(value);
    }

    /** handlePriceRangeChange: `all` drops the parameter, and then no price filter applies. */
    method HandlePriceRangeChange(range: string)
      modifies this
      ensures params == if range == "all" then old(params) - {"price"} else old(params)["price" := range]
      ensures range != "" ==> ParamOr(params, "price") == range
      ensures products == old(products) && searchTerm == old(searchTerm)
      ensures sortConfig == old(sortConfig) && currentPage == old(currentPage)
    {
      if range == "all" {
        params := params - {"price"};
      } else {
        params := params["price" := range];
      }
    }

    /** handleCategoryChange: `all` drops the parameter, and then every category matches. */
    method HandleCategoryChange(categoryId: string)
      modifies this
      ensures params == if categoryId == "all" then old(params) - {"category"} else old(params)["category" := categoryId]
      ensures categoryId != "" ==> ParamOr(params, "category") == categoryId
      ensures products == old(products) && searchTerm == old(searchTerm)
      ensures sortConfig == old(sortConfig) && currentPage == old(currentPage)
    {
      if categoryId == "all" {
        params := params - {"category"};
      } else {
        params := params["category" := categoryId];
      }
    }

    method Paginate(pageNumber: int)
      modifies this
      ensures currentPage == pageNumber
      ensures products == old(products) && searchTerm == old(searchTerm)
      ensures params == old(params) && sortConfig == old(sortConfig)
    {
      currentPage := pageNumber;
    }

    function FilteredProducts(): seq<Product>
      reads this
    {
      Visible(products, searchTerm, params, sortConfig)
    }

    function CurrentProducts(): seq<Product>
      reads this
    {
      PageOf(FilteredProducts(), currentPage)
    }

    function PageCount(): nat
      reads this
    {
      TotalPages(|FilteredProducts()|)
    }
  }
}
