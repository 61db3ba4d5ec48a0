/**
 * The shopping cart (frontend/src/contexts/CartContext.jsx): a reducer over an
 * ordered sequence of line items keyed by product id, and the provider that
 * dispatches actions and mirrors the items to the storage key "cart".
 */
module CartContext {
  import opened Wrappers
  import opened Json
  import JsonList
  import opened Catalog
  import opened LocalStorage

  /** A cart line: the product snapshot spread into the line, plus its quantity. */
  datatype LineItem = LineItem(product: Product, quantity: int)

  function Id(l: LineItem): nat { l.product.id }

  /** The ADD_ITEM payload: a product with an optional `quantity` field. */
  datatype AddPayload = AddPayload(product: Product, quantity: Option<int>)

  datatype Action =
    | AddItem(payload: AddPayload)
    | RemoveItem(id: nat)
    | UpdateQuantity(id: nat, quantity: int)
    | ClearCart
    | LoadCart(items: seq<LineItem>)

  /** `payload.quantity || 1`: a missing or zero quantity counts as 1. */
  function AddedQuantity(p: AddPayload): (q: int)
    ensures q != 0
    ensures p.quantity.Some? && p.quantity.value != 0 ==> q == p.quantity.value
    ensures p.quantity.None? || p.quantity.value == 0 ==> q == 1
  {
    match p.quantity
    case None => 1
    case Some(q) => if q == 0 then 1 else q
  }

  predicate HasId(items: seq<LineItem>, id: nat) {
    exists i :: 0 <= i < |items| && Id(items[i]) == id
  }

  /** Array.prototype.findIndex on the line ids. */
  function FindIndex(items: seq<LineItem>, id: nat): (k: int)
    ensures -1 <= k < |items|
    ensures k == -1 <==> !HasId(items, id)
    ensures k >= 0 ==> Id(items[k]) == id && forall j :: 0 <= j < k ==> Id(items[j]) != id
  {
    if |items| == 0 then -1
    else if Id(items[0]) == id then 0
    else
      var k := FindIndex(items[1..], id);
      if k < 0 then -1 else k + 1
  }

  /** At most one line per product id. */
  predicate UniqueIds(items: seq<LineItem>) {
    forall i, j :: 0 <= i < j < |items| ==> Id(items[i]) != Id(items[j])
  }

  // ---------------------------------------------------------------------------
  // The reducer
  // ---------------------------------------------------------------------------

  /** ADD_ITEM: merge into the first line with the same id, otherwise append. */
  function Add(items: seq<LineItem>, p: AddPayload): (r: seq<LineItem>)
    ensures HasId(items, p.product.id) ==>
      var k := FindIndex(items, p.product.id);
      && |r| == |items|
      && r[k].product == items[k].product
      && r[k].quantity == items[k].quantity + AddedQuantity(p)
      && forall j :: 0 <= j < |items| && j != k ==> r[j] == items[j]
    ensures !HasId(items, p.product.id) ==>
      r == items + [LineItem(p.product, AddedQuantity(p))]
  {
    var k := FindIndex(items, p.product.id);
    if k > -1 then items[k := LineItem(items[k].product, items[k].quantity + AddedQuantity(p))]
    else items + [LineItem(p.product, AddedQuantity(p))]
  }

  /** REMOVE_ITEM: keep the lines whose id differs. */
  function Remove(items: seq<LineItem>, id: nat): (r: seq<LineItem>)
    ensures !HasId(r, id)
    ensures |r| <= |items|
    ensures forall l :: l in r <==> l in items && Id(l) != id
  {
    if |items| == 0 then []
    else if Id(items[0]) != id then [items[0]] + Remove(items[1..], id)
    else Remove(items[1..], id)
  }

  /** UPDATE_QUANTITY: every line with the id gets exactly `q`, the others stay. */
  function SetQuantity(items: seq<LineItem>, id: nat, q: int): (r: seq<LineItem>)
    ensures |r| == |items|
    ensures forall i :: 0 <= i < |items| ==>
      r[i] == if Id(items[i]) == id then LineItem(items[i].product, q) else items[i]
  {
    seq(|items|, i requires 0 <= i < |items| =>
      if Id(items[i]) == id then LineItem(items[i].product, q) else items[i])
  }

  function Reduce(items: seq<LineItem>, a: Action): seq<LineItem> {
    match a
    case AddItem(p) => Add(items, p)
    case RemoveItem(id) => Remove(items, id)
    case UpdateQuantity(id, q) => SetQuantity(items, id, q)
    case ClearCart => []
    case LoadCart(xs) => xs
  }

  // ---------------------------------------------------------------------------
  // Folds
  // ---------------------------------------------------------------------------

  /** getCartTotal: items.reduce((total, item) => total + item.price * item.quantity, 0). */
  function Total(items: seq<LineItem>): int {
    if |items| == 0 then 0
    else Total(items[..|items| - 1]) + items[|items| - 1].product.price * items[|items| - 1].quantity
  }

  /** getCartCount: items.reduce((count, item) => count + item.quantity, 0). */
  function Count(items: seq<LineItem>): int {
    if |items| == 0 then 0 else Count(items[..|items| - 1]) + items[|items| - 1].quantity
  }

  /** Sum of the quantities on the lines carrying `id`. */
  function QuantityOf(items: seq<LineItem>, id: nat): int {
    if |items| == 0 then 0
    else QuantityOf(items[..|items| - 1], id)
         + (if Id(items[|items| - 1]) == id then items[|items| - 1].quantity else 0)
  }

  lemma {:induction false} TotalAppend(a: seq<LineItem>, b: seq<LineItem>)
    ensures Total(a + b) == Total(a) + Total(b)
    decreases |b|
  {
    if |b| == 0 {
      assert a + b == a;
    } else {
      assert (a + b)[..|a + b| - 1] == a + b[..|b| - 1];
      TotalAppend(a, b[..|b| - 1]);
    }
  }

  lemma {:induction false} CountAppend(a: seq<LineItem>, b: seq<LineItem>)
    ensures Count(a + b) == Count(a) + Count(b)
    decreases |b|
  {
    if |b| == 0 {
      assert a + b == a;
    } else {
      assert (a + b)[..|a + b| - 1] == a + b[..|b| - 1];
      CountAppend(a, b[..|b| - 1]);
    }
  }

  /** While every line holds at least one unit, the badge count is at least the number of lines. */
  lemma {:induction false} CountAtLeastLines(items: seq<LineItem>)
    requires forall i :: 0 <= i < |items| ==> items[i].quantity >= 1
    ensures Count(items) >= |items|
    decreases |items|
  {
    if |items| > 0 {
      CountAtLeastLines(items[..|items| - 1]);
    }
  }

  lemma {:induction false} QuantityOfAppend(a: seq<LineItem>, b: seq<LineItem>, id: nat)
    ensures QuantityOf(a + b, id) == QuantityOf(a, id) + QuantityOf(b, id)
    decreases |b|
  {
    if |b| == 0 {
      assert a + b == a;
    } else {
      assert (a + b)[..|a + b| - 1] == a + b[..|b| - 1];
      QuantityOfAppend(a, b[..|b| - 1], id);
    }
  }

  lemma QuantityOfSingle(l: LineItem, id: nat)
    ensures QuantityOf([l], id) == if Id(l) == id then l.quantity else 0
  {
    assert [l][..0] == [];
  }

  /** Splits a sequence around position k, for the one-line updates below. */
  lemma Around(items: seq<LineItem>, k: int)
    requires 0 <= k < |items|
    ensures items == items[..k] + [items[k]] + items[k + 1..]
  {
  }

  /** A line with a different id contributes nothing to QuantityOf. */
  lemma {:induction false} QuantityOfAbsent(items: seq<LineItem>, id: nat)
    requires !HasId(items, id)
    ensures QuantityOf(items, id) == 0
    decreases |items|
  {
    if |items| > 0 {
      var init := items[..|items| - 1];
      assert !HasId(init, id) by {
        forall i | 0 <= i < |init| ensures Id(init[i]) != id { assert init[i] == items[i]; }
      }
      QuantityOfAbsent(init, id);
    }
  }

  // ---------------------------------------------------------------------------
  // What ADD_ITEM does to the folds and to the invariant
  // ---------------------------------------------------------------------------

  /**
   * Adding raises the quantity held for the payload's id by `payload.quantity || 1`
   * and leaves the quantity held for every other id unchanged.
   */
  lemma AddQuantityOf(items: seq<LineItem>, p: AddPayload, id: nat)
    ensures QuantityOf(Add(items, p), id)
         == QuantityOf(items, id) + (if id == p.product.id then AddedQuantity(p) else 0)
  {
    var r := Add(items, p);
    var pid := p.product.id;
    if HasId(items, pid) {
      var k := FindIndex(items, pid);
      Around(items, k);
      Around(r, k);
      assert r[..k] == items[..k];
      assert r[k + 1..] == items[k + 1..];
      QuantityOfAppend(items[..k] + [items[k]], items[k + 1..], id);
      QuantityOfAppend(items[..k], [items[k]], id);
      QuantityOfAppend(r[..k] + [r[k]], r[k + 1..], id);
      QuantityOfAppend(r[..k], [r[k]], id);
      QuantityOfSingle(items[k], id);
      QuantityOfSingle(r[k], id);
    } else {
      QuantityOfAppend(items, [LineItem(p.product, AddedQuantity(p))], id);
      QuantityOfSingle(LineItem(p.product, AddedQuantity(p)), id);
    }
  }

  /** getCartCount grows by exactly the added quantity. */
  lemma AddCount(items: seq<LineItem>, p: AddPayload)
    ensures Count(Add(items, p)) == Count(items) + AddedQuantity(p)
  {
    var r := Add(items, p);
    if HasId(items, p.product.id) {
      var k := FindIndex(items, p.product.id);
      Around(items, k);
      Around(r, k);
      assert r[..k] == items[..k];
      assert r[k + 1..] == items[k + 1..];
      CountAppend(items[..k] + [items[k]], items[k + 1..]);
      CountAppend(items[..k], [items[k]]);
      CountAppend(r[..k] + [r[k]], r[k + 1..]);
      CountAppend(r[..k], [r[k]]);
      assert [items[k]][..0] == [] && [r[k]][..0] == [];
    } else {
      CountAppend(items, [LineItem(p.product, AddedQuantity(p))]);
      assert [LineItem(p.product, AddedQuantity(p))][..0] == [];
    }
  }

  /**
   * getCartTotal grows by the added quantity times the price already stored in
   * the cart for that id; the payload's own price is used only for a new line.
   */
  lemma AddTotal(items: seq<LineItem>, p: AddPayload)
    ensures HasId(items, p.product.id) ==>
      Total(Add(items, p)) == Total(items)
        + items[FindIndex(items, p.product.id)].product.price * AddedQuantity(p)
    ensures !HasId(items, p.product.id) ==>
      Total(Add(items, p)) == Total(items) + p.product.price * AddedQuantity(p)
  {
    if HasId(items, p.product.id) {
      var k := FindIndex(items, p.product.id);
      var l := items[k];
      TotalReplace(items, k, LineItem(l.product, l.quantity + AddedQuantity(p)));
      Distribute(l.product.price, l.quantity, AddedQuantity(p));
    } else {
      TotalAppend(items, [LineItem(p.product, AddedQuantity(p))]);
      assert [LineItem(p.product, AddedQuantity(p))][..0] == [];
    }
  }

  lemma Distribute(a: int, b: int, c: int)
    ensures a * (b + c) == a * b + a * c
  {
  }

  /** Replacing one line changes the total by the difference of the two line amounts. */
  lemma TotalReplace(items: seq<LineItem>, k: int, l: LineItem)
    requires 0 <= k < |items|
    ensures Total(items[k := l])
         == Total(items) - items[k].product.price * items[k].quantity + l.product.price * l.quantity
  {
    var r := items[k := l];
    Around(items, k);
    Around(r, k);
    assert r[..k] == items[..k];
    assert r[k + 1..] == items[k + 1..];
    TotalAppend(items[..k] + [items[k]], items[k + 1..]);
    TotalAppend(items[..k], [items[k]]);
    TotalAppend(r[..k] + [r[k]], r[k + 1..]);
    TotalAppend(r[..k], [r[k]]);
    assert [items[k]][..0] == [] && [r[k]][..0] == [];
  }

  /** ADD_ITEM keeps "at most one line per id". */
  lemma AddKeepsUnique(items: seq<LineItem>, p: AddPayload)
    requires UniqueIds(items)
    ensures UniqueIds(Add(items, p))
  {
    var r := Add(items, p);
    if HasId(items, p.product.id) {
      forall i, j | 0 <= i < j < |r| ensures Id(r[i]) != Id(r[j]) {
        assert Id(r[i]) == Id(items[i]) && Id(r[j]) == Id(items[j]);
      }
    } else {
      forall i, j | 0 <= i < j < |r| ensures Id(r[i]) != Id(r[j]) {
        if j == |items| {
          assert Id(r[i]) == Id(items[i]);
        }
      }
    }
  }

  /** Adding to a cart holding the id never adds a line; otherwise it adds exactly one. */
  lemma AddLength(items: seq<LineItem>, p: AddPayload)
    ensures |Add(items, p)| == |items| + (if HasId(items, p.product.id) then 0 else 1)
  {
  }

  // ---------------------------------------------------------------------------
  // REMOVE_ITEM, UPDATE_QUANTITY
  // ---------------------------------------------------------------------------

  /** Removing distributes over concatenation, so the kept lines stay in order. */
  lemma {:induction false} RemoveAppend(a: seq<LineItem>, b: seq<LineItem>, id: nat)
    ensures Remove(a + b, id) == Remove(a, id) + Remove(b, id)
    decreases |a|
  {
    if |a| == 0 {
      assert a + b == b;
    } else {
      assert (a + b)[1..] == a[1..] + b;
      RemoveAppend(a[1..], b, id);
    }
  }

  /** Removing an id that is not in the cart changes nothing. */
  lemma {:induction false} RemoveAbsent(items: seq<LineItem>, id: nat)
    requires !HasId(items, id)
    ensures Remove(items, id) == items
    decreases |items|
  {
    if |items| > 0 {
      assert !HasId(items[1..], id) by {
        forall i | 0 <= i < |items| - 1 ensures Id(items[1..][i]) != id { assert items[1..][i] == items[i + 1]; }
      }
      RemoveAbsent(items[1..], id);
      assert [items[0]] + items[1..] == items;
    }
  }

  /** getCartCount drops by exactly the quantity held for the removed id. */
  lemma {:induction false} RemoveCount(items: seq<LineItem>, id: nat)
    ensures Count(Remove(items, id)) == Count(items) - QuantityOf(items, id)
    decreases |items|
  {
    if |items| > 0 {
      Around(items, 0);
      assert items == [items[0]] + items[1..];
      RemoveAppend([items[0]], items[1..], id);
      RemoveCount(items[1..], id);
      CountAppend([items[0]], items[1..]);
      QuantityOfAppend([items[0]], items[1..], id);
      QuantityOfSingle(items[0], id);
      assert [items[0]][..0] == [];
      assert Remove([items[0]], id) == if Id(items[0]) != id then [items[0]] else [];
      CountAppend(Remove([items[0]], id), Remove(items[1..], id));
    }
  }

  /** Removing keeps every remaining id unique. */
  lemma {:induction false} RemoveKeepsUnique(items: seq<LineItem>, id: nat)
    requires UniqueIds(items)
    ensures UniqueIds(Remove(items, id))
    decreases |items|
  {
    if |items| > 0 {
      var tail := items[1..];
      assert UniqueIds(tail) by {
        forall i, j | 0 <= i < j < |tail| ensures Id(tail[i]) != Id(tail[j]) {
          assert tail[i] == items[i + 1] && tail[j] == items[j + 1];
        }
      }
      RemoveKeepsUnique(tail, id);
      var rt := Remove(tail, id);
      if Id(items[0]) != id {
        forall l | l in rt ensures Id(l) != Id(items[0]) {
          assert l in tail;
          var j :| 0 <= j < |tail| && tail[j] == l;
          assert tail[j] == items[j + 1];
        }
        var r := [items[0]] + rt;
        forall i, j | 0 <= i < j < |r| ensures Id(r[i]) != Id(r[j]) {
          if i == 0 {
            assert r[j] == rt[j - 1];
            assert r[j] in rt;
          } else {
            assert r[i] == rt[i - 1] && r[j] == rt[j - 1];
          }
        }
      }
    }
  }

  /**
   * With unique ids, UPDATE_QUANTITY sets the quantity held for `id` to exactly
   * q when the id is present; the quantity of every other id is unchanged.
   */
  lemma {:induction false} SetQuantityOf(items: seq<LineItem>, id: nat, q: int, other: nat)
    requires UniqueIds(items)
    ensures QuantityOf(SetQuantity(items, id, q), id) == if HasId(items, id) then q else 0
    ensures other != id ==> QuantityOf(SetQuantity(items, id, q), other) == QuantityOf(items, other)
    decreases |items|
  {
    if |items| > 0 {
      var n := |items| - 1;
      var init := items[..n];
      var r := SetQuantity(items, id, q);
      assert r[..n] == SetQuantity(init, id, q);
      assert UniqueIds(init);
      SetQuantityOf(init, id, q, other);
      if Id(items[n]) == id {
        assert !HasId(init, id) by {
          forall i | 0 <= i < n ensures Id(init[i]) != id { assert init[i] == items[i]; }
        }
        QuantityOfAbsent(SetQuantity(init, id, q), id) by {
          assert !HasId(SetQuantity(init, id, q), id);
        }
      } else if HasId(items, id) {
        var i :| 0 <= i < |items| && Id(items[i]) == id;
        assert i < n && init[i] == items[i];
      } else {
        assert !HasId(init, id) by {
          forall i | 0 <= i < n ensures Id(init[i]) != id { assert init[i] == items[i]; }
        }
      }
    }
  }

  /** UPDATE_QUANTITY keeps the ids, hence the invariant, and the order. */
  lemma SetQuantityKeepsIds(items: seq<LineItem>, id: nat, q: int)
    ensures forall i :: 0 <= i < |items| ==> Id(SetQuantity(items, id, q)[i]) == Id(items[i])
    ensures UniqueIds(items) ==> UniqueIds(SetQuantity(items, id, q))
  {
  }

  /** Every reducer action keeps "at most one line per id", LOAD_CART given a valid load. */
  lemma ReduceKeepsUnique(items: seq<LineItem>, a: Action)
    requires UniqueIds(items)
    requires a.LoadCart? ==> UniqueIds(a.items)
    ensures UniqueIds(Reduce(items, a))
  {
    match a
    case AddItem(p) => AddKeepsUnique(items, p);
    case RemoveItem(id) => RemoveKeepsUnique(items, id);
    case UpdateQuantity(id, q) => SetQuantityKeepsIds(items, id, q);
    case ClearCart =>
    case LoadCart(xs) =>
  }

  // ---------------------------------------------------------------------------
  // Repeated adds, and the worked example of a 9.99 bulb added twice
  // ---------------------------------------------------------------------------

  function AddAll(items: seq<LineItem>, ps: seq<AddPayload>): seq<LineItem>
    decreases |ps|
  {
    if |ps| == 0 then items else AddAll(Add(items, ps[0]), ps[1..])
  }

  function SumAdded(ps: seq<AddPayload>, id: nat): int {
    if |ps| == 0 then 0
    else (if ps[0].product.id == id then AddedQuantity(ps[0]) else 0) + SumAdded(ps[1..], id)
  }

  /**
   * After any sequence of adds the quantity held for an id is what it was plus
   * the sum of the requested quantities (each `quantity || 1`) for that id, and
   * the ids stay unique.
   */
  lemma {:induction false} AddAllQuantity(items: seq<LineItem>, ps: seq<AddPayload>, id: nat)
    requires UniqueIds(items)
    ensures QuantityOf(AddAll(items, ps), id) == QuantityOf(items, id) + SumAdded(ps, id)
    ensures UniqueIds(AddAll(items, ps))
    decreases |ps|
  {
    if |ps| > 0 {
      AddQuantityOf(items, ps[0], id);
      AddKeepsUnique(items, ps[0]);
      AddAllQuantity(Add(items, ps[0]), ps[1..], id);
    }
  }

  lemma BulbAddedTwice()
    ensures var bulb := Product(1, "LED Bulb", 999, "/images/bulb.jpeg", "lighting", 0);
            var r := AddAll([], [AddPayload(bulb, Some(1)), AddPayload(bulb, Some(2))]);
            r == [LineItem(bulb, 3)] && Total(r) == 2997 && Count(r) == 3
  {
    var bulb := Product(1, "LED Bulb", 999, "/images/bulb.jpeg", "lighting", 0);
    var p1, p2 := AddPayload(bulb, Some(1)), AddPayload(bulb, Some(2));
    assert [p1, p2][1..] == [p2];
    assert [p2][1..] == [];
    var once := Add([], AddPayload(bulb, Some(1)));
    assert once == [LineItem(bulb, 1)];
    assert FindIndex(once, 1) == 0;
    var twice := Add(once, AddPayload(bulb, Some(2)));
    assert twice == [LineItem(bulb, 3)];
    assert AddAll(twice, []) == twice;
    assert AddAll(once, [p2]) == AddAll(twice, []);
    assert AddAll([], [p1, p2]) == AddAll(once, [p2]);
    assert [LineItem(bulb, 3)][..0] == [];
  }

  // ---------------------------------------------------------------------------
  // Stored form
  // ---------------------------------------------------------------------------

  const CartKey := "cart"

  function LineToValue(l: LineItem): Value {
    Arr([ProductToValue(l.product), Num(l.quantity)])
  }

  function LineFromValue(v: Value): (r: Option<LineItem>)
    ensures r.Some? ==> LineToValue(r.value) == v
  {
    match v
    case Arr(fs) =>
      if |fs| == 2 && fs[1].Num? then
        match ProductFromValue(fs[0])
        case None => None
        case Some(p) =>
          assert fs == [fs[0], fs[1]];
          Some(LineItem(p, fs[1].n))
      else None
    case _ => None
  }

  function SerializeItems(items: seq<LineItem>): string {
    Stringify(JsonList.EncodeList(items, LineToValue))
  }

  function ParseItems(text: string): Option<seq<LineItem>> {
    match Parse(text)
    case None => None
    case Some(v) => JsonList.DecodeList(v, LineFromValue)
  }

  lemma ParseSerializeItems(items: seq<LineItem>)
    ensures ParseItems(SerializeItems(items)) == Some(items)
  {
    ParseStringify(JsonList.EncodeList(items, LineToValue));
    forall l ensures LineFromValue(LineToValue(l)) == Some(l) {
      ProductRoundTrip(l.product);
    }
    JsonList.DecodeEncodeList(items, LineToValue, LineFromValue);
  }

  /**
   * The load effect: a missing or empty stored value, or one that does not
   * parse (the caught exception), leaves the cart empty.
   */
  function LoadedItems(saved: Option<string>): (r: seq<LineItem>)
    ensures saved.None? ==> r == []
    ensures saved.Some? && ParseItems(saved.value).None? ==> r == []
  {
    if saved.Some? && saved.value != "" then
      match ParseItems(saved.value)
      case Some(xs) => xs
      case None => []
    else []
  }

  /** The save effect: write the items when there are some, erase the key otherwise. */
  function SaveCart(entries: map<string, string>, items: seq<LineItem>): (r: map<string, string>)
    ensures Persisted(r, items)
    ensures forall k :: k != CartKey ==> (k in r <==> k in entries) && (k in r ==> r[k] == entries[k])
  {
    if |items| > 0 then entries[CartKey := SerializeItems(items)] else entries - {CartKey}
  }

  ghost predicate Persisted(entries: map<string, string>, items: seq<LineItem>) {
    && (|items| > 0 ==> CartKey in entries && entries[CartKey] == SerializeItems(items))
    && (|items| == 0 ==> CartKey !in entries)
  }

  /** A cart reloaded from what the save effect wrote has the same lines, in order. */
  lemma ReloadAfterSave(entries: map<string, string>, items: seq<LineItem>)
    ensures var e := SaveCart(entries, items);
            LoadedItems(if CartKey in e then Some(e[CartKey]) else None) == items
  {
    if |items| > 0 {
      ParseSerializeItems(items);
    }
  }

  // ---------------------------------------------------------------------------
  // The provider
  // ---------------------------------------------------------------------------

  /** The object handed to addToCart: a product, possibly carrying its own `quantity`. */
  datatype ProductArg = ProductArg(product: Product, quantity: Option<int>)

  /**
   * addToCart(product, quantity = 1) dispatches { ...product, quantity }: the
   * argument overrides any `quantity` the product object carries.
   */
  function AddToCartPayload(arg: ProductArg, quantity: int): (p: AddPayload)
    ensures p.product == arg.product
    ensures p.quantity == Some(quantity)
  {
    AddPayload(arg.product, Some(quantity))
  }

  class CartProvider {
    const storage: Storage
    var items: seq<LineItem>

    ghost predicate Valid()
      reads this, storage
    {
      Persisted(storage.entries, items)
    }

    /** Mounting runs the load effect, then the save effect on the loaded items. */
    constructor (storage: Storage)
      modifies storage
      ensures this.storage == storage
      ensures items == LoadedItems(old(storage.GetItem(CartKey)))
      ensures storage.entries == SaveCart(old(storage.entries), items)
      ensures Valid()
    {
      this.storage := storage;
      var saved := storage.GetItem(CartKey);
      items := LoadedItems(saved);
      new;
      Save();
    }

    method Save()
      modifies storage
      ensures storage.entries == SaveCart(old(storage.entries), items)
      ensures Valid()
    {
      if |items| > 0 {
        storage.SetItem(CartKey, SerializeItems(items));
      } else {
        storage.RemoveItem(CartKey);
      }
    }

    method Dispatch(a: Action)
      modifies this, storage
      ensures items == Reduce(old(items), a)
      ensures storage.entries == SaveCart(old(storage.entries), items)
      ensures Valid()
    {
      items := Reduce(items, a);
      Save();
    }

    method AddToCart(arg: ProductArg, quantity: int := 1)
      modifies this, storage
      ensures items == Add(old(items), AddToCartPayload(arg, quantity))
      ensures storage.entries == SaveCart(old(storage.entries), items)
      ensures UniqueIds(old(items)) ==> UniqueIds(items)
      ensures Valid()
    {
      ghost var before := items;
      Dispatch(AddItem(AddToCartPayload(arg, quantity)));
      if UniqueIds(before) {
        AddKeepsUnique(before, AddToCartPayload(arg, quantity));
      }
    }

    method RemoveFromCart(id: nat)
      modifies this, storage
      ensures items == Remove(old(items), id)
      ensures storage.entries == SaveCart(old(storage.entries), items)
      ensures UniqueIds(old(items)) ==> UniqueIds(items)
      ensures Valid()
    {
      ghost var before := items;
      Dispatch(RemoveItem(id));
      if UniqueIds(before) {
        RemoveKeepsUnique(before, id);
      }
    }

    /** A quantity below 1 removes the line; otherwise it is set verbatim. */
    method UpdateQuantityOf(id: nat, quantity: int)
      modifies this, storage
      ensures quantity < 1 ==> items == Remove(old(items), id)
      ensures quantity >= 1 ==> items == SetQuantity(old(items), id, quantity)
      ensures storage.entries == SaveCart(old(storage.entries), items)
      ensures UniqueIds(old(items)) ==> UniqueIds(items)
      ensures Valid()
    {
      if quantity < 1 {
        RemoveFromCart(id);
        return;
      }
      ghost var before := items;
      Dispatch(UpdateQuantity(id, quantity));
      SetQuantityKeepsIds(before, id, quantity);
    }

    /** Clearing empties the cart and erases the stored key. */
    method Clear()
      modifies this, storage
      ensures items == []
      ensures storage.entries == old(storage.entries) - {CartKey}
      ensures Valid()
    {
      Dispatch(ClearCart);
    }

    function GetCartTotal(): int
      reads this
    {
      Total(items)
    }

    function GetCartCount(): int
      reads this
    {
      Count(items)
    }
  }
}
