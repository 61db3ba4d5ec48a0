/**
 * The wishlist (frontend/src/contexts/WishlistContext.jsx): a list of product
 * snapshots with no two sharing an id, mirrored to the storage key "wishlist"
 * on every change once loaded, the empty list included.
 */
module WishlistContext {
  import opened Wrappers
  import opened Catalog
  import opened LocalStorage

  const WishlistKey := "wishlist"

  /** isInWishlist: wishlist.some(item => item.id === productId). */
  function InList(ws: seq<Product>, pid: nat): (b: bool)
    ensures b <==> exists i :: 0 <= i < |ws| && ws[i].id == pid
  {
    if |ws| == 0 then false
    else ws[0].id == pid || InList(ws[1..], pid)
  }

  predicate UniqueIds(ws: seq<Product>) {
    forall i, j :: 0 <= i < j < |ws| ==> ws[i].id != ws[j].id
  }

  /** removeFromWishlist: wishlist.filter(item => item.id !== productId). */
  function RemoveId(ws: seq<Product>, pid: nat): (r: seq<Product>)
    ensures !InList(r, pid)
    ensures forall x :: x in r <==> x in ws && x.id != pid
    ensures |r| <= |ws|
  {
    if |ws| == 0 then []
    else if ws[0].id != pid then [ws[0]] + RemoveId(ws[1..], pid)
    else RemoveId(ws[1..], pid)
  }

  /** The list addToWishlist leaves behind: appended when absent, unchanged otherwise. */
  function Added(ws: seq<Product>, p: Product): (r: seq<Product>)
    ensures InList(r, p.id)
  {
    if InList(ws, p.id) then ws
    else
      assert (ws + [p])[|ws|] == p;
      ws + [p]
  }

  /** The list toggleWishlist leaves behind. */
  function Toggled(ws: seq<Product>, p: Product): (r: seq<Product>)
    ensures InList(r, p.id) == !InList(ws, p.id)
  {
    if InList(ws, p.id) then RemoveId(ws, p.id) else Added(ws, p)
  }

  lemma AddedProps(ws: seq<Product>, p: Product)
    ensures InList(Added(ws, p), p.id)
    ensures forall q :: q != p.id ==> (InList(Added(ws, p), q) <==> InList(ws, q))
    ensures UniqueIds(ws) ==> UniqueIds(Added(ws, p))
  {
    var r := Added(ws, p);
    if !InList(ws, p.id) {
      assert r[|ws|] == p;
      forall q | q != p.id ensures InList(r, q) <==> InList(ws, q) {
        if InList(r, q) {
          var i :| 0 <= i < |r| && r[i].id == q;
          assert i < |ws| && ws[i] == r[i];
        }
        if InList(ws, q) {
          var i :| 0 <= i < |ws| && ws[i].id == q;
          assert r[i] == ws[i];
        }
      }
    }
  }

  /** Removing distributes over concatenation, so the kept entries stay in order. */
  lemma {:induction false} RemoveIdAppend(a: seq<Product>, b: seq<Product>, pid: nat)
    ensures RemoveId(a + b, pid) == RemoveId(a, pid) + RemoveId(b, pid)
    decreases |a|
  {
    if |a| == 0 {
      assert a + b == b;
    } else {
      assert (a + b)[1..] == a[1..] + b;
      RemoveIdAppend(a[1..], b, pid);
    }
  }

  /** Removing an id that is absent changes nothing. */
  lemma {:induction false} RemoveIdAbsent(ws: seq<Product>, pid: nat)
    requires !InList(ws, pid)
    ensures RemoveId(ws, pid) == ws
    decreases |ws|
  {
    if |ws| > 0 {
      RemoveIdAbsent(ws[1..], pid);
      assert [ws[0]] + ws[1..] == ws;
    }
  }

  /** With unique ids, removing a member takes out exactly its one entry, keeping the rest in order. */
  lemma RemoveIdUnique(ws: seq<Product>, pid: nat, k: int)
    requires UniqueIds(ws)
    requires 0 <= k < |ws| && ws[k].id == pid
    ensures RemoveId(ws, pid) == ws[..k] + ws[k + 1..]
  {
    assert ws == ws[..k] + ([ws[k]] + ws[k + 1..]);
    assert !InList(ws[..k], pid) by {
      forall i | 0 <= i < k ensures ws[..k][i].id != pid { assert ws[..k][i] == ws[i]; }
    }
    var after := ws[k + 1..];
    assert !InList(after, pid) by {
      forall i | 0 <= i < |after| ensures after[i].id != pid { assert after[i] == ws[k + 1 + i]; }
    }
    RemoveIdAppend(ws[..k], [ws[k]] + ws[k + 1..], pid);
    RemoveIdAppend([ws[k]], ws[k + 1..], pid);
    RemoveIdAbsent(ws[..k], pid);
    RemoveIdAbsent(ws[k + 1..], pid);
    assert RemoveId([ws[k]], pid) == [];
  }

  lemma {:induction false} RemoveIdKeepsUnique(ws: seq<Product>, pid: nat)
    requires UniqueIds(ws)
    ensures UniqueIds(RemoveId(ws, pid))
    decreases |ws|
  {
    if |ws| > 0 {
      var tail := ws[1..];
      assert UniqueIds(tail) by {
        forall i, j | 0 <= i < j < |tail| ensures tail[i].id != tail[j].id {
          assert tail[i] == ws[i + 1] && tail[j] == ws[j + 1];
        }
      }
      RemoveIdKeepsUnique(tail, pid);
      if ws[0].id != pid {
        var rt := RemoveId(tail, pid);
        assert !InList(tail, ws[0].id) by {
          forall i | 0 <= i < |tail| ensures tail[i].id != ws[0].id { assert tail[i] == ws[i + 1]; }
        }
        assert !InList(rt, ws[0].id);
        var r := [ws[0]] + rt;
        forall i, j | 0 <= i < j < |r| ensures r[i].id != r[j].id {
          assert r[j] == rt[j - 1];
          if i > 0 {
            assert r[i] == rt[i - 1];
          }
        }
      }
    }
  }

  /** Toggling keeps the ids unique. */
  lemma ToggledKeepsUnique(ws: seq<Product>, p: Product)
    requires UniqueIds(ws)
    ensures UniqueIds(Toggled(ws, p))
  {
    if InList(ws, p.id) {
      RemoveIdKeepsUnique(ws, p.id);
    } else {
      AddedProps(ws, p);
    }
  }

  /**
   * Toggling twice restores membership of the id. A member comes back as the
   * snapshot passed in, moved to the end; a non-member is gone again.
   */
  lemma ToggleTwice(ws: seq<Product>, p: Product)
    ensures InList(Toggled(Toggled(ws, p), p), p.id) == InList(ws, p.id)
    ensures InList(ws, p.id) ==> Toggled(Toggled(ws, p), p) == RemoveId(ws, p.id) + [p]
    ensures !InList(ws, p.id) ==> Toggled(Toggled(ws, p), p) == ws
  {
    if !InList(ws, p.id) {
      var once := ws + [p];
      RemoveIdAppend(ws, [p], p.id);
      RemoveIdAbsent(ws, p.id);
      assert RemoveId([p], p.id) == [];
    }
  }

  class WishlistProvider {
    const storage: Storage
    var wishlist: seq<Product>
    var loading: bool

    /** Once loaded, the stored value is always the serialised list. */
    ghost predicate Valid()
      reads this, storage
    {
      !loading ==> WishlistKey in storage.entries && storage.entries[WishlistKey] == SerializeProducts(wishlist)
    }

    /**
     * Mounting runs the load effect, then the save effect. A stored value that
     * does not parse throws (there is no try/catch): the provider then stays
     * loading with an empty list and nothing is written.
     */
    constructor (storage: Storage)
      modifies storage
      ensures this.storage == storage
      ensures var saved := old(storage.GetItem(WishlistKey));
        if saved.Some? && saved.value != "" && ParseProducts(saved.value).None? then
          && loading && wishlist == []
          && storage.entries == old(storage.entries)
        else
          && !loading
          && wishlist == (if saved.Some? && saved.value != "" then ParseProducts(saved.value).value else [])
          && storage.entries == old(storage.entries)[WishlistKey := SerializeProducts(wishlist)]
      ensures Valid()
    {
      this.storage := storage;
      wishlist := [];
      loading := true;
      var saved := storage.GetItem(WishlistKey);
      var failed := false;
      if saved.Some? && saved.value != "" {
        var parsed := ParseProducts(saved.value);
        if parsed.None? {
          failed := true;
        } else {
          wishlist := parsed.value;
        }
      }
      new;
      if !failed {
        loading := false;
        Save();
      }
    }

    /** The save effect: skipped while loading. */
    method Save()
      modifies storage
      ensures !loading ==> storage.entries == old(storage.entries)[WishlistKey := SerializeProducts(wishlist)]
      ensures loading ==> storage.entries == old(storage.entries)
      ensures Valid()
    {
      if !loading {
        storage.SetItem(WishlistKey, SerializeProducts(wishlist));
      }
    }

    function IsInWishlist(pid: nat): bool
      reads this
    {
      InList(wishlist, pid)
    }

    /** Appends a non-member and answers true; a member is left alone and the answer is false. */
    method AddToWishlist(product: Product) returns (added: bool)
      requires Valid()
      modifies this, storage
      ensures loading == old(loading)
      ensures added == !old(IsInWishlist(product.id))
      ensures wishlist == Added(old(wishlist), product)
      ensures !added || loading ==> storage.entries == old(storage.entries)
      ensures added && !loading ==>
        storage.entries == old(storage.entries)[WishlistKey := SerializeProducts(wishlist)]
      ensures UniqueIds(old(wishlist)) ==> UniqueIds(wishlist)
      ensures Valid()
    {
      AddedProps(wishlist, product);
      if !IsInWishlist(product.id) {
        wishlist := wishlist + [product];
        Save();
        return true;
      }
      return false;
    }

    method RemoveFromWishlist(pid: nat)
      requires Valid()
      modifies this, storage
      ensures loading == old(loading)
      ensures wishlist == RemoveId(old(wishlist), pid)
      ensures !loading ==> storage.entries == old(storage.entries)[WishlistKey := SerializeProducts(wishlist)]
      ensures loading ==> storage.entries == old(storage.entries)
      ensures UniqueIds(old(wishlist)) ==> UniqueIds(wishlist)
      ensures Valid()
    {
      if UniqueIds(wishlist) {
        RemoveIdKeepsUnique(wishlist, pid);
      }
      wishlist := RemoveId(wishlist, pid);
      Save();
    }

    /** Returns the new membership of the product's id. */
    method ToggleWishlist(product: Product) returns (nowIn: bool)
      requires Valid()
      modifies this, storage
      ensures loading == old(loading)
      ensures wishlist == Toggled(old(wishlist), product)
      ensures nowIn == IsInWishlist(product.id)
      ensures nowIn == !old(IsInWishlist(product.id))
      ensures !loading ==> storage.entries == old(storage.entries)[WishlistKey := SerializeProducts(wishlist)]
      ensures loading ==> storage.entries == old(storage.entries)
      ensures UniqueIds(old(wishlist)) ==> UniqueIds(wishlist)
      ensures Valid()
    {
      if UniqueIds(wishlist) {
        ToggledKeepsUnique(wishlist, product);
      }
      if IsInWishlist(product.id) {
        RemoveFromWishlist(product.id);
        return false;
      } else {
        nowIn := AddToWishlist(product);
      }
    }

    /** Empties the list; once loaded the stored value becomes the empty list, not an erased key. */
    method ClearWishlist()
      requires Valid()
      modifies this, storage
      ensures loading == old(loading)
      ensures wishlist == []
      ensures !loading ==> storage.entries == old(storage.entries)[WishlistKey := SerializeProducts([])]
      ensures loading ==> storage.entries == old(storage.entries)
      ensures Valid()
    {
      wishlist := [];
      Save();
    }
  }
}
