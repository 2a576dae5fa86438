/**
 * The wishlist store: a keyed collection with set semantics over the product id,
 * kept in one state cell that is written through, as a whole snapshot, to a
 * durable storage slot named "wishlist" after every change.
 */
module Wishlist {
  import opened Wrappers

  datatype WishlistItem = WishlistItem(id: string, name: string, price: real, image: string, slug: string)

  /** Membership query: does some entry carry this id? */
  function HasId(items: seq<WishlistItem>, id: string): (r: bool)
    ensures r <==> exists i :: 0 <= i < |items| && items[i].id == id
  {
    if items == [] then false else items[0].id == id || HasId(items[1..], id)
  }

  /** No two entries share an id. */
  predicate DistinctIds(items: seq<WishlistItem>) {
    forall i, j :: 0 <= i < j < |items| ==> items[i].id != items[j].id
  }

  /** Add-if-absent: an id already present leaves the list as it is; a new id goes at the end. */
  function Added(items: seq<WishlistItem>, item: WishlistItem): (r: seq<WishlistItem>)
    ensures HasId(items, item.id) ==> r == items
    ensures |r| == if HasId(items, item.id) then |items| else |items| + 1
    ensures r[..|items|] == items
    ensures !HasId(items, item.id) ==> r[|items|] == item
    ensures forall id :: HasId(r, id) <==> HasId(items, id) || id == item.id
  {
    if HasId(items, item.id) then items else items + [item]
  }

  /** Remove-by-id: drops every entry with the id and keeps the others in order. */
  function Removed(items: seq<WishlistItem>, id: string): (r: seq<WishlistItem>)
    ensures forall x :: x in r <==> x in items && x.id != id
    ensures !HasId(items, id) ==> r == items
    ensures |r| <= |items|
  {
    if items == [] then []
    else if items[0].id == id then Removed(items[1..], id)
    else [items[0]] + Removed(items[1..], id)
  }

  /** After a removal no entry carries the removed id, and exactly the other ids remain. */
  lemma RemovedMembership(items: seq<WishlistItem>, id: string, other: string)
    ensures !HasId(Removed(items, id), id)
    ensures HasId(Removed(items, id), other) <==> HasId(items, other) && other != id
  {
    var r := Removed(items, id);
    if HasId(items, other) && other != id {
      var i :| 0 <= i < |items| && items[i].id == other;
      assert items[i] in r;
      var k :| 0 <= k < |r| && r[k] == items[i];
    }
    if HasId(r, other) {
      var k :| 0 <= k < |r| && r[k].id == other;
      assert r[k] in items;
    }
  }

  /** Removal is a filter: it distributes over concatenation, so the survivors keep their order. */
  lemma {:induction false} RemovedDistributes(a: seq<WishlistItem>, b: seq<WishlistItem>, id: string)
    ensures Removed(a + b, id) == Removed(a, id) + Removed(b, id)
  {
    if a == [] {
      assert a + b == b;
    } else {
      assert (a + b)[1..] == a[1..] + b;
      RemovedDistributes(a[1..], b, id);
    }
  }

  /** Adding keeps the ids pairwise distinct. */
  lemma AddedKeepsIdsDistinct(items: seq<WishlistItem>, item: WishlistItem)
    requires DistinctIds(items)
    ensures DistinctIds(Added(items, item))
  {
  }

  /** Removing keeps the ids pairwise distinct. */
  lemma {:induction false} RemovedKeepsIdsDistinct(items: seq<WishlistItem>, id: string)
    requires DistinctIds(items)
    ensures DistinctIds(Removed(items, id))
  {
    if items != [] {
      RemovedKeepsIdsDistinct(items[1..], id);
      var tail := Removed(items[1..], id);
      if items[0].id != id {
        forall k | 0 <= k < |tail| ensures tail[k].id != items[0].id {
          assert tail[k] in items[1..];
        }
        assert Removed(items, id) == [items[0]] + tail;
      }
    }
  }

  /** One call the provider exposes: add an item or remove an id. */
  datatype WishlistOp = AddOp(item: WishlistItem) | RemoveOp(id: string)

  function Apply(items: seq<WishlistItem>, op: WishlistOp): seq<WishlistItem> {
    match op
    case AddOp(item) => Added(items, item)
    case RemoveOp(id) => Removed(items, id)
  }

  /** The list after a sequence of calls, applied in order. */
  function Replay(items: seq<WishlistItem>, ops: seq<WishlistOp>): seq<WishlistItem>
    decreases |ops|
  {
    if ops == [] then items else Apply(Replay(items, ops[..|ops| - 1]), ops[|ops| - 1])
  }

  function OpId(op: WishlistOp): string {
    match op
    case AddOp(item) => item.id
    case RemoveOp(id) => id
  }

  /** Whether the last call about `id` was an add (Some(true)), a removal (Some(false)), or there was none. */
  function LastCallAbout(ops: seq<WishlistOp>, id: string): Option<bool>
    decreases |ops|
  {
    if ops == [] then None
    else if OpId(ops[|ops| - 1]) == id then Some(ops[|ops| - 1].AddOp?)
    else LastCallAbout(ops[..|ops| - 1], id)
  }

  /**
   * Set semantics over a whole run of calls: whether `id` ends up in the list is
   * decided by the last call about that id alone, however the calls repeat.
   */
  lemma {:induction false} ReplayMembership(items: seq<WishlistItem>, ops: seq<WishlistOp>, id: string)
    ensures HasId(Replay(items, ops), id) == match LastCallAbout(ops, id)
      case None => HasId(items, id)
      case Some(added) => added
    decreases |ops|
  {
    if ops != [] {
      var prefix := ops[..|ops| - 1];
      ReplayMembership(items, prefix, id);
      match ops[|ops| - 1]
      case AddOp(item) =>
      case RemoveOp(gone) => RemovedMembership(Replay(items, prefix), gone, id);
    }
  }

  /** No run of calls ever produces two entries with one id. */
  lemma {:induction false} ReplayKeepsIdsDistinct(items: seq<WishlistItem>, ops: seq<WishlistOp>)
    requires DistinctIds(items)
    ensures DistinctIds(Replay(items, ops))
    decreases |ops|
  {
    if ops != [] {
      var prefix := ops[..|ops| - 1];
      ReplayKeepsIdsDistinct(items, prefix);
      match ops[|ops| - 1]
      case AddOp(item) => AddedKeepsIdsDistinct(Replay(items, prefix), item);
      case RemoveOp(gone) => RemovedKeepsIdsDistinct(Replay(items, prefix), gone);
    }
  }

  // ---------------------------------------------------------------------------
  // Durable storage: an abstract map from keys to stored values.

  const WishlistKey: string := "wishlist"

  /**
   * What a storage slot holds: the serialisation of a list of items, or text that
   * does not parse as one (the empty string among them).
   */
  datatype StoredValue = Snapshot(items: seq<WishlistItem>) | Unparsable(text: string)

  datatype LoadError = ParseError(text: string)

  /**
   * Initial load: nothing stored, or a falsy (empty) string, gives the empty list;
   * a snapshot gives its items; any other text makes the parse throw.
   */
  function LoadWishlist(storage: map<string, StoredValue>): (r: Result<seq<WishlistItem>, LoadError>)
    ensures WishlistKey !in storage ==> r == Ok([])
    ensures WishlistKey in storage && storage[WishlistKey].Snapshot? ==> r == Ok(storage[WishlistKey].items)
    ensures r.Err? <==> WishlistKey in storage && storage[WishlistKey].Unparsable? && storage[WishlistKey].text != ""
  {
    if WishlistKey !in storage then Ok([])
    else match storage[WishlistKey]
      case Snapshot(items) => Ok(items)
      case Unparsable(text) => if text == "" then Ok([]) else Err(ParseError(text))
  }

  /** Write-through: the whole list replaces the slot, so the next load returns exactly it. */
  function SaveWishlist(storage: map<string, StoredValue>, items: seq<WishlistItem>): (r: map<string, StoredValue>)
    ensures LoadWishlist(r) == Ok(items)
    ensures forall k :: k in storage && k != WishlistKey ==> k in r && r[k] == storage[k]
    ensures r.Keys == storage.Keys + {WishlistKey}
  {
    storage[WishlistKey := Snapshot(items)]
  }

  /** The provider: one state cell holding the list, and the storage it writes through to. */
  class WishlistProvider {
    var wishlist: seq<WishlistItem>
    var storage: map<string, StoredValue>

    /** The stored snapshot always loads back as the current list. */
    ghost predicate Valid()
      reads this
    {
      LoadWishlist(storage) == Ok(wishlist)
    }

    constructor FromSnapshot(items: seq<WishlistItem>, stored: map<string, StoredValue>)
      ensures wishlist == items && storage == SaveWishlist(stored, items)
      ensures Valid()
    {
      wishlist := items;
      storage := SaveWishlist(stored, items);
    }

    /** Mount: load the initial list (or fail as the parse does), then run the write-through effect once. */
    static method Mount(stored: map<string, StoredValue>) returns (r: Result<WishlistProvider, LoadError>)
      ensures LoadWishlist(stored).Err? ==> r == Err(LoadWishlist(stored).error)
      ensures LoadWishlist(stored).Ok? ==>
        && r.Ok? && fresh(r.value) && r.value.Valid()
        && r.value.wishlist == LoadWishlist(stored).value
        && r.value.storage == SaveWishlist(stored, r.value.wishlist)
    {
      var loaded := LoadWishlist(stored);
      if loaded.Err? {
        r := Err(loaded.error);
      } else {
        var p := new WishlistProvider.FromSnapshot(loaded.value, stored);
        r := Ok(p);
      }
    }

    predicate IsInWishlist(productId: string)
      reads this
      ensures IsInWishlist(productId) <==> exists i :: 0 <= i < |wishlist| && wishlist[i].id == productId
    {
      HasId(wishlist, productId)
    }

    method AddToWishlist(item: WishlistItem)
      requires Valid()
      modifies this
      ensures Valid()
      ensures wishlist == Added(old(wishlist), item)
      ensures storage == SaveWishlist(old(storage), wishlist)
      ensures IsInWishlist(item.id)
    {
      wishlist := Added(wishlist, item);
      storage := SaveWishlist(storage, wishlist);
    }

    method RemoveFromWishlist(productId: string)
      requires Valid()
      modifies this
      ensures Valid()
      ensures wishlist == Removed(old(wishlist), productId)
      ensures storage == SaveWishlist(old(storage), wishlist)
      ensures !IsInWishlist(productId)
    {
      wishlist := Removed(wishlist, productId);
      storage := SaveWishlist(storage, wishlist);
      RemovedMembership(old(wishlist), productId, productId);
    }
  }
}
