/** `src/components/Wishlist.tsx`: the wishlist page's two parallel lists. */
module Wishlist {
  import opened Wrappers
  import opened Seqs
  import opened Server

  function ProductId(p: Product): int {
    p.id
  }

  /** The filters of `handleRemoveFromWishlist`. */
  function KeepProduct(productId: int): Product -> bool {
    (p: Product) => p.id != productId
  }

  function KeepId(productId: int): int -> bool {
    (id: int) => id != productId
  }

  /** The page state: the fetched products and, kept beside them, their ids. */
  class WishlistPage {
    var items: seq<Product>
    var itemIds: seq<int>
    var error: Option<string>
    var loading: bool

    /** The two lists correspond entry by entry. */
    ghost predicate Valid()
      reads this
    {
      itemIds == Map(items, ProductId)
    }

    constructor ()
      ensures Valid() && items == [] && itemIds == [] && error.None? && loading
    {
      items := [];
      itemIds := [];
      error := None;
      loading := true;
    }

    /** The fetch effect. Without a user id it goes to the login page and fetches
        nothing; otherwise a 200 answer fills both lists, any other answer sets the
        error. */
    method FetchWishlist(userId: Option<string>, answer: Reply<seq<Product>>)
      returns (goToLogin: bool)
      modifies this
      ensures goToLogin <==> userId.None? || userId.value == ""
      ensures goToLogin ==> items == old(items) && itemIds == old(itemIds) && error.None?
      ensures !goToLogin && answer.Ok? ==> items == answer.value && error.None?
      ensures !goToLogin && answer.Error? ==> items == old(items) && itemIds == old(itemIds) && error.Some?
      ensures old(Valid()) || (!goToLogin && answer.Ok?) ==> Valid()
      ensures !loading
    {
      loading := true;
      error := None;
      if userId.None? || userId.value == "" {
        loading := false;
        return true;
      }
      if answer.Ok? {
        items := answer.value;
        itemIds := Map(answer.value, ProductId);
      } else {
        // axios rejects a status outside 2xx, which lands in the `catch` branch
        error := Some(if 200 <= answer.status < 300 then "Failed to fetch wishlist" else "Error fetching wishlist");
      }
      loading := false;
      return false;
    }

    /** `handleRemoveFromWishlist`: both lists drop every entry with that id. */
    method RemoveFromWishlist(productId: int)
      modifies this`items, this`itemIds
      requires Valid()
      ensures Valid()
      ensures items == Filter(old(items), KeepProduct(productId))
      ensures itemIds == Filter(old(itemIds), KeepId(productId))
    {
      items := Filter(items, KeepProduct(productId));
      itemIds := Filter(itemIds, KeepId(productId));
      MapFilter(old(items), ProductId, KeepProduct(productId), KeepId(productId));
    }
  }

  /** After a removal no entry with that id is left and every other entry is kept. */
  lemma RemovalDropsExactlyThatId(items: seq<Product>, productId: int)
    ensures forall p :: p in Filter(items, KeepProduct(productId)) <==> p in items && p.id != productId
    ensures |Filter(items, KeepProduct(productId))| == |items| <==> forall p :: p in items ==> p.id != productId
  {
    FilterDropsIff(items, KeepProduct(productId));
  }

  /** Removing an id that is on neither list changes neither. */
  lemma RemovingAbsentIdChangesNothing(items: seq<Product>, ids: seq<int>, productId: int)
    requires ids == Map(items, ProductId) && productId !in ids
    ensures Filter(items, KeepProduct(productId)) == items
    ensures Filter(ids, KeepId(productId)) == ids
  {
    forall p | p in items
      ensures p.id != productId
    {
      var k :| 0 <= k < |items| && items[k] == p;
      assert ids[k] == p.id;
    }
    FilterKeepsAll(items, KeepProduct(productId));
    FilterKeepsAll(ids, KeepId(productId));
  }
}
