/** `src/components/WeeklyDealPage.tsx`: the deal list with its wishlist hearts.
    The countdown is `WeeklyDeal.FormatTime`, the same `formatTime`. */
module WeeklyDealPage {
  import opened Wrappers
  import opened Seqs
  import opened Server

  function ProductId(p: Product): int {
    p.id
  }

  function KeepId(productId: int): int -> bool {
    (id: int) => id != productId
  }

  class WeeklyDealPageState {
    var weeklyDeals: seq<Product>
    var error: Option<string>
    /** The ids of the user's wishlisted products. */
    var wishlistItems: seq<int>

    constructor ()
      ensures weeklyDeals == [] && error.None? && wishlistItems == []
    {
      weeklyDeals := [];
      error := None;
      wishlistItems := [];
    }

    /** `fetchWeeklyDeals`: the answer replaces the list; a failure keeps it and
        sets the message. */
    method WeeklyDealsFetched(answer: Option<seq<Product>>)
      modifies this`weeklyDeals, this`error
      ensures answer.Some? ==> weeklyDeals == answer.value && error.None?
      ensures answer.None? ==>
        weeklyDeals == old(weeklyDeals) && error == Some("Failed to load weekly deals. Please try again.")
    {
      error := None;
      if answer.Some? {
        weeklyDeals := answer.value;
      } else {
        error := Some("Failed to load weekly deals. Please try again.");
      }
    }

    /** `fetchWishlist`: the ids of the fetched products, or nothing when there is
        no user or the request fails. */
    method WishlistFetched(userId: Option<string>, answer: Option<seq<Product>>)
      modifies this`wishlistItems
      ensures userId.Some? && userId.value != "" && answer.Some? ==>
        wishlistItems == Map(answer.value, ProductId)
      ensures !(userId.Some? && userId.value != "" && answer.Some?) ==> wishlistItems == []
    {
      if userId.Some? && userId.value != "" && answer.Some? {
        wishlistItems := Map(answer.value, ProductId);
      } else {
        wishlistItems := [];
      }
    }

    /** `initialLiked` of a deal's heart. */
    predicate Liked(p: Product)
      reads this
    {
      p.id in wishlistItems
    }

    /** `handleRemoveFromWishlist`. */
    method RemoveFromWishlist(productId: int)
      modifies this`wishlistItems
      ensures wishlistItems == Filter(old(wishlistItems), KeepId(productId))
      ensures forall id :: id in wishlistItems <==> id in old(wishlistItems) && id != productId
      ensures IsSubsequence(wishlistItems, old(wishlistItems))
    {
      FilterIsSubsequence(wishlistItems, KeepId(productId));
      wishlistItems := Filter(wishlistItems, KeepId(productId));
    }
  }
}
