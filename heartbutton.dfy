/** `src/components/HeartButton.tsx`: the optimistic wishlist toggle. */
module HeartButton {
  import opened Wrappers

  datatype WishlistAction = Add | Remove

  /** What the wishlist post came back with: an answer with its status, or a thrown
      error (no answer, or a status axios rejects). */
  datatype PostResult = Answered(status: int) | Threw

  predicate Succeeded(r: PostResult) {
    r.Answered? && r.status == 200
  }

  /** What a click does outside the button's own state. */
  datatype ClickEffect =
    | RedirectToLogin
    | Posted(action: WishlistAction, notifyRemoved: bool)

  /** `!userId` is false only for a non-empty id. */
  predicate SignedIn(userId: Option<string>) {
    userId.Some? && userId.value != ""
  }

  /** The heart's state after a signed-in click, as written: the optimistic write
      `setLiked(!liked)` and, on failure, the "revert" `setLiked(!liked)`, which
      reads the same captured pre-click value and so writes the same thing. */
  function LikedAfterClick(pre: bool, result: PostResult): bool {
    var optimistic := !pre;
    if Succeeded(result) then optimistic else !pre
  }

  /** The flip survives a failed post: the heart disagrees with the server. */
  lemma FailedClickStaysFlipped(pre: bool, result: PostResult)
    requires !Succeeded(result)
    ensures LikedAfterClick(pre, result) != pre
  {
  }

  /** A concrete instance: an unliked heart whose add is rejected shows as liked. */
  lemma RejectedAddShowsLiked()
    ensures LikedAfterClick(false, Threw)
  {
  }

  /** The evidently intended revert: the value before the click. */
  function RevertingLikedAfterClick(pre: bool, result: PostResult): bool {
    if Succeeded(result) then !pre else pre
  }

  /** With the intended revert the heart changes exactly when the server accepted
      the change, so it stays in step with the wishlist table. */
  lemma RevertingTracksServer(pre: bool, result: PostResult)
    ensures RevertingLikedAfterClick(pre, result) != pre <==> Succeeded(result)
  {
  }

  class HeartButtonState {
    var liked: bool

    /** `useState(false)`. */
    constructor ()
      ensures !liked
    {
      liked := false;
    }

    /** The `initialLiked` effect: the heart takes the prop's value. */
    method Sync(initialLiked: bool)
      modifies this
      ensures liked == initialLiked
    {
      liked := initialLiked;
    }

    /** `handleLike`, as written. The action is decided by the pre-click value, the
        removal callback fires only after an accepted removal, and on every signed-in
        path the heart ends flipped. */
    method HandleLike(userId: Option<string>, result: PostResult, hasRemoveCallback: bool)
      returns (effect: ClickEffect)
      modifies this
      ensures !SignedIn(userId) ==> effect == RedirectToLogin && liked == old(liked)
      ensures SignedIn(userId) ==> effect.Posted?
      ensures effect.Posted? ==> (effect.action == Remove <==> old(liked))
      ensures effect.Posted? ==>
        (effect.notifyRemoved <==> effect.action == Remove && Succeeded(result) && hasRemoveCallback)
      ensures SignedIn(userId) ==> liked == LikedAfterClick(old(liked), result) && liked == !old(liked)
    {
      if !SignedIn(userId) {
        return RedirectToLogin;
      }
      var pre := liked;
      liked := !pre;
      var action := if pre then Remove else Add;
      var notify := false;
      if Succeeded(result) {
        notify := action == Remove && hasRemoveCallback;
      } else {
        liked := !pre;
      }
      effect := Posted(action, notify);
    }
  }
}
