/** A customer's product page (`ViewOrder.jsx`): the review form with its
    rating check, the reaction to the store's answer, the author-only review
    menu and the customer-only controls. */
module ViewOrder {
  import opened Wrappers
  import opened Store

  const RATING_REQUIRED: string := "Please select a rating."
  const ALREADY_REVIEWED: string := "You have already submitted a review for this product."
  const NETWORK_ERROR: string := "Network Error"
  const UPDATED: string := "updated"

  /** `currentUser && currentUser._id`: the id sent as the reviewer. */
  function ReviewerOf(currentUser: Option<User>): (r: Option<UserId>)
    ensures r.Some? <==> currentUser.Some?
    ensures r.Some? ==> r.value == currentUser.value.id
  {
    match currentUser
    case None => None
    case Some(user) => Some(user.id)
  }

  /** `review.reviewer._id === reviewer`: whether the review offers its Edit/Delete menu. */
  function OffersReviewMenu(review: Review, reviewer: Option<UserId>): (r: bool)
    ensures r ==> reviewer.Some?
    ensures reviewer.Some? ==> (r <==> review.reviewerId == reviewer.value)
  {
    reviewer == Some(review.reviewerId)
  }

  /** Only the author sees a review's menu: two sessions that both see it are the same user. */
  lemma MenuOnlyForAuthor(review: Review, a: Option<User>, b: Option<User>)
    requires OffersReviewMenu(review, ReviewerOf(a)) && OffersReviewMenu(review, ReviewerOf(b))
    ensures a.Some? && b.Some? && a.value.id == b.value.id == review.reviewerId
  {
  }

  /** The review form and the Add to Cart button are rendered for customers only. */
  function CustomerControls(currentRole: Role): (shown: bool)
    ensures shown <==> currentRole == Named("Customer")
  {
    IsCustomer(currentRole)
  }

  /** The Add to Cart button's event, when the button exists. */
  function AddToCartButton(currentRole: Role, productDetails: Product): (e: Option<Action>)
    ensures e.Some? <==> CustomerControls(currentRole)
    ensures e.Some? ==> e.value == AddProductToCart(productDetails)
  {
    if IsCustomer(currentRole) then Some(AddProductToCart(productDetails)) else None
  }

  /** The submit guard as written, `rating === 0`, on the values the rating
      widget can report: a star count, or `null` once the selected star is
      clicked again. */
  function RejectsRatingAsWritten(rating: Option<int>): (reject: bool)
    ensures reject <==> rating == Some(0)
  {
    rating == Some(0)
  }

  /** A cleared rating passes the guard as written: the form would send a
      review whose rating is `null`. */
  lemma ClearedRatingPassesAsWritten()
    ensures !RejectsRatingAsWritten(None)
    ensures !RatingSelected(None)
  {
  }

  /** A rating has been selected: present and not zero. */
  predicate RatingSelected(rating: Option<int>)
  {
    rating.Some? && rating.value != 0
  }

  /** The corrected guard rejects exactly the unselected ratings: zero and `null`. */
  lemma RatingGuardCorrected(rating: Option<int>)
    ensures !RatingSelected(rating) <==> rating == None || rating == Some(0)
    ensures RejectsRatingAsWritten(rating) ==> !RatingSelected(rating)
    ensures forall n :: 1 <= n <= 5 ==> RatingSelected(Some(n))
  {
  }

  /** The page's local state: the review being written, the popup, and the
      anchor of the open review menu. */
  class ReviewPanel {
    const productId: ProductId
    var rating: Option<int>
    var comment: string
    var message: string
    var showPopup: bool
    var anchorMenu: Option<nat>

    constructor (productId: ProductId)
      ensures this.productId == productId
      ensures rating == Some(0) && comment == "" && message == "" && !showPopup && anchorMenu == None
    {
      this.productId := productId;
      rating, comment := Some(0), "";
      message, showPopup := "", false;
      anchorMenu := None;
    }

    /** `handleRatingChange`: the widget's new value, `null` included. */
    method ChangeRating(newRating: Option<int>)
      modifies this
      ensures rating == newRating
      ensures comment == old(comment) && message == old(message) && showPopup == old(showPopup) && anchorMenu == old(anchorMenu)
    {
      rating := newRating;
    }

    method ChangeComment(text: string)
      modifies this
      ensures comment == text
      ensures rating == old(rating) && message == old(message) && showPopup == old(showPopup) && anchorMenu == old(anchorMenu)
    {
      comment := text;
    }

    /** Pressing "Submit Review". The comment field is `required`, so with an
        empty comment the browser stops the submit and nothing happens.
        Otherwise `handleSubmit` runs, with the corrected rating guard: without
        a rating it shows "Please select a rating." and sends nothing; with
        one it sends the review and clears the form. */
    method Submit(currentUser: Option<User>) returns (sent: Option<Action>)
      modifies this
      ensures anchorMenu == old(anchorMenu)
      ensures sent.None? <==> old(comment) == "" || !RatingSelected(old(rating))
      ensures old(comment) == "" ==>
                rating == old(rating) && comment == old(comment)
                && message == old(message) && showPopup == old(showPopup)
      ensures old(comment) != "" && !RatingSelected(old(rating)) ==>
                message == RATING_REQUIRED && showPopup
                && rating == old(rating) && comment == old(comment)
      ensures old(comment) != "" && RatingSelected(old(rating)) ==>
                sent == Some(UpdateStuff(ReviewFields(old(rating), old(comment), ReviewerOf(currentUser)), productId, "addReview"))
                && rating == Some(0) && comment == ""
                && message == old(message) && showPopup == old(showPopup)
      ensures sent.Some? ==> RatingSelected(sent.value.fields.rating) && sent.value.fields.comment != ""
    {
      sent := None;
      if comment == "" {
        return;
      }
      if !RatingSelected(rating) {
        message := RATING_REQUIRED;
        showPopup := true;
      } else {
        var fields := ReviewFields(rating, comment, ReviewerOf(currentUser));
        sent := Some(UpdateStuff(fields, productId, "addReview"));
        rating := Some(0);
        comment := "";
      }
    }

    /** The effect on the store's `status`, `responseReview` and `error`:
        a finished update refreshes the product and resets the store and
        shows nothing; otherwise a refused review, then an error, opens the
        popup with its message. */
    method OnStoreChange(status: string, responseReview: bool, error: bool) returns (sent: seq<Action>)
      modifies this
      ensures rating == old(rating) && comment == old(comment) && anchorMenu == old(anchorMenu)
      ensures status == UPDATED ==>
                sent == [GetProductDetails(productId), UnderControl]
                && message == old(message) && showPopup == old(showPopup)
      ensures status != UPDATED && responseReview ==>
                sent == [] && message == ALREADY_REVIEWED && showPopup
      ensures status != UPDATED && !responseReview && error ==>
                sent == [] && message == NETWORK_ERROR && showPopup
      ensures status != UPDATED && !responseReview && !error ==>
                sent == [] && message == old(message) && showPopup == old(showPopup)
    {
      sent := [];
      if status == UPDATED {
        sent := [GetProductDetails(productId), UnderControl];
      } else if responseReview {
        message := ALREADY_REVIEWED;
        showPopup := true;
      } else if error {
        message := NETWORK_ERROR;
        showPopup := true;
      }
    }

    method OpenMenu(target: nat)
      modifies this
      ensures anchorMenu == Some(target)
      ensures rating == old(rating) && comment == old(comment) && message == old(message) && showPopup == old(showPopup)
    {
      anchorMenu := Some(target);
    }

    method CloseMenu()
      modifies this
      ensures anchorMenu == None
      ensures rating == old(rating) && comment == old(comment) && message == old(message) && showPopup == old(showPopup)
    {
      anchorMenu := None;
    }

    /** The menu's Delete item: `deleteHandler(review._id)`, then the menu closes.
        The payload holds the review id and nothing else. */
    method DeleteFromMenu(reviewId: ReviewId) returns (sent: Action)
      modifies this
      ensures sent == UpdateStuff(ReviewRef(reviewId), productId, "deleteProductReview")
      ensures anchorMenu == None
      ensures rating == old(rating) && comment == old(comment) && message == old(message) && showPopup == old(showPopup)
    {
      sent := DeleteReviewRequest(productId, reviewId);
      anchorMenu := None;
    }
  }

  /** A scenario: a submission without a comment does nothing, an unrated
      one is refused, a rated one is sent and clears the form, and the
      store's "updated" leaves the popup alone. */
  method ReviewScenario(user: User)
  {
    var panel := new ReviewPanel("p1");
    var sent := panel.Submit(Some(user));
    assert sent.None? && panel.message == "" && !panel.showPopup;
    panel.ChangeComment("good");
    sent := panel.Submit(Some(user));
    assert sent.None? && panel.message == RATING_REQUIRED && panel.showPopup;
    panel.ChangeRating(Some(4));
    sent := panel.Submit(Some(user));
    assert sent == Some(UpdateStuff(ReviewFields(Some(4), "good", Some(user.id)), "p1", "addReview"));
    assert panel.rating == Some(0) && panel.comment == "";
    panel.ChangeComment("again");
    panel.ChangeRating(Some(4));
    panel.ChangeRating(None);
    sent := panel.Submit(Some(user));
    assert sent.None?;
    var effects := panel.OnStoreChange(UPDATED, true, true);
    assert effects == [GetProductDetails("p1"), UnderControl];
    assert panel.message == RATING_REQUIRED;
  }
}
