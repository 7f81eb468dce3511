/**
 * The product page (frontend/src/pages/ProductDetail.tsx): the product and
 * its reviews as loaded, the quantity selector, the average of the shown
 * ratings, and the review, like/dislike and reply handlers with their
 * sign-in and blank-text guards. Whether a user is signed in and the server
 * replies are parameters; the requests a handler sends are returned.
 */
module ProductDetail {
  import opened Wrappers
  import Text
  import opened Ui

  datatype ShownProduct = ShownProduct(id: int, name: string, price: real, stock: int)

  datatype ShownReview = ShownReview(id: int, rating: int, comment: string)

  /** The requests the page sends besides the initial loads. */
  datatype Request =
    | PostReview(productId: int, rating: int, comment: string)   // POST /products/:id/reviews
    | PostAction(reviewId: int, action: string)                  // POST /reviews/:id/like|dislike
    | PostReply(reviewId: int, comment: string)                  // POST /reviews/:id/reply
    | AddToCart(product: ShownProduct, quantity: int)            // the cart context's addToCart

  /** The reply to `GET /products/:id/reviews`: an exception, or the body whose `reviews` may be absent. */
  datatype ReviewsReply = ReviewsThrow | ReviewsBody(reviews: Option<seq<ShownReview>>)

  function RatingSum(reviews: seq<ShownReview>): int
  {
    if |reviews| == 0 then 0 else reviews[0].rating + RatingSum(reviews[1..])
  }

  /** averageRating: the mean of the shown ratings, 0 without reviews. */
  function AverageRating(reviews: seq<ShownReview>): (r: real)
    ensures |reviews| == 0 ==> r == 0.0
    ensures |reviews| > 0 ==> r * |reviews| as real == RatingSum(reviews) as real
  {
    if |reviews| > 0 then RatingSum(reviews) as real / |reviews| as real else 0.0
  }

  lemma {:induction false} RatingSumBounds(reviews: seq<ShownReview>)
    requires forall i :: 0 <= i < |reviews| ==> 1 <= reviews[i].rating <= 5
    ensures |reviews| <= RatingSum(reviews) <= 5 * |reviews|
  {
    if |reviews| > 0 {
      RatingSumBounds(reviews[1..]);
    }
  }

  /** With ratings of 1 to 5 stars, as the server accepts them, the average lies between 1 and 5. */
  lemma AverageRatingBounds(reviews: seq<ShownReview>)
    requires |reviews| > 0
    requires forall i :: 0 <= i < |reviews| ==> 1 <= reviews[i].rating <= 5
    ensures 1.0 <= AverageRating(reviews) <= 5.0
  {
    RatingSumBounds(reviews);
    MeanBounds(RatingSum(reviews) as real, |reviews| as real);
  }

  /** A sum between n and 5n, divided by n > 0, lies between 1 and 5. */
  lemma MeanBounds(s: real, n: real)
    requires n > 0.0 && n <= s <= 5.0 * n
    ensures 1.0 <= s / n <= 5.0
  {
  }

  /** The quantity selector's range: at least 1, and within stock once it has moved off 1. */
  predicate QuantityInRange(quantity: int, stock: int)
  {
    quantity >= 1 && (quantity == 1 || quantity <= stock)
  }

  class ProductPage {
    var product: Option<ShownProduct>
    var reviews: seq<ShownReview>
    var loading: bool
    var quantity: int
    var reviewText: string
    var reviewRating: int
    var submittingReview: bool
    var replyingTo: Option<int>
    var replyText: string

    predicate Valid()
      reads this
    {
      QuantityInRange(quantity, Stock())
    }

    /** `product?.stock || 0`. */
    function Stock(): int
      reads this
    {
      if product.Some? then product.value.stock else 0
    }

    /** The page opens loading, with quantity 1, an empty review at 5 stars and no reply open. */
    constructor()
      ensures Valid()
      ensures product.None? && reviews == [] && loading && quantity == 1
      ensures reviewText == "" && reviewRating == 5 && !submittingReview && replyingTo.None? && replyText == ""
    {
      product, reviews, loading, quantity := None, [], true, 1;
      reviewText, reviewRating, submittingReview := "", 5, false;
      replyingTo, replyText := None, "";
    }

    /**
     * fetchProduct: the product on success; on failure an error toast and
     * the page navigates back to the list (`navigate` is true). Loading ends either way. The
     * quantity is left alone, so it may exceed a stock below 1.
     */
    method FetchProduct(reply: Option<ShownProduct>) returns (navigate: bool, toast: Toast)
      modifies this
      ensures product == (if reply.Some? then reply else old(product)) && navigate == reply.None?
      ensures toast == (if reply.None? then ToastError("Failed to load product") else NoToast)
      ensures !loading && quantity == old(quantity) && reviews == old(reviews)
      ensures reviewText == old(reviewText) && replyingTo == old(replyingTo) && replyText == old(replyText)
      ensures reviewRating == old(reviewRating) && submittingReview == old(submittingReview)
    {
      navigate := reply.None?;
      toast := NoToast;
      if reply.Some? {
        product := reply;
      } else {
        toast := ToastError("Failed to load product");
      }
      loading := false;
    }

    /** fetchReviews: the body's list, or `[]` when it has none; an exception keeps the old list. */
    method FetchReviews(reply: ReviewsReply)
      modifies this`reviews
      ensures reply.ReviewsThrow? ==> reviews == old(reviews)
      ensures reply.ReviewsBody? ==> reviews == reply.reviews.GetOr([])
    {
      if reply.ReviewsBody? {
        reviews := if reply.reviews.Some? then reply.reviews.value else [];
      }
    }

    /** handleQuantityChange: the new quantity applies only if it is between 1 and the stock. */
    method QuantityChange(change: int)
      requires Valid()
      modifies this`quantity
      ensures Valid()
      ensures var q := old(quantity) + change; quantity == if 1 <= q <= Stock() then q else old(quantity)
    {
      var q := quantity + change;
      if 1 <= q <= Stock() {
        quantity := q;
      }
    }

    /** handleAddToCart: nothing without a product, else the product with the chosen quantity. */
    method AddProductToCart() returns (sent: seq<Request>)
      ensures product.None? ==> sent == []
      ensures product.Some? ==> sent == [AddToCart(product.value, quantity)]
    {
      if product.None? {
        return [];
      }
      sent := [AddToCart(product.value, quantity)];
    }

    /**
     * handleSubmitReview: refused without a user or with blank text. Else the
     * review is posted; on success the reply is prepended and the form reset
     * to `""` and 5 stars.
     */
    method SubmitReview(signedIn: bool, productId: int, reply: Option<ShownReview>)
      returns (sent: seq<Request>, toast: Toast)
      modifies this`reviews, this`reviewText, this`reviewRating, this`submittingReview
      ensures !signedIn ==> (sent == [] && toast == ToastError("Please login to submit a review") &&
        reviews == old(reviews) && reviewText == old(reviewText) && reviewRating == old(reviewRating))
      ensures signedIn && Text.IsBlank(old(reviewText)) ==> (sent == [] && toast == ToastError("Please write a review") &&
        reviews == old(reviews) && reviewText == old(reviewText) && reviewRating == old(reviewRating))
      ensures signedIn && !Text.IsBlank(old(reviewText)) ==>
        sent == [PostReview(productId, old(reviewRating), old(reviewText))] && !submittingReview &&
        (reply.Some? ==> reviews == [reply.value] + old(reviews) && reviewText == "" && reviewRating == 5 &&
                         toast == ToastSuccess("Review submitted successfully")) &&
        (reply.None? ==> reviews == old(reviews) && reviewText == old(reviewText) && reviewRating == old(reviewRating) &&
                         toast == ToastError("Failed to submit review"))
      ensures sent == [] ==> submittingReview == old(submittingReview)
    {
      if !signedIn {
        return [], ToastError("Please login to submit a review");
      }
      if Text.IsBlank(reviewText) {
        return [], ToastError("Please write a review");
      }
      submittingReview := true;
      sent := [PostReview(productId, reviewRating, reviewText)];
      if reply.Some? {
        reviews := [reply.value] + reviews;
        reviewText := "";
        reviewRating := 5;
        toast := ToastSuccess("Review submitted successfully");
      } else {
        toast := ToastError("Failed to submit review");
      }
      submittingReview := false;
    }

    /** handleReviewAction: refused without a user; else the action is posted and the reviews refreshed on success. */
    method ReviewAction(signedIn: bool, reviewId: int, action: string, ok: bool, refresh: ReviewsReply)
      returns (sent: seq<Request>, toast: Toast)
      modifies this`reviews
      ensures !signedIn ==> sent == [] && reviews == old(reviews) && toast == ToastError("Please login to interact with reviews")
      ensures signedIn ==> sent == [PostAction(reviewId, action)]
      ensures signedIn && ok ==> (toast == NoToast && (refresh.ReviewsThrow? ==> reviews == old(reviews)) &&
        (refresh.ReviewsBody? ==> reviews == refresh.reviews.GetOr([])))
      ensures signedIn && !ok ==> reviews == old(reviews) && toast == ToastError("Failed to " + action + " review")
    {
      if !signedIn {
        return [], ToastError("Please login to interact with reviews");
      }
      sent := [PostAction(reviewId, action)];
      if ok {
        FetchReviews(refresh);
        toast := NoToast;
      } else {
        toast := ToastError("Failed to " + action + " review");
      }
    }

    /** handleReplyClick: opens an empty reply box on the review, for a signed-in user only. */
    method ReplyClick(signedIn: bool, reviewId: int) returns (toast: Toast)
      modifies this`replyingTo, this`replyText
      ensures signedIn ==> replyingTo == Some(reviewId) && replyText == "" && toast == NoToast
      ensures !signedIn ==> (replyingTo == old(replyingTo) && replyText == old(replyText) &&
        toast == ToastError("Please login to reply to reviews"))
    {
      if !signedIn {
        return ToastError("Please login to reply to reviews");
      }
      replyingTo, replyText := Some(reviewId), "";
      toast := NoToast;
    }

    /**
     * handleSubmitReply: refused without a user or with blank text; else the
     * reply is posted, and on success the box closes and the reviews refresh.
     */
    method SubmitReply(signedIn: bool, reviewId: int, ok: bool, refresh: ReviewsReply)
      returns (sent: seq<Request>, toast: Toast)
      modifies this`replyingTo, this`replyText, this`reviews
      ensures !signedIn ==> sent == [] && toast == ToastError("Please login to reply to reviews")
      ensures signedIn && Text.IsBlank(old(replyText)) ==> sent == [] && toast == ToastError("Please write a reply")
      ensures sent == [] ==> replyingTo == old(replyingTo) && replyText == old(replyText) && reviews == old(reviews)
      ensures signedIn && !Text.IsBlank(old(replyText)) ==> sent == [PostReply(reviewId, old(replyText))]
      ensures sent != [] && ok ==> (replyingTo.None? && replyText == "" && toast == ToastSuccess("Reply submitted successfully") &&
        (refresh.ReviewsThrow? ==> reviews == old(reviews)) && (refresh.ReviewsBody? ==> reviews == refresh.reviews.GetOr([])))
      ensures sent != [] && !ok ==> (replyingTo == old(replyingTo) && replyText == old(replyText) && reviews == old(reviews) &&
        toast == ToastError("Failed to submit reply"))
    {
      if !signedIn {
        return [], ToastError("Please login to reply to reviews");
      }
      if Text.IsBlank(replyText) {
        return [], ToastError("Please write a reply");
      }
      sent := [PostReply(reviewId, replyText)];
      if ok {
        replyingTo, replyText := None, "";
        FetchReviews(refresh);
        toast := ToastSuccess("Reply submitted successfully");
      } else {
        toast := ToastError("Failed to submit reply");
      }
    }

    /** handleCancelReply: the reply box closes and its text is cleared. */
    method CancelReply()
      modifies this`replyingTo, this`replyText
      ensures replyingTo.None? && replyText == ""
    {
      replyingTo, replyText := None, "";
    }
  }
}
