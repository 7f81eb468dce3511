/**
 * Product reviews, replies and likes (backend/handlers/reviews.go). A
 * review and a reply share the `reviews` table; a reply has its parent id
 * set and rating 0. Likes are the set of (user, review) pairs. Rows are
 * kept in id order, and ids grow with creation time, so the reverse of id
 * order is the `created_at DESC` order of the listing.
 */
module Reviews {
  import opened Wrappers
  import opened Models
  import opened Store
  import opened Http
  import Seqs

  const AlreadyReviewed := "You have already reviewed this product"
  const ReviewNotFound := "Review not found"
  const NotOwned := "Review not found or not owned by user"
  const ProductNotFound := "Product not found"

  /** The body of CreateReview and UpdateReview: `rating` 1 to 5, `comment` at least 10 characters. */
  datatype ReviewRequest = ReviewRequest(rating: int, comment: string)

  predicate ReviewRequestValid(req: ReviewRequest)
  {
    1 <= req.rating <= 5 && |req.comment| >= 10
  }

  /** The body of ReplyToReview: `comment` at least 5 characters. */
  predicate ReplyCommentValid(comment: string)
  {
    |comment| >= 5
  }

  // ----- table invariants -----

  function LikesOf(likes: set<ReviewLike>, reviewId: Id): set<ReviewLike>
  {
    set l | l in likes && l.reviewId == reviewId
  }

  predicate IdsUnique(reviews: seq<Review>)
  {
    forall i, j :: 0 <= i < j < |reviews| ==> reviews[i].id != reviews[j].id
  }

  /** Each review's `likes_count` is the number of likes it has. */
  predicate LikesCounted(reviews: seq<Review>, likes: set<ReviewLike>)
  {
    forall i :: 0 <= i < |reviews| ==> reviews[i].likesCount == |LikesOf(likes, reviews[i].id)|
  }

  /** Every like is of a review that exists. */
  predicate LikesOfExisting(reviews: seq<Review>, likes: set<ReviewLike>)
  {
    forall l :: l in likes ==> exists i :: 0 <= i < |reviews| && reviews[i].id == l.reviewId
  }

  /** No user has two top-level reviews of one product. */
  predicate OneReviewEach(reviews: seq<Review>)
  {
    forall i, j :: 0 <= i < j < |reviews| && reviews[i].parentId.None? && reviews[j].parentId.None? ==>
      !(reviews[i].userId == reviews[j].userId && reviews[i].productId == reviews[j].productId)
  }

  /** What the handlers keep true of the review and like tables. */
  predicate ReviewsValid(reviews: seq<Review>, likes: set<ReviewLike>, nextId: Id)
  {
    IdsUnique(reviews) && (forall i :: 0 <= i < |reviews| ==> reviews[i].id < nextId) &&
    LikesCounted(reviews, likes) && LikesOfExisting(reviews, likes) && OneReviewEach(reviews)
  }

  // ----- queries -----

  /** `db.First(&review, id)`. */
  function ReviewIndex(reviews: seq<Review>, id: Id): (r: Option<nat>)
    ensures r.Some? ==> r.value < |reviews| && reviews[r.value].id == id
    ensures r.None? <==> forall i :: 0 <= i < |reviews| ==> reviews[i].id != id
  {
    Seqs.FindFirst(reviews, (v: Review) => v.id == id)
  }

  /** `Where("id = ? AND user_id = ?", id, userID).First(&review)`. */
  function OwnedIndex(reviews: seq<Review>, id: Id, userId: Id): (r: Option<nat>)
    ensures r.Some? ==> r.value < |reviews| && reviews[r.value].id == id && reviews[r.value].userId == userId
    ensures r.None? <==> forall i :: 0 <= i < |reviews| ==> !(reviews[i].id == id && reviews[i].userId == userId)
  {
    Seqs.FindFirst(reviews, (v: Review) => v.id == id && v.userId == userId)
  }

  /** `Where("user_id = ? AND product_id = ?")`: any review or reply by the user on the product. */
  function ByUserOn(userId: Id, productId: Id): Review -> bool
  {
    (v: Review) => v.userId == userId && v.productId == productId
  }

  function ForProduct(productId: Id): Review -> bool
  {
    (v: Review) => v.productId == productId
  }

  function TopLevelFor(productId: Id): Review -> bool
  {
    (v: Review) => v.productId == productId && v.parentId.None?
  }

  function RepliesFor(productId: Id): Review -> bool
  {
    (v: Review) => v.productId == productId && v.parentId.Some?
  }

  /** Every review and reply of a product (updateProductRating's query). */
  function ProductReviews(reviews: seq<Review>, productId: Id): seq<Review>
  {
    Seqs.Filter(reviews, ForProduct(productId))
  }

  /** The top-level reviews of a product (the listing's query). */
  function TopLevel(reviews: seq<Review>, productId: Id): seq<Review>
  {
    Seqs.Filter(reviews, TopLevelFor(productId))
  }

  function RatingOf(v: Review): int
  {
    v.rating
  }

  function RatingTotal(rs: seq<Review>): int
  {
    Seqs.SumInt(rs, RatingOf)
  }

  /** `float64(totalRating) / float64(count)`, or 0 with no rows. */
  function MeanRating(rs: seq<Review>): (r: real)
    ensures |rs| == 0 ==> r == 0.0
  {
    if |rs| == 0 then 0.0 else RatingTotal(rs) as real / |rs| as real
  }

  /** The mean times the number of rows is the rating total. */
  lemma MeanTimesCount(rs: seq<Review>)
    ensures MeanRating(rs) * |rs| as real == RatingTotal(rs) as real
  {
  }

  datatype Listing = Listing(reviews: seq<Review>, totalReviews: nat, averageRating: real)

  /**
   * GetProductReviews: the product's top-level reviews, newest first, their
   * number, and the mean of their ratings (0 with none). Replies are left out.
   */
  function GetProductReviews(reviews: seq<Review>, productId: Id): (r: Listing)
    ensures forall i :: 0 <= i < |r.reviews| ==> r.reviews[i].productId == productId && r.reviews[i].parentId.None?
    ensures forall j :: 0 <= j < |reviews| && reviews[j].productId == productId && reviews[j].parentId.None? ==>
      reviews[j] in r.reviews
    ensures r.totalReviews == |r.reviews| == |TopLevel(reviews, productId)|
    ensures forall i :: 0 <= i < |r.reviews| ==>
      r.reviews[i] == TopLevel(reviews, productId)[|r.reviews| - 1 - i]
    ensures r.averageRating == MeanRating(TopLevel(reviews, productId))
  {
    var top := TopLevel(reviews, productId);
    var newest := Seqs.Reverse(top);
    assert forall i :: 0 <= i < |newest| ==> newest[i].productId == productId && newest[i].parentId.None? by {
      forall i | 0 <= i < |newest| ensures newest[i].productId == productId && newest[i].parentId.None? {
        assert TopLevelFor(productId)(top[|top| - 1 - i]);
      }
    }
    assert forall j :: 0 <= j < |reviews| && reviews[j].productId == productId && reviews[j].parentId.None? ==>
      reviews[j] in newest by {
      Seqs.ReverseSameElements(top);
      forall j | 0 <= j < |reviews| && reviews[j].productId == productId && reviews[j].parentId.None?
        ensures reviews[j] in newest
      {
        assert TopLevelFor(productId)(reviews[j]);
      }
    }
    Listing(newest, |top|, MeanRating(top))
  }

  /** The product row after updateProductRating: only `rating` and `review_count` of that product change. */
  function WithRating(products: seq<Product>, productId: Id, rating: real, count: nat): (r: seq<Product>)
    ensures |r| == |products|
    ensures forall i :: 0 <= i < |products| ==>
      r[i] == if products[i].id == productId then products[i].(rating := rating, reviewCount := count) else products[i]
  {
    Seqs.Map(products, (p: Product) => if p.id == productId then p.(rating := rating, reviewCount := count) else p)
  }

  /** updateProductRating: the stored count and mean cover every review and reply of the product. */
  method UpdateProductRating(db: Database, productId: Id)
    modifies db`products
    ensures db.products == WithRating(old(db.products), productId,
      MeanRating(ProductReviews(db.reviews, productId)), |ProductReviews(db.reviews, productId)|)
  {
    var rs := ProductReviews(db.reviews, productId);
    var total := 0;
    var k := 0;
    while k < |rs|
      invariant 0 <= k <= |rs|
      invariant total == RatingTotal(rs[..k])
      invariant db.products == old(db.products)
    {
      assert rs[..k + 1] == rs[..k] + [rs[k]];
      Seqs.SumIntAppend(rs[..k], [rs[k]], RatingOf);
      assert [rs[k]][1..] == [];
      assert RatingTotal([rs[k]]) == rs[k].rating;
      total := total + rs[k].rating;
      k := k + 1;
    }
    assert rs[..k] == rs;
    var avg := 0.0;
    if |rs| > 0 {
      avg := total as real / |rs| as real;
    }
    assert avg == MeanRating(rs);
    db.products := WithRating(db.products, productId, avg, |rs|);
  }

  // ----- the rating discrepancy -----

  /** Replies keep the rating 0 they are created with. */
  predicate RepliesUnrated(reviews: seq<Review>)
  {
    forall i :: 0 <= i < |reviews| && reviews[i].parentId.Some? ==> reviews[i].rating == 0
  }

  lemma {:induction false} SplitCount(reviews: seq<Review>, productId: Id)
    ensures |ProductReviews(reviews, productId)| ==
      |TopLevel(reviews, productId)| + |Seqs.Filter(reviews, RepliesFor(productId))|
  {
    if |reviews| > 0 {
      SplitCount(reviews[1..], productId);
    }
  }

  lemma RatingTotalCons(x: Review, rest: seq<Review>)
    ensures RatingTotal([x] + rest) == x.rating + RatingTotal(rest)
  {
    assert ([x] + rest)[1..] == rest;
  }

  lemma {:induction false} SplitTotal(reviews: seq<Review>, productId: Id)
    requires RepliesUnrated(reviews)
    ensures RatingTotal(ProductReviews(reviews, productId)) == RatingTotal(TopLevel(reviews, productId))
  {
    if |reviews| > 0 {
      var x, t := reviews[0], reviews[1..];
      assert RepliesUnrated(t) by {
        forall i | 0 <= i < |t| && t[i].parentId.Some?
          ensures t[i].rating == 0
        {
          assert t[i] == reviews[i + 1];
        }
      }
      SplitTotal(t, productId);
      if x.productId == productId {
        RatingTotalCons(x, ProductReviews(t, productId));
        if x.parentId.None? {
          RatingTotalCons(x, TopLevel(t, productId));
        }
      }
    }
  }

  lemma DivLess(s: real, a: real, b: real)
    requires s > 0.0 && 0.0 < a < b
    ensures s / b < s / a
  {
    assert s / b * b == s;
    assert s / a * a == s;
    assert s / b * a < s / b * b;
  }

  /**
   * The stored `review_count` counts replies while the listing's
   * `total_reviews` does not; with unrated replies and positive ratings,
   * any reply makes the stored rating lower than the listed average.
   */
  lemma {:induction false} StoredRatingCountsReplies(reviews: seq<Review>, productId: Id)
    ensures |ProductReviews(reviews, productId)| ==
      GetProductReviews(reviews, productId).totalReviews + |Seqs.Filter(reviews, RepliesFor(productId))|
    ensures (RepliesUnrated(reviews) && |Seqs.Filter(reviews, RepliesFor(productId))| > 0 &&
      RatingTotal(TopLevel(reviews, productId)) > 0) ==>
      MeanRating(ProductReviews(reviews, productId)) < GetProductReviews(reviews, productId).averageRating
  {
    SplitCount(reviews, productId);
    var all := ProductReviews(reviews, productId);
    var top := TopLevel(reviews, productId);
    if RepliesUnrated(reviews) && |Seqs.Filter(reviews, RepliesFor(productId))| > 0 && RatingTotal(top) > 0 {
      SplitTotal(reviews, productId);
      DivLess(RatingTotal(top) as real, |top| as real, |all| as real);
    }
  }

  // ----- handlers -----

  /**
   * CreateReview: signed in, a valid body, an existing product, and no
   * review or reply by the user on it yet; then a review with no likes and
   * the product's stored rating recomputed.
   */
  method CreateReview(db: Database, user: Option<Id>, productId: Id, req: ReviewRequest) returns (st: Status, review: Option<Review>)
    modifies db`reviews, db`nextId, db`products
    ensures user.None? ==> st == Unauthenticated && review.None? && unchanged(db)
    ensures user.Some? && !ReviewRequestValid(req) ==> st == InvalidRequest && review.None? && unchanged(db)
    ensures user.Some? && ReviewRequestValid(req) && ProductIndex(old(db.products), productId).None? ==>
      st == NotFound(ProductNotFound) && review.None? && unchanged(db)
    ensures (user.Some? && ReviewRequestValid(req) && ProductIndex(old(db.products), productId).Some? &&
      Seqs.FindFirst(old(db.reviews), ByUserOn(user.value, productId)).Some?) ==>
      st == Conflict(AlreadyReviewed) && review.None? && unchanged(db)
    ensures st.Success() <==> (user.Some? && ReviewRequestValid(req) && ProductIndex(old(db.products), productId).Some? &&
      Seqs.FindFirst(old(db.reviews), ByUserOn(user.value, productId)).None?)
    ensures st.Success() ==>
      var v := Review(old(db.nextId), user.value, productId, req.rating, req.comment, false, None, 0);
      st == Created("") && review == Some(v) && db.reviews == old(db.reviews) + [v] && db.nextId == old(db.nextId) + 1 &&
      db.products == WithRating(old(db.products), productId,
        MeanRating(ProductReviews(db.reviews, productId)), |ProductReviews(db.reviews, productId)|)
    ensures ReviewsValid(old(db.reviews), db.likes, old(db.nextId)) ==> ReviewsValid(db.reviews, db.likes, db.nextId)
  {
    if user.None? {
      return Unauthenticated, None;
    }
    if !ReviewRequestValid(req) {
      return InvalidRequest, None;
    }
    if ProductIndex(db.products, productId).None? {
      return NotFound(ProductNotFound), None;
    }
    if Seqs.FindFirst(db.reviews, ByUserOn(user.value, productId)).Some? {
      return Conflict(AlreadyReviewed), None;
    }
    var v := Review(db.nextId, user.value, productId, req.rating, req.comment, false, None, 0);
    AppendReview(db, v);
    UpdateProductRating(db, productId);
    return Created(""), Some(v);
  }

  /** Appending a row with a fresh id and no likes keeps the tables valid, given no clashing top-level review. */
  lemma AppendKeepsValid(reviews: seq<Review>, likes: set<ReviewLike>, nextId: Id, v: Review)
    requires ReviewsValid(reviews, likes, nextId)
    requires v.id == nextId && v.likesCount == 0
    requires v.parentId.None? ==> forall i :: 0 <= i < |reviews| ==> !ByUserOn(v.userId, v.productId)(reviews[i])
    ensures ReviewsValid(reviews + [v], likes, nextId + 1)
  {
    var r := reviews + [v];
    assert LikesOf(likes, v.id) == {} by {
      forall l | l in likes
        ensures l.reviewId != v.id
      {
        var i :| 0 <= i < |reviews| && reviews[i].id == l.reviewId;
      }
    }
    forall l | l in likes
      ensures exists i :: 0 <= i < |r| && r[i].id == l.reviewId
    {
      var i :| 0 <= i < |reviews| && reviews[i].id == l.reviewId;
      assert r[i].id == l.reviewId;
    }
  }

  /** The `Create` of a review or reply row with the next id. */
  method AppendReview(db: Database, v: Review)
    requires v.id == db.nextId && v.likesCount == 0
    modifies db`reviews, db`nextId
    ensures db.reviews == old(db.reviews) + [v] && db.nextId == old(db.nextId) + 1
    ensures (ReviewsValid(old(db.reviews), db.likes, old(db.nextId)) &&
      (v.parentId.None? ==> forall i :: 0 <= i < |old(db.reviews)| ==> !ByUserOn(v.userId, v.productId)(old(db.reviews)[i]))) ==>
      ReviewsValid(db.reviews, db.likes, db.nextId)
  {
    if ReviewsValid(db.reviews, db.likes, db.nextId) &&
      (v.parentId.None? ==> forall i :: 0 <= i < |db.reviews| ==> !ByUserOn(v.userId, v.productId)(db.reviews[i])) {
      AppendKeepsValid(db.reviews, db.likes, db.nextId, v);
    }
    db.reviews := db.reviews + [v];
    db.nextId := db.nextId + 1;
  }

  /** A reply blocks its author from reviewing the product: the conflict query finds it. */
  lemma ReplyBlocksReview(reviews: seq<Review>, reply: Review)
    requires reply.parentId.Some?
    ensures Seqs.FindFirst(reviews + [reply], ByUserOn(reply.userId, reply.productId)).Some?
  {
    assert ByUserOn(reply.userId, reply.productId)((reviews + [reply])[|reviews|]);
  }

  /** The like set after a toggle. */
  function ToggledLikes(likes: set<ReviewLike>, like: ReviewLike): (r: set<ReviewLike>)
    ensures like in r <==> like !in likes
    ensures forall l :: l != like ==> (l in r <==> l in likes)
  {
    if like in likes then likes - {like} else likes + {like}
  }

  /** The review row's counter after a toggle: one less when the like existed, one more otherwise. */
  function ToggledCount(reviews: seq<Review>, likes: set<ReviewLike>, k: nat, like: ReviewLike): (r: seq<Review>)
    requires k < |reviews|
    ensures |r| == |reviews|
    ensures forall i :: 0 <= i < |reviews| && i != k ==> r[i] == reviews[i]
    ensures r[k] == reviews[k].(likesCount := reviews[k].likesCount + (if like in likes then -1 else 1))
  {
    reviews[k := reviews[k].(likesCount := reviews[k].likesCount + (if like in likes then -1 else 1))]
  }

  /** Liking twice restores both the like set and the counter. */
  lemma ToggleTwice(reviews: seq<Review>, likes: set<ReviewLike>, k: nat, like: ReviewLike)
    requires k < |reviews|
    ensures ToggledLikes(ToggledLikes(likes, like), like) == likes
    ensures ToggledCount(ToggledCount(reviews, likes, k, like), ToggledLikes(likes, like), k, like) == reviews
  {
  }

  /** A toggle on the review the like names keeps every counter equal to its number of likes. */
  lemma {:induction false} ToggleKeepsCounts(reviews: seq<Review>, likes: set<ReviewLike>, k: nat, like: ReviewLike)
    requires k < |reviews| && reviews[k].id == like.reviewId
    requires IdsUnique(reviews) && LikesCounted(reviews, likes)
    ensures LikesCounted(ToggledCount(reviews, likes, k, like), ToggledLikes(likes, like))
  {
    var after := ToggledLikes(likes, like);
    var r := ToggledCount(reviews, likes, k, like);
    if like in likes {
      assert LikesOf(after, like.reviewId) == LikesOf(likes, like.reviewId) - {like};
    } else {
      assert LikesOf(after, like.reviewId) == LikesOf(likes, like.reviewId) + {like};
    }
    forall i | 0 <= i < |r|
      ensures r[i].likesCount == |LikesOf(after, r[i].id)|
    {
      if i != k {
        assert reviews[i].id != like.reviewId by {
          if i < k {} else {}
        }
        assert LikesOf(after, reviews[i].id) == LikesOf(likes, reviews[i].id);
      }
    }
  }

  /** LikeReview: on an existing review, the user's like is removed if present and created otherwise. */
  method LikeReview(db: Database, user: Option<Id>, reviewId: Id) returns (st: Status)
    modifies db`reviews, db`likes
    ensures user.None? ==> st == Unauthenticated && unchanged(db)
    ensures user.Some? && ReviewIndex(old(db.reviews), reviewId).None? ==> st == NotFound(ReviewNotFound) && unchanged(db)
    ensures user.Some? && ReviewIndex(old(db.reviews), reviewId).Some? ==>
      var like := ReviewLike(user.value, reviewId);
      db.likes == ToggledLikes(old(db.likes), like) &&
      db.reviews == ToggledCount(old(db.reviews), old(db.likes), ReviewIndex(old(db.reviews), reviewId).value, like) &&
      st == Ok(if like in old(db.likes) then "Review unliked" else "Review liked")
    ensures ReviewsValid(old(db.reviews), old(db.likes), db.nextId) ==> ReviewsValid(db.reviews, db.likes, db.nextId)
  {
    if user.None? {
      return Unauthenticated;
    }
    var found := ReviewIndex(db.reviews, reviewId);
    if found.None? {
      return NotFound(ReviewNotFound);
    }
    var k := found.value;
    var like := ReviewLike(user.value, reviewId);
    if ReviewsValid(db.reviews, db.likes, db.nextId) {
      ToggleKeepsCounts(db.reviews, db.likes, k, like);
      ToggleKeepsOthers(db.reviews, db.likes, k, like);
    }
    var wasLiked := like in db.likes;
    db.reviews := ToggledCount(db.reviews, db.likes, k, like);
    db.likes := ToggledLikes(db.likes, like);
    return Ok(if wasLiked then "Review unliked" else "Review liked");
  }

  lemma ToggleKeepsOthers(reviews: seq<Review>, likes: set<ReviewLike>, k: nat, like: ReviewLike)
    requires k < |reviews| && reviews[k].id == like.reviewId
    requires LikesOfExisting(reviews, likes) && OneReviewEach(reviews)
    ensures LikesOfExisting(ToggledCount(reviews, likes, k, like), ToggledLikes(likes, like))
    ensures OneReviewEach(ToggledCount(reviews, likes, k, like))
  {
    var r := ToggledCount(reviews, likes, k, like);
    forall l | l in ToggledLikes(likes, like)
      ensures exists i :: 0 <= i < |r| && r[i].id == l.reviewId
    {
      if l == like {
        assert r[k].id == l.reviewId;
      } else {
        var i :| 0 <= i < |reviews| && reviews[i].id == l.reviewId;
        assert r[i].id == l.reviewId;
      }
    }
  }

  /**
   * ReplyToReview: signed in, a comment of at least 5 characters, and an
   * existing review (or reply); the reply takes the parent's product, rating
   * 0 and the parent's id. The product's stored rating is not recomputed.
   */
  method ReplyToReview(db: Database, user: Option<Id>, reviewId: Id, comment: string) returns (st: Status, reply: Option<Review>)
    modifies db`reviews, db`nextId
    ensures user.None? ==> st == Unauthenticated && reply.None? && unchanged(db)
    ensures user.Some? && !ReplyCommentValid(comment) ==> st == InvalidRequest && reply.None? && unchanged(db)
    ensures user.Some? && ReplyCommentValid(comment) && ReviewIndex(old(db.reviews), reviewId).None? ==>
      st == NotFound(ReviewNotFound) && reply.None? && unchanged(db)
    ensures user.Some? && ReplyCommentValid(comment) && ReviewIndex(old(db.reviews), reviewId).Some? ==>
      var parent := old(db.reviews)[ReviewIndex(old(db.reviews), reviewId).value];
      var v := Review(old(db.nextId), user.value, parent.productId, 0, comment, false, Some(parent.id), 0);
      st == Created("") && reply == Some(v) && db.reviews == old(db.reviews) + [v] && db.nextId == old(db.nextId) + 1
    ensures ReviewsValid(old(db.reviews), db.likes, old(db.nextId)) ==> ReviewsValid(db.reviews, db.likes, db.nextId)
    ensures RepliesUnrated(old(db.reviews)) ==> RepliesUnrated(db.reviews)
  {
    if user.None? {
      return Unauthenticated, None;
    }
    if !ReplyCommentValid(comment) {
      return InvalidRequest, None;
    }
    var found := ReviewIndex(db.reviews, reviewId);
    if found.None? {
      return NotFound(ReviewNotFound), None;
    }
    var parent := db.reviews[found.value];
    var v := Review(db.nextId, user.value, parent.productId, 0, comment, false, Some(parent.id), 0);
    AppendReview(db, v);
    return Created(""), Some(v);
  }

  /**
   * UpdateReview: only the owner's row is found; its rating and comment are
   * replaced (a reply can be given a rating this way) and the product's
   * stored rating recomputed.
   */
  method UpdateReview(db: Database, user: Option<Id>, reviewId: Id, req: ReviewRequest) returns (st: Status)
    modifies db`reviews, db`products
    ensures user.None? ==> st == Unauthenticated && unchanged(db)
    ensures user.Some? && !ReviewRequestValid(req) ==> st == InvalidRequest && unchanged(db)
    ensures user.Some? && ReviewRequestValid(req) && OwnedIndex(old(db.reviews), reviewId, user.value).None? ==>
      st == NotFound(NotOwned) && unchanged(db)
    ensures user.Some? && ReviewRequestValid(req) && OwnedIndex(old(db.reviews), reviewId, user.value).Some? ==>
      var k := OwnedIndex(old(db.reviews), reviewId, user.value).value;
      var v := old(db.reviews)[k];
      st == Ok("Review updated successfully") &&
      db.reviews == old(db.reviews)[k := v.(rating := req.rating, comment := req.comment)] &&
      db.products == WithRating(old(db.products), v.productId,
        MeanRating(ProductReviews(db.reviews, v.productId)), |ProductReviews(db.reviews, v.productId)|)
    ensures db.reviews != old(db.reviews) ==> user.Some? && OwnedIndex(old(db.reviews), reviewId, user.value).Some?
    ensures ReviewsValid(old(db.reviews), db.likes, db.nextId) ==> ReviewsValid(db.reviews, db.likes, db.nextId)
  {
    if user.None? {
      return Unauthenticated;
    }
    if !ReviewRequestValid(req) {
      return InvalidRequest;
    }
    var found := OwnedIndex(db.reviews, reviewId, user.value);
    if found.None? {
      return NotFound(NotOwned);
    }
    ApplyEdit(db, found.value, req);
    return Ok("Review updated successfully");
  }

  /** The write of UpdateReview: the row's rating and comment, then the product's stored rating. */
  method ApplyEdit(db: Database, k: nat, req: ReviewRequest)
    requires k < |db.reviews|
    modifies db`reviews, db`products
    ensures var v := old(db.reviews)[k];
      db.reviews == old(db.reviews)[k := v.(rating := req.rating, comment := req.comment)] &&
      db.products == WithRating(old(db.products), v.productId,
        MeanRating(ProductReviews(db.reviews, v.productId)), |ProductReviews(db.reviews, v.productId)|)
    ensures ReviewsValid(old(db.reviews), db.likes, db.nextId) ==> ReviewsValid(db.reviews, db.likes, db.nextId)
  {
    var v := db.reviews[k];
    ghost var likes, nextId := db.likes, db.nextId;
    ghost var wasValid := ReviewsValid(db.reviews, likes, nextId);
    var edited := db.reviews[k := v.(rating := req.rating, comment := req.comment)];
    if wasValid {
      EditKeepsValid(db.reviews, k, req.rating, req.comment, likes, nextId);
    }
    ghost var nowValid := ReviewsValid(edited, likes, nextId);
    assert wasValid ==> nowValid;
    db.reviews := edited;
    UpdateProductRating(db, v.productId);
    assert db.reviews == edited && db.likes == likes && db.nextId == nextId;
  }

  /** Changing a row's rating and comment keeps the tables' invariants: ids, likes and authors stay. */
  lemma EditKeepsValid(reviews: seq<Review>, k: nat, rating: int, comment: string, likes: set<ReviewLike>, nextId: Id)
    requires k < |reviews| && ReviewsValid(reviews, likes, nextId)
    ensures ReviewsValid(reviews[k := reviews[k].(rating := rating, comment := comment)], likes, nextId)
  {
    var after := reviews[k := reviews[k].(rating := rating, comment := comment)];
    forall i | 0 <= i < |reviews|
      ensures LikesOf(likes, after[i].id) == LikesOf(likes, reviews[i].id)
    {
    }
    forall l | l in likes
      ensures exists i :: 0 <= i < |after| && after[i].id == l.reviewId
    {
      var i :| 0 <= i < |reviews| && reviews[i].id == l.reviewId;
      assert after[i].id == l.reviewId;
    }
  }

  /** The rows that remain when one review id is deleted. */
  function WithoutReview(reviews: seq<Review>, reviewId: Id): (r: seq<Review>)
    ensures forall i :: 0 <= i < |r| ==> r[i] in reviews && r[i].id != reviewId
    ensures forall i :: 0 <= i < |reviews| && reviews[i].id != reviewId ==> reviews[i] in r
  {
    Seqs.Filter(reviews, (v: Review) => v.id != reviewId)
  }

  /**
   * Deleting a row together with its likes keeps the tables' invariants:
   * the remaining likes are of remaining rows, and their counts still match.
   */
  lemma DeleteKeepsValid(reviews: seq<Review>, likes: set<ReviewLike>, nextId: Id, reviewId: Id)
    requires ReviewsValid(reviews, likes, nextId)
    ensures ReviewsValid(WithoutReview(reviews, reviewId), likes - LikesOf(likes, reviewId), nextId)
  {
    DeleteKeepsRows(reviews, reviewId);
    DeleteKeepsLikes(reviews, likes, reviewId);
  }

  /** The remaining rows keep distinct ids below the counter and one top-level review per user and product. */
  lemma DeleteKeepsRows(reviews: seq<Review>, reviewId: Id)
    requires IdsUnique(reviews) && OneReviewEach(reviews)
    ensures IdsUnique(WithoutReview(reviews, reviewId)) && OneReviewEach(WithoutReview(reviews, reviewId))
  {
    var keep := (v: Review) => v.id != reviewId;
    Seqs.FilterPairwise(reviews, keep, (a: Review, b: Review) => a.id != b.id);
    Seqs.FilterPairwise(reviews, keep, (a: Review, b: Review) =>
      a.parentId.None? && b.parentId.None? ==> !(a.userId == b.userId && a.productId == b.productId));
  }

  /** The remaining likes are counted on, and belong to, the remaining rows. */
  lemma DeleteKeepsLikes(reviews: seq<Review>, likes: set<ReviewLike>, reviewId: Id)
    requires LikesCounted(reviews, likes) && LikesOfExisting(reviews, likes)
    ensures LikesCounted(WithoutReview(reviews, reviewId), likes - LikesOf(likes, reviewId))
    ensures LikesOfExisting(WithoutReview(reviews, reviewId), likes - LikesOf(likes, reviewId))
  {
    var r := WithoutReview(reviews, reviewId);
    var rest := likes - LikesOf(likes, reviewId);
    forall i | 0 <= i < |r|
      ensures r[i].likesCount == |LikesOf(rest, r[i].id)|
    {
      var k :| 0 <= k < |reviews| && reviews[k] == r[i];
      assert LikesOf(rest, r[i].id) == LikesOf(likes, reviews[k].id);
    }
    forall l | l in rest
      ensures exists i :: 0 <= i < |r| && r[i].id == l.reviewId
    {
      var k :| 0 <= k < |reviews| && reviews[k].id == l.reviewId;
      assert reviews[k] in r;
      var i :| 0 <= i < |r| && r[i] == reviews[k];
    }
  }

  /**
   * DeleteReview: only the owner's row is found; its likes are deleted
   * first, then the row, and the product's stored rating recomputed.
   * Replies to it stay in the table.
   */
  method DeleteReview(db: Database, user: Option<Id>, reviewId: Id) returns (st: Status)
    modifies db`reviews, db`likes, db`products
    ensures user.None? ==> st == Unauthenticated && unchanged(db)
    ensures user.Some? && OwnedIndex(old(db.reviews), reviewId, user.value).None? ==> st == NotFound(NotOwned) && unchanged(db)
    ensures user.Some? && OwnedIndex(old(db.reviews), reviewId, user.value).Some? ==>
      var v := old(db.reviews)[OwnedIndex(old(db.reviews), reviewId, user.value).value];
      st == Ok("Review deleted successfully") &&
      db.likes == old(db.likes) - LikesOf(old(db.likes), reviewId) &&
      db.reviews == WithoutReview(old(db.reviews), reviewId) &&
      db.products == WithRating(old(db.products), v.productId,
        MeanRating(ProductReviews(db.reviews, v.productId)), |ProductReviews(db.reviews, v.productId)|)
    ensures ReviewsValid(old(db.reviews), old(db.likes), db.nextId) ==> ReviewsValid(db.reviews, db.likes, db.nextId)
  {
    if user.None? {
      return Unauthenticated;
    }
    var found := OwnedIndex(db.reviews, reviewId, user.value);
    if found.None? {
      return NotFound(NotOwned);
    }
    var productId := db.reviews[found.value].productId;
    db.likes := db.likes - LikesOf(db.likes, reviewId);
    db.reviews := WithoutReview(db.reviews, reviewId);
    UpdateProductRating(db, productId);
    if ReviewsValid(old(db.reviews), old(db.likes), db.nextId) {
      DeleteKeepsValid(old(db.reviews), old(db.likes), db.nextId, reviewId);
    }
    return Ok("Review deleted successfully");
  }
}
