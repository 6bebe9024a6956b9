/** The score of a stored review (utils.ts). */
module Utils {
  import opened JsValues
  import opened Types

  /** The sub-reviews a record carries in `result.reviews`, if any. */
  function SubReviews(review: ReviewItem): seq<ReviewItem> {
    if review.result.Some? && review.result.value.reviews.Some? then review.result.value.reviews.value else []
  }

  /** `getReviewScore`: the first sub-review's `score`, and 0 when the record
      has no `result`, no `result.reviews`, an empty list, or a first
      sub-review whose score is missing or 0. */
  function GetReviewScore(review: ReviewItem): (s: int)
    ensures |SubReviews(review)| > 0 && SubReviews(review)[0].score.Some? ==>
              s == SubReviews(review)[0].score.value
    ensures |SubReviews(review)| == 0 || SubReviews(review)[0].score.None? ==> s == 0
  {
    if review.result.Some? && review.result.value.reviews.Some? && |review.result.value.reviews.value| > 0 then
      review.result.value.reviews.value[0].score.GetOr(0)
    else
      0
  }

  /** Sub-reviews after the first never change the score. */
  lemma ScoreIgnoresLaterSubReviews(review: ReviewItem, later: seq<ReviewItem>)
    requires |SubReviews(review)| > 0
    ensures var first := SubReviews(review)[0];
      GetReviewScore(review.(result := Some(Analysis(Some([first] + later))))) == GetReviewScore(review)
  {
  }

  /** A record written without a `result` (as the review page writes them)
      scores 0. */
  lemma NoResultScoresZero(review: ReviewItem)
    requires review.result.None?
    ensures GetReviewScore(review) == 0
  {
  }

  /** A record whose one sub-review carries score `v`. */
  function ScoredItem(v: int): (r: ReviewItem)
    ensures GetReviewScore(r) == v
  {
    EmptyItem().(result := Some(Analysis(Some([EmptyItem().(score := Some(v))]))))
  }
}
