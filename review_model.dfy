/**
 * The Review record schema of models/review.js: a required rating bounded
 * to 1..5, a required body, and a creation time that defaults to "now".
 */
module ReviewModel {
  import opened Types

  datatype Review = Review(rating: real, body: string, createdAt: Timestamp)

  /** What the schema validator checks on save. The rating need not be an integer. */
  predicate Valid(r: Review)
  {
    1.0 <= r.rating <= 5.0 && r.body != ""
  }

  /**
   * `new Review({ rating, body })` followed by `save()`: the record that is
   * stored, or None when validation rejects it. A missing or uncastable
   * rating is None; an empty or missing body is "".
   */
  function New(rating: Option<real>, body: string, now: Timestamp): (r: Option<Review>)
    ensures r.Some? <==> rating.Some? && 1.0 <= rating.value <= 5.0 && body != ""
    ensures r.Some? ==> Valid(r.value)
    ensures r.Some? ==> r.value.rating == rating.value && r.value.body == body && r.value.createdAt == now
  {
    match rating
    case None => None
    case Some(x) =>
      var candidate := Review(x, body, now);
      if Valid(candidate) then Some(candidate) else None
  }
}
