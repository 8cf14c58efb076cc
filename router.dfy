/**
 * The mutating handlers of routes/businesses.js over the two collections
 * they touch. Each handler takes the role `checkRole` resolved for the
 * request, checks it before touching the store, and ends in a redirect or
 * an error status.
 */
module Router {
  import opened Types
  import opened Roles
  import BusinessModel
  import ReviewModel
  import opened Rating
  import opened References

  /** Where a successful handler redirects. */
  datatype Location = BusinessList | BusinessPage(id: Id)

  /** How a request ends: a redirect, 403, 404, or 500 from the catch block. */
  datatype Outcome = Redirect(to: Location) | Forbidden | NotFound | ServerError

  /** The ids `Review.deleteMany({ _id: { $in: refs } })` targets. */
  function RefSet(refs: seq<Id>): (ids: set<Id>)
    ensures forall y :: y in ids <==> y in refs
  {
    set y | y in refs
  }

  /** No review id is listed by two different businesses: a review belongs to one business. */
  ghost predicate Unshared(businesses: map<Id, BusinessModel.Business>)
  {
    forall a, b, y :: a in businesses && b in businesses && y in businesses[a].reviews && y in businesses[b].reviews ==> a == b
  }

  /**
   * Ids are unique across both collections and over time: no id is both a
   * business and a review, and a fresh id is neither a key nor a reference
   * anywhere; a review id is listed by at most one business; no review list
   * holds an id twice, so reading the ratings per reference counts each review once, as
   * the `$in` lookup does; every stored review passed schema validation.
   * `averageRating` is not constrained here: seeded businesses carry preset
   * averages without reviews.
   */
  ghost predicate Consistent(businesses: map<Id, BusinessModel.Business>, reviews: map<Id, ReviewModel.Review>, nextId: Id)
  {
    && (forall id :: id in businesses ==> id < nextId)
    && (forall id :: id in reviews ==> id < nextId)
    && businesses.Keys !! reviews.Keys
    && (forall id, y :: id in businesses && y in businesses[id].reviews ==> y < nextId)
    && (forall id :: id in businesses ==> NoDuplicates(businesses[id].reviews))
    && Unshared(businesses)
    && (forall id :: id in reviews ==> ReviewModel.Valid(reviews[id]))
  }

  /** The next id is neither a stored review nor referenced by a business. */
  lemma FreshId(businesses: map<Id, BusinessModel.Business>, reviews: map<Id, ReviewModel.Review>, nextId: Id, id: Id)
    requires Consistent(businesses, reviews, nextId)
    requires id in businesses
    ensures nextId !in reviews && nextId !in businesses[id].reviews
  {
  }

  /** Storing a valid review under the next id, before any business refers to it, keeps the invariant. */
  lemma StoreReviewConsistent(
    businesses: map<Id, BusinessModel.Business>, reviews: map<Id, ReviewModel.Review>, nextId: Id,
    r: ReviewModel.Review)
    requires Consistent(businesses, reviews, nextId)
    requires ReviewModel.Valid(r)
    ensures Consistent(businesses, reviews[nextId := r], nextId + 1)
  {
  }

  /**
   * Adding a valid review under the next id and appending that id to one
   * business keeps the invariant.
   */
  lemma AddReviewConsistent(
    businesses: map<Id, BusinessModel.Business>, reviews: map<Id, ReviewModel.Review>, nextId: Id,
    id: Id, r: ReviewModel.Review, average: real)
    requires Consistent(businesses, reviews, nextId)
    requires id in businesses && ReviewModel.Valid(r)
    ensures Consistent(
      businesses[id := businesses[id].(reviews := businesses[id].reviews + [nextId], averageRating := average)],
      reviews[nextId := r], nextId + 1)
  {
    var refs := businesses[id].reviews;
    assert nextId !in refs;
    assert multiset(refs + [nextId]) == multiset(refs) + multiset{nextId};
  }

  /**
   * Pulling an id from one business and deleting that review keeps the
   * invariant.
   */
  lemma RemoveReviewConsistent(
    businesses: map<Id, BusinessModel.Business>, reviews: map<Id, ReviewModel.Review>, nextId: Id,
    id: Id, x: Id, average: real)
    requires Consistent(businesses, reviews, nextId)
    requires id in businesses
    ensures Consistent(
      businesses[id := businesses[id].(reviews := RemoveAll(businesses[id].reviews, x), averageRating := average)],
      reviews - {x}, nextId)
  {
    var pulled := businesses[id].(reviews := RemoveAll(businesses[id].reviews, x), averageRating := average);
    var after := businesses[id := pulled];
    assert NoDuplicates(pulled.reviews) by {
      forall y ensures multiset(pulled.reviews)[y] <= 1 {
        assert multiset(pulled.reviews)[y] <= multiset(businesses[id].reviews)[y];
      }
    }
    assert forall y :: y in pulled.reviews ==> y in businesses[id].reviews;
    assert Unshared(after) by {
      forall a, b, y | a in after && b in after && y in after[a].reviews && y in after[b].reviews
        ensures a == b
      {
        assert y in businesses[a].reviews && y in businesses[b].reviews;
      }
    }
  }

  /** The Business and Review collections. */
  class Store {
    var businesses: map<Id, BusinessModel.Business>
    var reviews: map<Id, ReviewModel.Review>
    /** The next document id to hand out; every id in use is below it. */
    var nextId: Id

    /** The store's invariant, stated over its three fields. */
    ghost predicate Valid()
      reads this
    {
      Consistent(businesses, reviews, nextId)
    }

    constructor ()
      ensures Valid()
      ensures businesses == map[] && reviews == map[] && nextId == 0
    {
      businesses := map[];
      reviews := map[];
      nextId := 0;
    }

    /** POST /business: create a business from the request's three fields. */
    method CreateBusiness(role: string, title: string, location: string, description: string, now: Timestamp)
      returns (outcome: Outcome)
      requires Valid()
      modifies this
      ensures Valid()
      ensures role != Owner ==> outcome == Forbidden && unchanged(this)
      ensures role == Owner && BusinessModel.New(title, location, description, now).None? ==>
        outcome == ServerError && unchanged(this)
      ensures role == Owner && BusinessModel.New(title, location, description, now).Some? ==>
        && old(nextId) !in old(businesses)
        && outcome == Redirect(BusinessPage(old(nextId)))
        && businesses == old(businesses)[old(nextId) := BusinessModel.New(title, location, description, now).value]
        && reviews == old(reviews)
        && nextId == old(nextId) + 1
    {
      if role != Owner {
        return Forbidden;
      }
      var created := BusinessModel.New(title, location, description, now);
      if created.None? {
        return ServerError;
      }
      var id := nextId;
      businesses := businesses[id := created.value];
      nextId := nextId + 1;
      outcome := Redirect(BusinessPage(id));
    }

    /**
     * PUT /business/:id: overwrite the three text fields. No validator runs
     * on this update; a missing business makes the handler dereference null.
     */
    method UpdateBusiness(role: string, id: Id, title: string, location: string, description: string)
      returns (outcome: Outcome)
      requires Valid()
      modifies this
      ensures Valid()
      ensures role != Owner ==> outcome == Forbidden && unchanged(this)
      ensures role == Owner && id !in old(businesses) ==> outcome == ServerError && unchanged(this)
      ensures role == Owner && id in old(businesses) ==>
        && outcome == Redirect(BusinessPage(id))
        && businesses == old(businesses)[id := old(businesses)[id].(title := title, location := location, description := description)]
        && businesses[id].reviews == old(businesses)[id].reviews
        && businesses[id].averageRating == old(businesses)[id].averageRating
        && businesses[id].createdAt == old(businesses)[id].createdAt
        && reviews == old(reviews)
        && nextId == old(nextId)
    {
      if role != Owner {
        return Forbidden;
      }
      if id !in businesses {
        return ServerError;
      }
      var b := businesses[id];
      businesses := businesses[id := b.(title := title, location := location, description := description)];
      outcome := Redirect(BusinessPage(id));
    }

    /** DELETE /business/:id: delete the business, then every review it references. */
    method DeleteBusiness(role: string, id: Id) returns (outcome: Outcome)
      requires Valid()
      modifies this
      ensures Valid()
      ensures role != Owner ==> outcome == Forbidden && unchanged(this)
      ensures role == Owner && id !in old(businesses) ==> outcome == NotFound && unchanged(this)
      ensures role == Owner && id in old(businesses) ==>
        && outcome == Redirect(BusinessList)
        && businesses == old(businesses) - {id}
        && reviews == old(reviews) - RefSet(old(businesses)[id].reviews)
        && nextId == old(nextId)
    {
      if role != Owner {
        return Forbidden;
      }
      if id !in businesses {
        return NotFound;
      }
      var b := businesses[id];
      businesses := businesses - {id};
      reviews := reviews - RefSet(b.reviews);
      outcome := Redirect(BusinessList);
    }

    /**
     * POST /business/:id/reviews: store a new review, append its id to the
     * business's list, and set the average to the mean of the ratings of
     * the referenced reviews that exist, which now include the new one.
     */
    method AddReview(role: string, id: Id, rating: Option<real>, body: string, now: Timestamp)
      returns (outcome: Outcome)
      requires Valid()
      modifies this
      ensures Valid()
      ensures role != Consumer ==> outcome == Forbidden && unchanged(this)
      ensures role == Consumer && id !in old(businesses) ==> outcome == NotFound && unchanged(this)
      ensures role == Consumer && id in old(businesses) && ReviewModel.New(rating, body, now).None? ==>
        outcome == ServerError && unchanged(this)
      ensures (role == Consumer && id in old(businesses) && ReviewModel.New(rating, body, now).Some?
               && !BusinessModel.Valid(old(businesses)[id])) ==>
        && outcome == ServerError
        && reviews == old(reviews)[old(nextId) := ReviewModel.New(rating, body, now).value]
        && businesses == old(businesses)
        && nextId == old(nextId) + 1
      ensures (role == Consumer && id in old(businesses) && ReviewModel.New(rating, body, now).Some?
               && BusinessModel.Valid(old(businesses)[id])) ==>
        var rid := old(nextId);
        var b := old(businesses)[id];
        && rid !in old(reviews) && rid !in b.reviews
        && outcome == Redirect(BusinessPage(id))
        && reviews == old(reviews)[rid := ReviewModel.New(rating, body, now).value]
        && businesses == old(businesses)[id := b.(reviews := b.reviews + [rid], averageRating := Mean(Ratings(b.reviews + [rid], reviews)))]
        && businesses[id].averageRating == Mean(Ratings(b.reviews, old(reviews)) + [rating.value])
        && 1.0 <= businesses[id].averageRating <= 5.0
        && nextId == old(nextId) + 1
    {
      if role != Consumer {
        return Forbidden;
      }
      if id !in businesses {
        return NotFound;
      }
      var b := businesses[id];
      var created := ReviewModel.New(rating, body, now);
      if created.None? {
        return ServerError;
      }
      var rid := nextId;
      if !BusinessModel.Valid(b) {
        // review.save() has stored the review; business.save() then fails validation.
        StoreReviewConsistent(businesses, reviews, nextId, created.value);
        reviews := reviews[rid := created.value];
        nextId := nextId + 1;
        return ServerError;
      }
      var refs := b.reviews + [rid];
      ghost var before := Ratings(b.reviews, reviews);
      FreshId(businesses, reviews, nextId, id);
      AddReviewConsistent(businesses, reviews, nextId, id, created.value, Mean(Ratings(refs, reviews[rid := created.value])));
      reviews := reviews[rid := created.value];
      nextId := nextId + 1;
      var ratings := Ratings(refs, reviews);
      assert ratings == before + [created.value.rating] by {
        RatingsAfterAdd(b.reviews, old(reviews), rid, created.value);
      }
      // The list now holds the new review, so the count is at least one.
      var average := Sum(ratings) / (|ratings| as real);
      assert 1.0 <= average <= 5.0 by {
        RatingsValid(refs, reviews);
        MeanBounds(ratings, 1.0, 5.0);
      }
      businesses := businesses[id := b.(reviews := refs, averageRating := average)];
      outcome := Redirect(BusinessPage(id));
    }

    /**
     * DELETE /business/:id/reviews/:reviewId: pull the id from the business,
     * delete the review record whichever business it belongs to, then
     * recompute the average from what is left, or 0 when nothing is. With
     * no such business the record is already gone when the handler fails.
     */
    method RemoveReview(role: string, id: Id, reviewId: Id) returns (outcome: Outcome)
      requires Valid()
      modifies this
      ensures Valid()
      ensures role != Owner && role != Consumer ==> outcome == Forbidden && unchanged(this)
      ensures (role == Owner || role == Consumer) && id !in old(businesses) ==>
        && outcome == ServerError
        && businesses == old(businesses)
        && reviews == old(reviews) - {reviewId}
        && nextId == old(nextId)
      ensures (role == Owner || role == Consumer) && id in old(businesses) && !BusinessModel.Valid(old(businesses)[id]) ==>
        var b := old(businesses)[id];
        && outcome == ServerError
        && reviews == old(reviews) - {reviewId}
        && businesses == old(businesses)[id := b.(reviews := RemoveAll(b.reviews, reviewId))]
        && nextId == old(nextId)
      ensures (role == Owner || role == Consumer) && id in old(businesses) && BusinessModel.Valid(old(businesses)[id]) ==>
        var b := old(businesses)[id];
        var refs := RemoveAll(b.reviews, reviewId);
        && outcome == Redirect(BusinessPage(id))
        && reviews == old(reviews) - {reviewId}
        && businesses == old(businesses)[id := b.(reviews := refs, averageRating := Mean(Ratings(refs, reviews)))]
        && (Ratings(refs, reviews) == [] ==> businesses[id].averageRating == 0.0)
        && (Ratings(refs, reviews) != [] ==> 1.0 <= businesses[id].averageRating <= 5.0)
        && nextId == old(nextId)
    {
      if role != Owner && role != Consumer {
        return Forbidden;
      }
      // The $pull is a no-op without the business; the record is deleted either way.
      reviews := reviews - {reviewId};
      if id !in businesses {
        // `business.reviews` on the null lookup throws.
        return ServerError;
      }
      var b := businesses[id];
      var refs := RemoveAll(b.reviews, reviewId);
      if !BusinessModel.Valid(b) {
        // The $pull has been written; business.save() then fails validation.
        RemoveReviewConsistent(old(businesses), old(reviews), nextId, id, reviewId, b.averageRating);
        businesses := businesses[id := b.(reviews := refs)];
        return ServerError;
      }
      var ratings := Ratings(refs, reviews);
      var average;
      if |ratings| > 0 {
        average := Sum(ratings) / (|ratings| as real);
        assert 1.0 <= average <= 5.0 by {
          RatingsValid(refs, reviews);
          MeanBounds(ratings, 1.0, 5.0);
        }
      } else {
        average := 0.0;
      }
      RemoveReviewConsistent(old(businesses), old(reviews), nextId, id, reviewId, average);
      businesses := businesses[id := b.(reviews := refs, averageRating := average)];
      outcome := Redirect(BusinessPage(id));
    }
  }
}
