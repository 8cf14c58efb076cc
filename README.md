# YelpClone business router, modelled in Dafny

The application lists businesses and their consumer reviews. Each request
declares a role (`owner` or `consumer`, or any other string) that sticks to
its session. The part of the code with real logic is the business router,
`routes/businesses.js`. This project models that router together with the
two record schemas it writes, `models/business.js` and `models/review.js`:

- `Types`: `Option`, document ids (`Id`, a `nat`) and timestamps.
- `Roles`: `checkRole`. `EffectiveRole` is the expression
  `query || session || 'consumer'`. The class `Session` holds the session's
  stored role, and its method `CheckRole` resolves one request and stores a
  non-empty query role. `RolesOver` follows one session across a sequence of
  requests, and the lemmas prove that a role set once persists and that the
  default is `consumer`. The empty string stands for an absent value, because
  JavaScript's `||` treats `undefined` and `""` alike.
- `ReviewModel`, `BusinessModel`: the records, their schema validity
  predicates, and `New`. `New` is the constructor followed by `save()`. It
  gives the stored record with its defaults, or `None` when schema
  validation rejects it.
- `Rating`: `Sum` is the `reduce` left fold. `Mean` is the average the
  handlers store, or 0 when there are no ratings. The lemmas prove the bounds
  of the mean and that it does not depend on order.
- `References`: `RemoveAll` is MongoDB's `$pull`. `Ratings` gives the ratings
  of the referenced reviews that still exist. The lemmas say what appending,
  pulling and deleting do to those ratings.
- `Router`: the class `Store` holds the two collections as maps, plus the
  next fresh id. The five mutating handlers are its methods. Each method
  takes the role that `checkRole` resolved and returns an `Outcome`:
  `Redirect`, `Forbidden` (403), `NotFound` (404) or `ServerError` (500,
  from the handler's `catch`). Each method's postcondition gives the whole
  new state for every branch, including the partial effects of the failing
  branches: a review that is stored or deleted before `business.save()`
  rejects a schema-invalid business stays stored or deleted. `Consistent` is
  the store invariant: no id is both a business and a review, every id in
  use lies below the next fresh id (so fresh ids are unused everywhere), no
  review id is listed by two businesses, no review list holds an id twice,
  and every stored review passed schema validation. The invariant says nothing about `averageRating`, because the
  seed routine stores preset averages for businesses that have no reviews.
  Instead, the postconditions of `AddReview` and `RemoveReview` state that
  the average equals the mean of the existing referenced ratings.
- `Scenarios`: clients that chain handlers. Adding a 5 to a business rated
  3 and 4 gives 4, and then removing the 3 gives 4.5. `RoleGates` shows an
  owner being refused a review, a consumer being refused a new business, and
  an empty title being rejected.

Averages are exact rationals (`real`), not the two-decimal string that
`toFixed(2)` produces.

Where the code's behaviour is not the obvious one, the model follows the
code:
- A schema validation failure in create business or add review reaches the
  `catch` block and answers 500, not a 4xx.
- Add review and remove review end with `business.save()`, which validates
  the whole business. A business that update business left with an empty
  field fails there, after the new review was stored (add) or after the id
  was pulled and the review deleted (remove). Those writes persist, the
  average is not updated, and the handler answers 500.
- Update business passes no `runValidators` option to `findByIdAndUpdate`,
  so empty fields are written and the record can stop being schema-valid.
  An unknown id makes `business._id` dereference `null`, which answers 500
  and changes nothing.
- Remove review deletes the review record without checking that the
  business references it. When the business does not exist, the record is
  already deleted when `business.reviews` fails on `null`, and the handler
  answers 500. When the review belonged to another business, that business
  keeps a dangling reference and its stored average is not recomputed.
- The schema accepts any rating in [1, 5], not only whole numbers.

## Model

| member | source | states |
|---|---|---|
| Roles.EffectiveRole | routes/businesses.js:29 | the role is the query role when it is non-empty, else the session role when that is non-empty, else "consumer"; it is never empty |
| Roles.SessionAfter | routes/businesses.js:35-37 | the stored role after a request is the query role when that is non-empty, and the previous stored role otherwise |
| Roles.Session.CheckRole | routes/businesses.js:27-40 | returns the effective role; the stored session role becomes `SessionAfter` of the query and the old role: the query role exactly when that is non-empty, otherwise it stays as it was; any string is accepted |
| Roles.RolesOver | routes/businesses.js:27-40 | successive requests of one session resolve to one role each |
| Roles.NoQueryKeepsRole | routes/businesses.js:29 | requests that carry no query role all resolve as the session's stored role would |
| Roles.StickyRole | routes/businesses.js:35-37 | after one request with a non-empty query role, every later request of the session without a query role resolves to that role |
| Roles.DefaultConsumer | routes/businesses.js:29 | a session that never declared a role acts as "consumer" |
| ReviewModel.Valid | models/review.js:7-16 | a stored review has a rating in [1, 5] and a non-empty body |
| ReviewModel.New | models/review.js:6-21 | a review is stored iff a rating is given, it lies in [1, 5] and the body is non-empty; the stored record is valid and carries the given rating, body and creation time |
| BusinessModel.Valid | models/business.js:15-26 | a business passes validation when title, location and description are all non-empty |
| BusinessModel.New | models/business.js:14-43 | a business is stored iff title, location and description are all non-empty; it is valid and starts with those fields, the creation time, no reviews and averageRating 0 |
| Rating.Sum | routes/businesses.js:203 | the `reduce` left fold of the ratings from 0, in list order |
| Rating.Mean | routes/businesses.js:204 | the average is 0 for no ratings; otherwise, multiplied by the count, it gives back the sum (lines 234-239 use the same rule) |
| Rating.SumBounds | routes/businesses.js:203 | the sum of n ratings within [lo, hi] lies within [n*lo, n*hi] |
| Rating.MeanBounds | routes/businesses.js:204 | the mean of a non-empty list of ratings within [lo, hi] lies within [lo, hi] |
| Rating.SumRemoveAt | routes/businesses.js:235 | taking one rating out of the list takes it out of the sum |
| Rating.SumPermutation | routes/businesses.js:202-203 | the sum depends only on the multiset of ratings, not on the order the store returns reviews in |
| Rating.MeanPermutation | routes/businesses.js:202-204 | the average depends only on the multiset of ratings |
| References.RemoveAll | routes/businesses.js:225-227 | `$pull` removes every occurrence of the id and keeps every other reference with its multiplicity |
| References.RemoveAllAppended | routes/businesses.js:199 | pulling an id that was appended to a list free of it gives the list back |
| References.RemoveAllAbsent | routes/businesses.js:225-227 | pulling an id the list does not hold leaves the list unchanged |
| References.AddThenRemove | routes/businesses.js:190-241 | adding a review under a fresh id and then removing it restores the reference list, the review table and the ratings the average is taken over |
| References.Ratings | routes/businesses.js:202 | the ratings of the referenced reviews that exist, in list order; the contract bounds their count by the number of references, and the lemmas below state which are read |
| References.RatingsCountDocuments | routes/businesses.js:202-204 | on a reference list without duplicates, the number of ratings read (one per reference) equals the number of distinct existing reviews that `$in` returns, so the average divides by the same count |
| References.RatingsAppend | routes/businesses.js:199-202 | an appended reference adds its review's rating at the end when the review exists, and nothing otherwise |
| References.RatingsAfterAdd | routes/businesses.js:196-202 | storing a review under a fresh id and appending the id adds exactly its rating to the ratings read before, so the count is at least one |
| References.RatingsAgree | routes/businesses.js:202 | review tables that agree on the referenced ids give the same ratings |
| References.RatingsValid | models/review.js:7-11 | when every stored review is valid, every rating read lies in [1, 5] |
| References.RatingsAfterPull | routes/businesses.js:225-233 | once the review is deleted, pulling its id does not change the ratings read |
| Router.Consistent | routes/businesses.js:190-241 | the store invariant: business and review ids are disjoint, every business key, review key and reference lies below the next fresh id, no review id is listed by two businesses, no review list holds an id twice, and every stored review is schema-valid |
| Router.RefSet | routes/businesses.js:168 | the ids deleteMany targets are exactly the ids in the business's review list |
| Router.FreshId | routes/businesses.js:190-199 | the id a new review receives is neither a stored review nor in the business's list |
| Router.StoreReviewConsistent | routes/businesses.js:190-196 | storing a valid review under the next id, before any business refers to it, preserves the store invariant |
| Router.AddReviewConsistent | routes/businesses.js:196-206 | storing a valid review under the next id and appending it to a business preserves the store invariant |
| Router.RemoveReviewConsistent | routes/businesses.js:225-241 | pulling an id from a business and deleting that review preserves the store invariant |
| Router.Store.CreateBusiness | routes/businesses.js:75-93 | role other than "owner": Forbidden, store unchanged; any field empty: ServerError, store unchanged; otherwise exactly one new business under a fresh id with the request's fields, no reviews and average 0, nothing else changed, redirect to it |
| Router.Store.UpdateBusiness | routes/businesses.js:131-151 | role other than "owner": Forbidden, unchanged; unknown id: ServerError, unchanged; otherwise only title, location and description of that business are overwritten (without validation), reviews, average and createdAt are kept, nothing else changes |
| Router.Store.DeleteBusiness | routes/businesses.js:154-175 | role other than "owner": Forbidden, unchanged; unknown id: NotFound, unchanged; otherwise the business and exactly the reviews in its list are deleted, all other records untouched, redirect to the list |
| Router.Store.AddReview | routes/businesses.js:178-213 | role other than "consumer": Forbidden, unchanged; unknown business: NotFound, unchanged; invalid rating or body: ServerError, unchanged; schema-invalid business: the new review is stored under a fresh id, then ServerError with the businesses unchanged; otherwise one new review under a fresh id, its id appended to the list, the average set to the mean of the previous existing referenced ratings plus the new one, which lies in [1, 5], nothing else changed |
| Router.Store.RemoveReview | routes/businesses.js:216-248 | role neither "owner" nor "consumer": Forbidden, unchanged; unknown business: the review record is still deleted, then ServerError; schema-invalid business: the id is pulled from its list and the record deleted, then ServerError with the stored average kept; otherwise every occurrence of the id is pulled from the list, the record is deleted whichever business held it, the average becomes the mean of the remaining existing referenced ratings (0 when there are none, else within [1, 5]), nothing else changed |
| Scenarios.AddFive | routes/businesses.js:196-204 | a business whose reviews rate 3 and 4 has average 4 after a consumer adds a 5 |
| Scenarios.RemoveThree | routes/businesses.js:225-236 | removing the 3 from reviews rating 3, 4 and 5 leaves the list of the other two and an average of 4.5 |

## Left out

- The read-only handlers (list, show, and the two form pages with their
  role redirects at routes/businesses.js:67-72 and 113-128) only render
  templates. The ordering by `createdAt` is a database sort.
- `toFixed(2)`: the stored average is the exact mean, not binary
  floating-point rounding to two decimals followed by conversion back to a
  Number. Ratings are exact reals, not IEEE doubles.
- Mongoose casting: request strings converted to Number, malformed
  ObjectIds, and the CastError these raise (a 500). A rating that is
  missing or cannot be cast is `None`.
- Router.Store.UpdateBusiness: takes the three fields as given strings. How
  Mongoose treats a field missing from the request body is not modelled.
- Store failures other than schema validation (a dropped connection, a
  write error) answer 500 in every handler, possibly after a first write.
  The model has no such failures.
- How `$in` and `populate` treat duplicate ids: `Ratings` counts one rating
  per occurrence in the list, while `$in` returns each document once. Only
  `AddReview` adds ids, always fresh ones, so the handlers never create
  duplicates, and the invariant `Consistent` states that no list holds one.
  On such lists `References.RatingsCountDocuments` proves that the two
  readings find the same number of reviews. `Rating.SumPermutation` covers
  the order in which the store returns documents.
- Id generation and clocks: ObjectIds come from a counter in the store, and
  creation times are parameters.
- Concurrency: races between overlapping requests on one business, and
  `async`/`await` interleaving.
- A request without any session (`req.session` undefined).
- app.js (server setup and seeding) and config/database.js (the connection)
  are not part of this model.
