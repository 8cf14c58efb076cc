/**
 * Clients of the store that chain handlers, showing what the handlers'
 * contracts promise together.
 */
module Scenarios {
  import opened Types
  import opened Roles
  import opened Rating
  import opened References
  import opened Router
  import ReviewModel
  import BusinessModel

  /** An owner cannot add a review and a consumer cannot create a business. */
  method RoleGates()
  {
    var store := new Store();
    var o := store.CreateBusiness(Owner, "Cafe", "Main St", "Coffee", 0);
    assert o == Redirect(BusinessPage(0));
    o := store.CreateBusiness(Consumer, "Bar", "Main St", "Drinks", 0);
    assert o == Forbidden && store.businesses.Keys == {0};
    o := store.AddReview(Owner, 0, Some(5.0), "great", 1);
    assert o == Forbidden && store.reviews == map[];
    o := store.CreateBusiness(Owner, "", "Main St", "Drinks", 0);
    assert o == ServerError && store.businesses.Keys == {0};
  }

  /** Ratings 3 and 4 plus a 5 average 4; removing the 3 leaves 4 and 5, which average 4.5. */
  lemma ExampleMeans()
    ensures Mean([3.0, 4.0, 5.0]) == 4.0
    ensures Mean([4.0, 5.0]) == 4.5
  {
    assert [3.0, 4.0, 5.0][..2] == [3.0, 4.0];
    assert [3.0, 4.0][..1] == [3.0];
    assert [4.0, 5.0][..1] == [4.0];
    assert [3.0][..0] == [] && [4.0][..0] == [];
  }

  /** A business whose reviews rate 3 and 4 gets a 5: the average becomes 4. */
  method AddFive(store: Store, id: Id, three: Id, four: Id) returns (five: Id)
    requires store.Valid()
    requires id in store.businesses && store.businesses[id].reviews == [three, four]
    requires BusinessModel.Valid(store.businesses[id])
    requires three in store.reviews && store.reviews[three].rating == 3.0
    requires four in store.reviews && store.reviews[four].rating == 4.0
    modifies store
    ensures store.Valid()
    ensures id in store.businesses && store.businesses[id].reviews == [three, four, five]
    ensures BusinessModel.Valid(store.businesses[id])
    ensures three in store.reviews && store.reviews[three].rating == 3.0
    ensures four in store.reviews && store.reviews[four].rating == 4.0
    ensures five in store.reviews && store.reviews[five].rating == 5.0
    ensures store.businesses[id].averageRating == 4.0
  {
    RatingsOfTwo(three, four, store.reviews);
    five := store.nextId;
    var o := store.AddReview(Consumer, id, Some(5.0), "great", 3);
    ExampleMeans();
    assert [3.0, 4.0] + [5.0] == [3.0, 4.0, 5.0];
  }

  /** Pulling the first of three distinct ids. */
  lemma PullFirst(a: Id, b: Id, c: Id)
    requires a != b && a != c
    ensures RemoveAll([a, b, c], a) == [b, c]
  {
    assert [a, b, c][1..] == [b, c] && [b, c][1..] == [c] && [c][1..] == [];
    assert RemoveAll([c], a) == [c];
    assert RemoveAll([b, c], a) == [b] + [c];
  }

  /** The ratings read from a two-element reference list. */
  lemma RatingsOfTwo(a: Id, b: Id, table: map<Id, ReviewModel.Review>)
    requires a in table && b in table
    ensures Ratings([a, b], table) == [table[a].rating, table[b].rating]
  {
    assert [a, b][1..] == [b] && [b][1..] == [];
  }

  /** Removing the 3 from reviews rating 3, 4 and 5 leaves an average of 4.5. */
  method RemoveThree(store: Store, id: Id, three: Id, four: Id, five: Id)
    requires store.Valid()
    requires id in store.businesses && store.businesses[id].reviews == [three, four, five]
    requires BusinessModel.Valid(store.businesses[id])
    requires three in store.reviews && store.reviews[three].rating == 3.0
    requires four in store.reviews && store.reviews[four].rating == 4.0
    requires five in store.reviews && store.reviews[five].rating == 5.0
    modifies store
    ensures id in store.businesses && store.businesses[id].reviews == [four, five]
    ensures store.businesses[id].averageRating == 4.5
  {
    assert three != four && three != five;
    PullFirst(three, four, five);
    RatingsOfTwo(four, five, store.reviews - {three});
    var o := store.RemoveReview(Consumer, id, three);
    ExampleMeans();
  }
}
