/**
 * The Business record schema of models/business.js: three required strings,
 * a creation time defaulting to "now", a list of review references that
 * starts empty, and an `averageRating` defaulting to 0 with no bound.
 */
module BusinessModel {
  import opened Types

  datatype Business = Business(
    title: string,
    location: string,
    description: string,
    createdAt: Timestamp,
    reviews: seq<Id>,
    averageRating: real)

  /** What the schema validator checks on save: the three text fields are present and non-empty. */
  predicate Valid(b: Business)
  {
    b.title != "" && b.location != "" && b.description != ""
  }

  /**
   * `new Business({ title, location, description })` followed by `save()`:
   * the record that is stored, or None when validation rejects it.
   */
  function New(title: string, location: string, description: string, now: Timestamp): (r: Option<Business>)
    ensures r.Some? <==> title != "" && location != "" && description != ""
    ensures r.Some? ==> Valid(r.value)
    ensures r.Some? ==> r.value.title == title && r.value.location == location && r.value.description == description
    ensures r.Some? ==> r.value.createdAt == now && r.value.reviews == [] && r.value.averageRating == 0.0
  {
    var candidate := Business(title, location, description, now, [], 0.0);
    if Valid(candidate) then Some(candidate) else None
  }
}
