/** Vocabulary shared by the schema modules and the router. */
module Types {
  /** A value that may be absent, such as a request field that was not sent. */
  datatype Option<+T> = None | Some(value: T)

  /** A document id (a MongoDB ObjectId); ids are never reused. */
  type Id = nat

  /** A creation time as `Date.now` gives it, in milliseconds. */
  type Timestamp = int
}
