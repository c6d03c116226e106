/**
 * Conventions of the document store behind the backend (Mongoose over
 * MongoDB) that the schemas rely on.
 */
module Mongo {

  /** A document's `_id`, kept opaque. */
  type ObjectId = string

  /** A timestamp as `timestamps: true` records it; the clock itself is outside the model. */
  type Time = nat

  /**
   * Mongoose's `required` validator for a `String` path: the value must be
   * a string of length at least one.
   */
  predicate Present(s: string) {
    |s| > 0
  }
}
