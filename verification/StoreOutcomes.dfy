/** How a call to the store may end, as far as the caller and the table can tell. */
module StoreOutcomes {
  /** An add: done with an id, accepted without one, refused, or unknown with or without the record written. */
  datatype AddOutcome = Created | CreatedWithoutId | Failed | UnknownWritten | UnknownUnwritten

  predicate Writes(o: AddOutcome) { o == Created || o == CreatedWithoutId || o == UnknownWritten }

  /** A lost answer: the record may be there or not. */
  predicate Unknown(o: AddOutcome) { o == UnknownWritten || o == UnknownUnwritten }

  /** An update: whether it reached the store and whether it was reported as done. */
  datatype UpdateOutcome = UpdateOutcome(applied: bool, reported: bool)
}
