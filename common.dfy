/** Small shared vocabulary: optional values, results, and document ids. */
module Common {

  datatype Option<+T> = None | Some(value: T)

  datatype Result<+T, +E> = Success(value: T) | Failure(error: E)

  /** A MongoDB `_id`. The driver draws a fresh one for every `new User(...)`;
      the model draws it from a counter kept by the collection. */
  type ObjectId = nat
}
