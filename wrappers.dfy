/** Small value wrappers shared by the model's modules. */
module Wrappers {

  /** A JavaScript value that may be `null`/`undefined` (Flow's `?T`). */
  datatype Option<+T> = None | Some(value: T)

  /** A computation that either returns a value or throws an error. */
  datatype Result<+T, +E> = Success(value: T) | Failure(error: E)

  /** How an awaited promise settled: it resolved, or it rejected (threw). */
  datatype Outcome = Resolved | Rejected
}
