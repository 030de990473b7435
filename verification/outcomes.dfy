/** Shared outcome types: JavaScript's optional values and the settled result of one HTTP call. */
module Outcomes {

  /** A value that may be absent (`null` or `undefined` in the client). */
  datatype Option<+T> = None | Some(value: T)

  /** How one awaited HTTP call settled: the response body, or a rejected promise. */
  datatype Http<+T> = Ok(data: T) | Err
}
