/** Small value wrappers shared by the model: an optional value, and the
    outcome of one request to the remote service. */
module Wrappers {

  /** A value that may be absent (JavaScript `null` / `undefined`). */
  datatype Option<+T> = None | Some(value: T)

  /** What one `fetch` to the service yields, as seen by the component:
      a body whose `success` flag is set, carrying its payload, or anything
      else (a thrown network or decoding error, or a body without `success`). */
  datatype Fetch<+T> = Success(payload: T) | Failure
}
