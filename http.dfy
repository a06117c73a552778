/** Every awaited axios call is replaced by its outcome, supplied by the caller. */
module Http {
  import opened Js

  /** The response body of a request that succeeded, or a rejection that
      carries the HTTP status when the server answered at all
      (`error.response?.status`). */
  datatype Response<+T> = Ok(data: T) | Error(status: Option<int>)
}
