/** The remote HTTP API seen as an oracle: every store operation is given the outcome
    of its request instead of performing it, and reports how its own promise settled. */
module Api {
  import opened Js

  /** The parts of an error response the client inspects: the HTTP status and the
      `error` field of the response body (None when the body has none). */
  datatype ErrorResponse = ErrorResponse(status: int, error: Option<string>)

  /** A rejected request. `response` is None when no response arrived at all
      (a network error), so `err.response?.…` is undefined. */
  datatype Failure = Failure(response: Option<ErrorResponse>)

  /** The outcome of one request: the response data, or the failure axios raised. */
  datatype Outcome<+T> = Ok(data: T) | Err(failure: Failure)

  /** How the promise returned by a store operation settles: resolved, or rejected
      with the failure the operation re-raised. */
  datatype Settled = Fulfilled | Rejected(failure: Failure)

  /** `err.response?.status === 401` */
  predicate Unauthorized(f: Failure) {
    f.response.Some? && f.response.value.status == 401
  }

  /** `err.response?.data?.error` */
  function ServerError(f: Failure): (e: Option<string>) {
    if f.response.Some? then f.response.value.error else None
  }
}
