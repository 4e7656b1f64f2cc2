/**
 * The outcome of one backend request made through the shared HTTP client
 * (lib/api.ts). The transport itself is not modelled: a request's outcome
 * is an input to the operation that made it.
 */
module Api {
  import opened Wrappers

  /**
   * The part of a rejected request that the components read:
   * the structured `detail` of the error payload (`error.response?.data?.detail`),
   * when there is one, and the error's `message`.
   */
  datatype RequestError = RequestError(detail: Option<string>, message: string)

  /** A request either resolves with the response body or is rejected with an error. */
  datatype Response<+T> = Ok(data: T) | Failed(error: RequestError)
}
