/**
 * Option and result types shared by every module, and the ways in which the
 * credential-ingestion pipeline can stop without producing a result.
 */
module Outcomes {

  /** A value that may be missing: an optional field, or JavaScript's `undefined`. */
  datatype Option<+T> = None | Some(value: T)

  /**
   * Why a request ends without a result. The first three are answered with
   * HTTP 400 by the request handler; the others are exceptions that reach its
   * catch-all and are answered with HTTP 500.
   */
  datatype Failure =
    | NoRefreshToken            // no strategy parsed the input, or it has no truthy `refreshToken`
    | MissingClientCredentials  // BuilderId flow chosen but `clientId` or `clientSecret` is falsy
    | RefreshFailed             // the exchange produced no truthy access token
    | UpstreamRejected(status: int, detail: string)  // the OIDC token endpoint answered non-2xx
    | NetworkError              // `fetch` of the OIDC token endpoint rejected
    | TypeError                 // a string method was called on a non-string input value
    | InvalidDate               // an expiry instant outside the range of a JavaScript Date

  /** A computation that either yields a value or stops with a `Failure`; usable with `:-`. */
  datatype Result<+T> = Ok(value: T) | Err(error: Failure) {

    predicate IsFailure() {
      Err?
    }

    function PropagateFailure<U>(): Result<U>
      requires Err?
    {
      Err(error)
    }

    function Extract(): T
      requires Ok?
    {
      value
    }
  }
}
