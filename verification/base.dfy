/** Failure-carrying values shared by every part of the model: an optional
    value, a result that is either a value or one of the connector's errors,
    and the error taxonomy itself. */
module Base {

  datatype Option<+T> = None | Some(value: T)

  /** The errors the connector and its HTTP client can produce. */
  datatype Error =
    | TransportFailure(reason: string)        // the request could not be built, sent or read
    | StatusFailure(code: int, body: string)  // the server answered with a status >= 400
    | DecodeFailure                           // the response body is not the expected JSON
    | CursorFailure(reason: string)           // the pagination bag could not be (un)marshalled
    | NilResponse                             // rate-limit extraction was handed no response
    | RateLimitParse(header: string)          // a rate-limit header is not a decimal int64
    | MissingField(field: string)             // an account-creation profile field is missing
    | CurrentUserUnavailable(cause: Error)    // Validate could not fetch the "me" user
    | NotAdmin                                // Validate found the credentials are not an admin's
    | StillExists(userId: string)             // the post-delete fetch did not report "not found"

  datatype Result<+T> = Ok(value: T) | Err(error: Error)

  /** The gRPC status codes that matter to the connector: the one it tests
      for, and the one `status.Code` reports for an error without a status. */
  datatype GrpcCode = NotFound | Unknown

  /** What gRPC's `status.Code` reports for an error of this model. None of the
      errors above wraps a gRPC status (the client formats its own messages and
      the transport's errors are plain Go errors), so every error reads as
      Unknown. */
  function StatusCode(e: Error): (c: GrpcCode)
    ensures c != NotFound
  {
    Unknown
  }
}
