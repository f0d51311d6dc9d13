/** The ways a call to one of the app's web services can raise, shared by all three services. */
module Http {

  /**
   * A 429 (told apart because the app reports it separately), another error
   * status from `raise_for_status`, a failure before any response (timeout,
   * refused connection), or a body the caller cannot use.
   */
  datatype HttpError = RateLimited | HttpStatus(code: int) | Transport | Malformed

  /** The statuses `raise_for_status` raises on. */
  predicate IsHttpError(status: int) {
    400 <= status < 600
  }
}
