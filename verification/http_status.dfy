/**
 * The two status thresholds the service uses. The webhook worker and the
 * transaction middleware both treat a status above 399 as a failure; the
 * logger and the Sentry middleware treat a status above 499 as a server error.
 */
module HttpStatus {

  /** A response that failed: status > 399. */
  predicate IsError(code: int) {
    code > 399
  }

  /** A response the server failed to produce: status > 499. */
  predicate IsServerError(code: int) {
    code > 499
  }
}
