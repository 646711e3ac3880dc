/** What the models share about calls to the API server and to Stripe. */
module Remote {
  /** How a remote write ended: done, refused, or done although the caller saw an error. */
  datatype Effect = Done | Refused | Unacknowledged

  /** RFC 7396: a field reaches the server only when it differs from the base of the patch. */
  function Pick<T(==)>(base: T, modified: T, current: T): T {
    if base == modified then current else modified
  }
}
