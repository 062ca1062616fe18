/**
 * The outcome of one HTTP HEAD probe (section 4.3.2 of RFC 7231) sent with
 * redirect following disabled: either the request failed, or a response
 * arrived with a status code and, possibly, a Location header.
 */
module Probe {
  import opened Wrappers

  /** 200 OK (section 6.3.1 of RFC 7231). */
  const OK: nat := 200
  /** 302 Found (section 6.4.3 of RFC 7231). */
  const FOUND: nat := 302

  datatype ProbeOutcome =
    | Failed
    | Response(status: nat, location: Option<string>)

  /** A probe that proves connectivity: a response with status 200. */
  predicate Confirms(o: ProbeOutcome) {
    o.Response? && o.status == OK
  }
}
