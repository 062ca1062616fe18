/**
 * The captive-portal detector of the program's entry point: one HEAD probe of
 * the test URL decides whether a login page is required, and the activation
 * paths decide which URLs the window is built with.
 */
module AuthDetector {
  import opened Wrappers
  import opened Probe

  /**
   * `check_auth_url`, given the outcome of its single probe: the login page is
   * the Location of a 302 Found response (section 7.1.2 of RFC 7231). A
   * failure, a 302 without Location and every other status give nothing.
   */
  function CheckAuthUrl(outcome: ProbeOutcome): (r: Option<string>)
    ensures r != None <==> outcome.Response? && outcome.status == FOUND && outcome.location != None
    ensures r != None ==> r.value == outcome.location.value
  {
    match outcome
    case Failed => None
    case Response(status, location) =>
      if status == FOUND && location.Some? then Some(location.value) else None
  }

  /** A probe that confirms connectivity never points to a login page. */
  lemma ConfirmationIsNotRedirect(outcome: ProbeOutcome)
    ensures Confirms(outcome) ==> CheckAuthUrl(outcome) == None
  {
  }

  /** Concrete probes: a redirect with Location, a 200, a 302 without Location and a failure. */
  lemma DetectorExamples()
    ensures CheckAuthUrl(Response(302, Some("http://auth.example/login"))) == Some("http://auth.example/login")
    ensures CheckAuthUrl(Response(200, None)) == None
    ensures CheckAuthUrl(Response(302, None)) == None
    ensures CheckAuthUrl(Failed) == None
  {
  }

  /** The URL the default activation uses. */
  const DEFAULT_URL: string := "http://www.google.com"

  /** The arguments a window is built with: the page to show first and the URL the poller probes. */
  datatype Launch = Launch(authUrl: string, testUrl: string)

  /** The default activation: one hard-coded URL serves as both. */
  function Activate(): (l: Launch)
    ensures l.authUrl == l.testUrl
  {
    Launch(DEFAULT_URL, DEFAULT_URL)
  }

  /**
   * The open activation, given the URIs of the opened files (the first of
   * which may have none) and the network's answer to a probe of a URL. A
   * window is built only when the first file has a URI and probing it yields
   * a login page; that page is shown and the URI is probed afterwards.
   */
  function Open(uris: seq<Option<string>>, network: string -> ProbeOutcome): (r: Option<Launch>)
    requires |uris| > 0
    ensures r != None <==>
      uris[0] != None && network(uris[0].value).Response? &&
      network(uris[0].value).status == FOUND && network(uris[0].value).location != None
    ensures r != None ==>
      r.value.testUrl == uris[0].value && r.value.authUrl == network(uris[0].value).location.value
  {
    match uris[0]
    case None => None
    case Some(testUrl) =>
      match CheckAuthUrl(network(testUrl))
      case None => None
      case Some(authUrl) => Some(Launch(authUrl, testUrl))
  }

  /** Only the first opened file matters. */
  lemma OpenReadsFirstOnly(uris: seq<Option<string>>, others: seq<Option<string>>, network: string -> ProbeOutcome)
    requires |uris| > 0
    ensures Open([uris[0]] + others, network) == Open(uris, network)
  {
  }
}
