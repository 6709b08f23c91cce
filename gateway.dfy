/** The request interceptor of the shared HTTP client: every outgoing
    request is cancelled unless the identity session is authenticated and a
    token refresh (minimum validity 5 seconds) succeeds, in which case the
    bearer token is attached to the request's headers in place. The identity
    library is represented only by its `authenticated` flag and by the
    outcome of the refresh it performs. */
module Gateway {
  import opened Json

  /** Seconds of validity the token must have left, or be refreshed first. */
  const MinValidity: nat := 5

  const BearerPrefix := "Bearer "

  /** How `updateToken(MinValidity)` settled: with the session's token after
      it (refreshed or still valid), or with a rejection. */
  datatype RefreshOutcome = Refreshed(token: string) | RefreshFailed

  /** What the interceptor does with a request. */
  datatype Decision = Attach(authorization: string) | Cancel(reason: string)

  /** The `Authorization` header value for `token`; the token follows the prefix unaltered. */
  function BearerHeader(token: string): (h: string)
    ensures |h| == |BearerPrefix| + |token|
    ensures h[..|BearerPrefix|] == BearerPrefix && h[|BearerPrefix|..] == token
  {
    BearerPrefix + token
  }

  /** The interceptor's decision, given whether the session is authenticated
      and how the refresh settles (the refresh is consulted only when it is). */
  function Decide(authenticated: bool, refresh: RefreshOutcome): (d: Decision)
    ensures !authenticated ==> d == Cancel("User not authenticated")
    ensures authenticated && refresh.RefreshFailed? ==> d == Cancel("Token refresh failed")
    ensures d.Attach? <==> authenticated && refresh.Refreshed?
    ensures d.Attach? ==> d.authorization == BearerHeader(refresh.token)
  {
    if !authenticated then Cancel("User not authenticated")
    else match refresh
      case Refreshed(token) => Attach(BearerHeader(token))
      case RefreshFailed => Cancel("Token refresh failed")
  }

  /** Corollary of `Decide`'s first clause, spelled out as the
      fail-closed rule: without a session no outcome of the refresh can let
      a request through. */
  lemma UnauthenticatedNeverAttaches(r1: RefreshOutcome, r2: RefreshOutcome)
    ensures Decide(false, r1) == Decide(false, r2) && Decide(false, r1).Cancel?
  {
  }

  /** The request description the interceptor receives and decorates. */
  class RequestConfig {
    var url: string
    var params: Fields
    var headers: map<string, string>

    constructor (url: string, params: Fields, headers: map<string, string>)
      ensures this.url == url && this.params == params && this.headers == headers
    {
      this.url, this.params, this.headers := url, params, headers;
    }
  }

  /** How the interceptor settles: with the very config object it was given,
      or with a cancel error carrying a reason. */
  datatype Outcome = Proceed(config: RequestConfig) | Cancelled(reason: string)

  /** The request interceptor. `refreshCall` is the minimum validity passed
      to `updateToken`, or `None` when no refresh was requested. */
  method Intercept(config: RequestConfig, authenticated: bool, refresh: RefreshOutcome)
      returns (outcome: Outcome, refreshCall: Option<nat>)
    modifies config`headers
    ensures refreshCall == (if authenticated then Some(MinValidity) else None)
    ensures match Decide(authenticated, refresh)
      case Attach(authorization) =>
        outcome == Proceed(config) && config.headers == old(config.headers)["Authorization" := authorization]
      case Cancel(reason) =>
        outcome == Cancelled(reason) && config.headers == old(config.headers)
  {
    if !authenticated {
      return Cancelled("User not authenticated"), None;
    }
    refreshCall := Some(MinValidity);
    match refresh
    case RefreshFailed =>
      outcome := Cancelled("Token refresh failed");
    case Refreshed(token) =>
      config.headers := config.headers["Authorization" := BearerHeader(token)];
      outcome := Proceed(config);
  }
}
