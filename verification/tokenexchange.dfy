/**
 * The two token-exchange adapters (functions/api/process.js:151-232). Each
 * network call is a function from the request sent to the outcome received,
 * supplied by the caller; a response body is already decoded, `None` standing
 * for a body that is not JSON.
 */
module TokenExchange {
  import opened Outcomes
  import opened JsValues
  import InputParser

  /**
   * An expiry time: a timestamp text passed on from the social endpoint, or
   * an instant in epoch milliseconds computed here (which the source renders
   * with `toISOString`, always a non-empty text).
   */
  datatype Expiry = Stamp(text: string) | At(ms: int)

  /** ToBoolean of an optional expiry. */
  predicate HasExpiry(e: Option<Expiry>) {
    match e
    case None => false
    case Some(Stamp(t)) => t != ""
    case Some(At(_)) => true
  }

  /** The largest distance from the epoch, in milliseconds, a JavaScript Date can hold. */
  const MaxTimeMs := 8_640_000_000_000_000

  /** `new Date(ms).toISOString()`, which throws a RangeError for an instant a Date cannot hold. */
  function Instant(ms: int): (r: Result<Expiry>)
    ensures r.Ok? <==> -MaxTimeMs <= ms <= MaxTimeMs
    ensures r.Ok? ==> r.value == At(ms)
    ensures r.Err? ==> r.error == InvalidDate
  {
    if -MaxTimeMs <= ms <= MaxTimeMs then Ok(At(ms)) else Err(InvalidDate)
  }

  /** `tokenResp`: what an exchange hands on to record assembly. */
  datatype Exchange = Exchange(
    accessToken: Option<Json>,
    expiresAt: Option<Expiry>,
    expiresIn: Option<int>,
    clientId: Option<Json>,
    clientSecret: Option<Json>)

  /* ------------------------- social refresh ------------------------- */

  /** The JSON body posted to the social refresh endpoint. */
  datatype SocialRequest = SocialRequest(refreshToken: Json, profileArn: Option<Json>)

  /** The fields read from the social endpoint's answer. */
  datatype SocialBody = SocialBody(
    accessToken: Option<string>,
    access_token: Option<string>,
    expiresAt: Option<string>,
    expiresIn: Option<int>,
    expires_in: Option<int>)

  datatype SocialOutcome =
    | SocialUnreachable                                 // `fetch` rejected
    | SocialReply(status: int, body: Option<SocialBody>)

  /** The supplied access token is reused: truthy, a string, and not refresh-token shaped. */
  predicate Reusable(accessToken: Option<Json>) {
    Truthy(accessToken) && accessToken.value.Str? && !StartsWith(accessToken.value.s, InputParser.RefreshPrefix)
  }

  /** `accessToken.startsWith` throws: the supplied access token is truthy but not a string. */
  predicate AccessTokenNotString(accessToken: Option<Json>) {
    Truthy(accessToken) && !accessToken.value.Str?
  }

  /** The token a reply carries, `data.accessToken || data.access_token`, when it is truthy and the status ok. */
  function RemoteAccessToken(o: SocialOutcome): (r: Option<string>)
    ensures r.Some? ==> r.value != ""
    ensures r.Some? ==> o.SocialReply? && IsOkStatus(o.status) && o.body.Some?
    ensures o.SocialReply? && IsOkStatus(o.status) && o.body.Some? && HasText(o.body.value.accessToken) ==>
              r == o.body.value.accessToken
    ensures o.SocialReply? && IsOkStatus(o.status) && o.body.Some? && !HasText(o.body.value.accessToken) ==>
              r == (if HasText(o.body.value.access_token) then o.body.value.access_token else None)
  {
    match o
    case SocialReply(status, Some(data)) =>
      if !IsOkStatus(status) then None
      else if HasText(data.accessToken) then data.accessToken
      else if HasText(data.access_token) then data.access_token
      else None
    case _ => None
  }

  /**
   * `refreshSocialToken`: reuse the supplied access token; else take the
   * refresh endpoint's token; else, on any failure, fall back to the refresh
   * token itself. Only a non-string access token makes it throw.
   */
  function RefreshSocial(refreshToken: Json, accessToken: Option<Json>, profileArn: Option<Json>,
                         endpoint: SocialRequest -> SocialOutcome): (r: Result<Exchange>)
    ensures r.Err? <==> AccessTokenNotString(accessToken)
    ensures r.Err? ==> r.error == TypeError
    ensures r.Ok? ==> r.value.clientId.None? && r.value.clientSecret.None?
    ensures Reusable(accessToken) ==> r == Ok(Exchange(accessToken, None, None, None, None))
    ensures r.Ok? ==>
              var remote := RemoteAccessToken(endpoint(SocialRequest(refreshToken, profileArn)));
              || (Reusable(accessToken) && r.value.accessToken == accessToken)
              || (remote.Some? && r.value.accessToken == Some(Str(remote.value)))
              || r.value.accessToken == Some(refreshToken)
    ensures !Reusable(accessToken) && !AccessTokenNotString(accessToken) ==>
              var reply := endpoint(SocialRequest(refreshToken, profileArn));
              var remote := RemoteAccessToken(reply);
              && (remote.Some? ==>
                    var data := reply.body.value;
                    && r.value.accessToken == Some(Str(remote.value))
                    && r.value.expiresAt == (if data.expiresAt.Some? then Some(Stamp(data.expiresAt.value)) else None)
                    && r.value.expiresIn == (if HasCount(data.expiresIn) then data.expiresIn else data.expires_in))
              && (remote.None? ==> r == Ok(Exchange(Some(refreshToken), None, None, None, None)))
  {
    if AccessTokenNotString(accessToken) then Err(TypeError)
    else if Reusable(accessToken) then Ok(Exchange(accessToken, None, None, None, None))
    else
      var reply := endpoint(SocialRequest(refreshToken, profileArn));
      match RemoteAccessToken(reply)
      case Some(token) =>
        var data := reply.body.value;
        var expiresIn := if HasCount(data.expiresIn) then data.expiresIn else data.expires_in;
        var expiresAt := match data.expiresAt case Some(t) => Some(Stamp(t)) case None => None;
        Ok(Exchange(Some(Str(token)), expiresAt, expiresIn, None, None))
      case None => Ok(Exchange(Some(refreshToken), None, None, None, None))
  }

  /** A reusable access token is returned without consulting the refresh endpoint at all. */
  lemma SocialReuseMakesNoCall(refreshToken: Json, accessToken: Option<Json>, profileArn: Option<Json>,
                               e1: SocialRequest -> SocialOutcome, e2: SocialRequest -> SocialOutcome)
    requires Reusable(accessToken)
    ensures RefreshSocial(refreshToken, accessToken, profileArn, e1) == RefreshSocial(refreshToken, accessToken, profileArn, e2)
    ensures RefreshSocial(refreshToken, accessToken, profileArn, e1).value.accessToken == accessToken
  {
  }

  /**
   * Fallback law: when the access token is not reused and the endpoint gives
   * no usable token (unreachable, non-2xx, not JSON, or no token field), the
   * refresh token itself becomes the access token.
   */
  lemma SocialFallback(refreshToken: Json, accessToken: Option<Json>, profileArn: Option<Json>,
                       endpoint: SocialRequest -> SocialOutcome)
    requires !Truthy(accessToken) || (accessToken.value.Str? && StartsWith(accessToken.value.s, InputParser.RefreshPrefix))
    requires RemoteAccessToken(endpoint(SocialRequest(refreshToken, profileArn))).None?
    ensures RefreshSocial(refreshToken, accessToken, profileArn, endpoint) == Ok(Exchange(Some(refreshToken), None, None, None, None))
  {
  }

  /**
   * The social flow never leaves the caller without an access token: with a
   * truthy refresh token, the result is truthy on every tier.
   */
  lemma SocialAlwaysYieldsToken(refreshToken: Json, accessToken: Option<Json>, profileArn: Option<Json>,
                                endpoint: SocialRequest -> SocialOutcome)
    requires Truthy(Some(refreshToken))
    requires !AccessTokenNotString(accessToken)
    ensures RefreshSocial(refreshToken, accessToken, profileArn, endpoint).Ok?
    ensures Truthy(RefreshSocial(refreshToken, accessToken, profileArn, endpoint).value.accessToken)
  {
  }

  /* ------------------------- BuilderId (OIDC) refresh ------------------------- */

  /** The form posted to `https://oidc.<region>.amazonaws.com/token` with `grant_type=refresh_token`. */
  datatype OidcRequest = OidcRequest(region: Json, refreshToken: Json, clientId: Json, clientSecret: Json)

  /** The fields read from the OIDC endpoint's answer. */
  datatype OidcBody = OidcBody(
    access_token: Option<string>,
    expires_in: Option<int>,
    error: Option<string>,
    error_description: Option<string>)

  /** What `JSON.parse` makes of the answer's text. */
  datatype OidcPayload =
    | Unparsable          // not JSON: `data` stays `{}`
    | NullBody            // the JSON literal `null`
    | Fields(data: OidcBody)

  datatype OidcOutcome =
    | OidcUnreachable                                            // `fetch` rejected
    | OidcReply(status: int, text: string, body: OidcPayload)

  /** The message of a refused refresh: `data?.error_description || data?.error || text`. */
  function ErrorDetail(body: OidcPayload, text: string): (d: string)
    ensures body.Fields? && HasText(body.data.error_description) ==> d == body.data.error_description.value
    ensures body.Fields? && !HasText(body.data.error_description) && HasText(body.data.error) ==> d == body.data.error.value
    ensures !body.Fields? || (!HasText(body.data.error_description) && !HasText(body.data.error)) ==> d == text
  {
    match body
    case Fields(data) =>
      if HasText(data.error_description) then data.error_description.value
      else if HasText(data.error) then data.error.value
      else text
    case _ => text
  }

  /**
   * `refreshBuilderIdToken`: a non-2xx answer is a thrown error carrying the
   * status and best message; a 2xx answer yields the token, an expiry `now +
   * expires_in` seconds when `expires_in` is truthy, and the client
   * credentials echoed back. A 2xx `null` body throws when its fields are read.
   */
  function RefreshBuilderId(request: OidcRequest, now: int, endpoint: OidcRequest -> OidcOutcome): (r: Result<Exchange>)
    ensures endpoint(request).OidcUnreachable? ==> r == Err(NetworkError)
    ensures endpoint(request).OidcReply? && !IsOkStatus(endpoint(request).status) ==>
              r == Err(UpstreamRejected(endpoint(request).status, ErrorDetail(endpoint(request).body, endpoint(request).text)))
    ensures endpoint(request).OidcReply? && IsOkStatus(endpoint(request).status) && endpoint(request).body.NullBody? ==>
              r == Err(TypeError)
    ensures r.Ok? ==> endpoint(request).OidcReply? && IsOkStatus(endpoint(request).status) && !endpoint(request).body.NullBody?
    ensures endpoint(request).OidcReply? && IsOkStatus(endpoint(request).status) && !endpoint(request).body.NullBody? ==>
              var data := endpoint(request).body;
              var expiresIn := if data.Fields? then data.data.expires_in else None;
              && (r.Ok? <==> !HasCount(expiresIn) || Instant(now + expiresIn.value * 1000).Ok?)
              && (r.Err? ==> r == Err(InvalidDate))
              && (r.Ok? ==> r.value.expiresIn == expiresIn)
    ensures r.Ok? ==> r.value.clientId == Some(request.clientId) && r.value.clientSecret == Some(request.clientSecret)
    ensures r.Ok? ==>
              var data := endpoint(request).body;
              && (r.value.accessToken.Some? <==> data.Fields? && data.data.access_token.Some?)
              && (r.value.accessToken.Some? ==> r.value.accessToken.value == Str(data.data.access_token.value))
              && (r.value.expiresAt.Some? <==> data.Fields? && HasCount(data.data.expires_in))
              && (r.value.expiresAt.Some? ==> r.value.expiresAt.value == At(now + data.data.expires_in.value * 1000))
  {
    match endpoint(request)
    case OidcUnreachable => Err(NetworkError)
    case OidcReply(status, text, body) =>
      if !IsOkStatus(status) then Err(UpstreamRejected(status, ErrorDetail(body, text)))
      else if body.NullBody? then Err(TypeError)
      else
        var data := match body case Fields(d) => d case _ => OidcBody(None, None, None, None);
        var accessToken := match data.access_token case Some(t) => Some(Str(t)) case None => None;
        var expiresAt :-
          if HasCount(data.expires_in) then
            var at :- Instant(now + data.expires_in.value * 1000);
            Ok(Some(at))
          else Ok(None);
        Ok(Exchange(accessToken, expiresAt, data.expires_in, Some(request.clientId), Some(request.clientSecret)))
  }

  /** A refused refresh carries no token: every non-2xx answer ends the request. */
  lemma BuilderIdRefusalHasNoToken(request: OidcRequest, now: int, endpoint: OidcRequest -> OidcOutcome)
    requires endpoint(request).OidcReply? && !IsOkStatus(endpoint(request).status)
    ensures RefreshBuilderId(request, now, endpoint).Err?
    ensures RefreshBuilderId(request, now, endpoint).error.UpstreamRejected?
    ensures RefreshBuilderId(request, now, endpoint).error.status == endpoint(request).status
  {
  }
}
