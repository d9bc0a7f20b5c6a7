/**
 * The body of the request handler (functions/api/process.js:29-111): parse,
 * choose a flow, exchange the refresh token, assemble the record, produce the
 * client-id file, query usage. Everything the handler takes from outside (the
 * clock, JSON decoding, SHA-1, the three HTTP endpoints) is a parameter.
 */
module Pipeline {
  import opened Outcomes
  import opened JsValues
  import opened InputParser
  import opened FlowSelector
  import opened TokenExchange
  import opened TokenRecord
  import opened HexEncoding
  import opened Usage

  const AccessTokenKey := "accessToken"
  const EmailKey := "email"

  /** What the handler consults besides the pasted text. */
  datatype Services = Services(
    now: int,                              // `Date.now()`
    decode: JsonDecoder,                   // `JSON.parse`
    digest: Json -> seq<byte>,             // SHA-1 of the value's text
    social: SocialRequest -> SocialOutcome,
    oidc: OidcRequest -> OidcOutcome,
    usage: UsageRequest -> UsageOutcome)

  /** The JSON object answered with HTTP 200. */
  datatype Output = Output(
    usage: UsageReport,
    kiroToken: TokenRecord,
    isBuilderIdType: bool,
    clientIdHashFile: Option<ClientIdFile>)

  /** The credential as the handler accepts it: parsed, with a truthy refresh token. */
  function Accepted(input: string, decode: JsonDecoder): (r: Option<Object>)
    ensures r.Some? <==> ParseInput(input, decode).Some? && Truthy(Prop(ParseInput(input, decode).value, RefreshTokenKey))
    ensures r.Some? ==> r == ParseInput(input, decode)
  {
    match ParseInput(input, decode)
    case Some(parsed) => if Truthy(Prop(parsed, RefreshTokenKey)) then Some(parsed) else None
    case None => None
  }

  /**
   * Step 2: the exchange of the chosen flow. The social flow fails only on a
   * non-string access token and, given a truthy refresh token, always yields
   * a truthy access token; a BuilderId exchange echoes the pasted client
   * credentials and fails only as the OIDC refresh can.
   */
  function ExchangeFor(parsed: Object, flow: Flow, region: Json, env: Services): (r: Result<TokenExchange.Exchange>)
    requires RefreshTokenKey in parsed
    requires flow == BuilderId ==> HasClientCredentials(parsed)
    ensures flow == Social ==> (r.Err? <==> AccessTokenNotString(Prop(parsed, AccessTokenKey)))
    ensures flow == Social && r.Err? ==> r.error == TypeError
    ensures flow == Social && r.Ok? ==> r.value.clientId.None? && r.value.clientSecret.None?
    ensures flow == Social && r.Ok? && Truthy(Some(parsed[RefreshTokenKey])) ==> Truthy(r.value.accessToken)
    ensures flow == Social && Reusable(Prop(parsed, AccessTokenKey)) ==>
              r == Ok(TokenExchange.Exchange(Prop(parsed, AccessTokenKey), None, None, None, None))
    ensures flow == Social && !Reusable(Prop(parsed, AccessTokenKey)) && !AccessTokenNotString(Prop(parsed, AccessTokenKey)) ==>
              var remote := RemoteAccessToken(env.social(SocialRequest(parsed[RefreshTokenKey], Prop(parsed, ProfileArnKey))));
              && (remote.Some? ==> r.value.accessToken == Some(Str(remote.value)))
              && (remote.None? ==> r == Ok(TokenExchange.Exchange(Some(parsed[RefreshTokenKey]), None, None, None, None)))
    ensures flow == BuilderId ==>
              var o := env.oidc(OidcRequest(region, parsed[RefreshTokenKey], parsed[ClientIdKey], parsed[ClientSecretKey]));
              && (o.OidcUnreachable? ==> r == Err(NetworkError))
              && (o.OidcReply? && !IsOkStatus(o.status) ==> r == Err(UpstreamRejected(o.status, ErrorDetail(o.body, o.text))))
              && (r.Ok? ==> (r.value.accessToken.Some? <==> o.OidcReply? && o.body.Fields? && o.body.data.access_token.Some?))
              && (r.Ok? && r.value.accessToken.Some? ==> r.value.accessToken == Some(Str(o.body.data.access_token.value)))
    ensures flow == BuilderId && r.Ok? ==>
              r.value.clientId == Some(parsed[ClientIdKey]) && r.value.clientSecret == Some(parsed[ClientSecretKey])
    ensures flow == Social ==>
              r == RefreshSocial(parsed[RefreshTokenKey], Prop(parsed, AccessTokenKey), Prop(parsed, ProfileArnKey), env.social)
    ensures flow == BuilderId ==>
              r == RefreshBuilderId(OidcRequest(region, parsed[RefreshTokenKey], parsed[ClientIdKey], parsed[ClientSecretKey]),
                                    env.now, env.oidc)
    ensures flow == BuilderId && r.Err? ==>
              r.error.NetworkError? || r.error.UpstreamRejected? || r.error == TypeError || r.error == InvalidDate
  {
    match flow
    case BuilderId =>
      RefreshBuilderId(OidcRequest(region, parsed[RefreshTokenKey], parsed[ClientIdKey], parsed[ClientSecretKey]),
                       env.now, env.oidc)
    case Social =>
      RefreshSocial(parsed[RefreshTokenKey], Prop(parsed, AccessTokenKey), Prop(parsed, ProfileArnKey), env.social)
  }

  /** Each flow consults only its own endpoint: replacing the other one changes nothing. */
  lemma ExchangeConsultsOnlyItsEndpoint(parsed: Object, flow: Flow, region: Json, env: Services,
                                        social: SocialRequest -> SocialOutcome, oidc: OidcRequest -> OidcOutcome)
    requires RefreshTokenKey in parsed
    requires flow == BuilderId ==> HasClientCredentials(parsed)
    ensures flow == Social ==> ExchangeFor(parsed, flow, region, env.(oidc := oidc)) == ExchangeFor(parsed, flow, region, env)
    ensures flow == BuilderId ==> ExchangeFor(parsed, flow, region, env.(social := social)) == ExchangeFor(parsed, flow, region, env)
  {
  }

  /** Lines 29-111: the handler's answer, or why it stops. */
  function Process(input: string, env: Services): (r: Result<Output>)
    ensures Accepted(input, env.decode).None? ==> r == Err(NoRefreshToken)
    ensures r.Ok? ==> Accepted(input, env.decode).Some? && SelectFlow(Accepted(input, env.decode).value).Ok?
    ensures r.Ok? ==> r.value.isBuilderIdType == (SelectFlow(Accepted(input, env.decode).value) == Ok(BuilderId))
  {
    match Accepted(input, env.decode)
    case None => Err(NoRefreshToken)
    case Some(parsed) =>
      var region := Region(parsed);
      var flow :- SelectFlow(parsed);
      var resp :- ExchangeFor(parsed, flow, region, env);
      if !Truthy(resp.accessToken) then Err(RefreshFailed)
      else
        var record :- Assemble(parsed, flow, resp, env.now);
        var artifact := ClientIdArtifact(parsed, flow, resp, region, env.digest);
        var snapshot := FetchUsage(env.usage(UsageRequest(resp.accessToken.value, region)));
        Ok(Output(FinalUsage(snapshot, Prop(parsed, EmailKey)), record, flow == BuilderId, artifact))
  }

  /**
   * Which failure ends a request, stage by stage: the flow selection's
   * refusal or TypeError, the exchange's own error unchanged, `RefreshFailed`
   * for a falsy exchanged token, the record's invalid date; past those, an
   * answer holding the assembled record.
   */
  lemma FailureEndsRequest(input: string, env: Services)
    ensures Accepted(input, env.decode).Some? && SelectFlow(Accepted(input, env.decode).value).Err? ==>
              Process(input, env) == Err(SelectFlow(Accepted(input, env.decode).value).error)
    ensures Accepted(input, env.decode).Some? && SelectFlow(Accepted(input, env.decode).value).Ok? ==>
              var parsed := Accepted(input, env.decode).value;
              var exchange := ExchangeFor(parsed, SelectFlow(parsed).value, Region(parsed), env);
              && (exchange.Err? ==> Process(input, env) == Err(exchange.error))
              && (exchange.Ok? && !Truthy(exchange.value.accessToken) ==> Process(input, env) == Err(RefreshFailed))
              && (exchange.Ok? && Truthy(exchange.value.accessToken) ==>
                    var record := Assemble(parsed, SelectFlow(parsed).value, exchange.value, env.now);
                    && (record.Err? ==> Process(input, env) == Err(record.error))
                    && (record.Ok? ==> Process(input, env).Ok? && Process(input, env).value.kiroToken == record.value))
  {
  }

  /**
   * A successful answer, assembled from its parts in the order of lines
   * 29-111: the accepted credential, the selected flow, that flow's exchange
   * with a truthy access token, and the record built from them; the usage
   * query is made with the exchanged token and the region.
   */
  lemma AnswerFromParts(input: string, env: Services, parsed: Object, flow: Flow,
                        resp: TokenExchange.Exchange, record: TokenRecord)
    requires Accepted(input, env.decode) == Some(parsed)
    requires SelectFlow(parsed) == Ok(flow)
    requires ExchangeFor(parsed, flow, Region(parsed), env) == Ok(resp)
    requires Truthy(resp.accessToken)
    requires Assemble(parsed, flow, resp, env.now) == Ok(record)
    ensures Process(input, env) ==
              Ok(Output(FinalUsage(FetchUsage(env.usage(UsageRequest(resp.accessToken.value, Region(parsed)))), Prop(parsed, EmailKey)),
                        record, flow == BuilderId, ClientIdArtifact(parsed, flow, resp, Region(parsed), env.digest)))
  {
  }

  /** Conversely, every answer comes from such parts, each of which succeeded. */
  lemma AnswerHasParts(input: string, env: Services)
    requires Process(input, env).Ok?
    ensures Accepted(input, env.decode).Some?
    ensures var parsed := Accepted(input, env.decode).value;
            && SelectFlow(parsed).Ok?
            && ExchangeFor(parsed, SelectFlow(parsed).value, Region(parsed), env).Ok?
            && Truthy(ExchangeFor(parsed, SelectFlow(parsed).value, Region(parsed), env).value.accessToken)
            && Assemble(parsed, SelectFlow(parsed).value, ExchangeFor(parsed, SelectFlow(parsed).value, Region(parsed), env).value, env.now).Ok?
  {
  }

  /** The same services, with every network endpoint replaced. */
  function Rewired(env: Services, social: SocialRequest -> SocialOutcome, oidc: OidcRequest -> OidcOutcome,
                   usage: UsageRequest -> UsageOutcome): Services {
    env.(social := social, oidc := oidc, usage := usage)
  }

  /**
   * A refusal for a missing refresh token or missing client credentials, and
   * a TypeError from a non-string provider, come before any exchange: the
   * answer is the same whatever the endpoints would have said.
   */
  lemma RefusedBeforeExchange(input: string, env: Services, social: SocialRequest -> SocialOutcome,
                              oidc: OidcRequest -> OidcOutcome, usage: UsageRequest -> UsageOutcome)
    requires Accepted(input, env.decode).None? || SelectFlow(Accepted(input, env.decode).value).Err?
    ensures Process(input, env).Err?
    ensures Process(input, env) == Process(input, Rewired(env, social, oidc, usage))
    ensures Process(input, env).error in {NoRefreshToken, MissingClientCredentials, TypeError}
  {
  }

  /**
   * A BuilderId refresh the OIDC endpoint refuses ends the request with that
   * refusal, its status and message intact, rather than with a 400 refusal.
   */
  lemma BuilderIdRefusalEndsRequest(input: string, env: Services)
    requires Accepted(input, env.decode).Some?
    requires SelectFlow(Accepted(input, env.decode).value) == Ok(BuilderId)
    requires var parsed := Accepted(input, env.decode).value;
             var o := env.oidc(OidcRequest(Region(parsed), parsed[RefreshTokenKey], parsed[ClientIdKey], parsed[ClientSecretKey]));
             o.OidcReply? && !IsOkStatus(o.status)
    ensures var parsed := Accepted(input, env.decode).value;
            var o := env.oidc(OidcRequest(Region(parsed), parsed[RefreshTokenKey], parsed[ClientIdKey], parsed[ClientSecretKey]));
            Process(input, env) == Err(UpstreamRejected(o.status, ErrorDetail(o.body, o.text)))
  {
  }

  /** A labelled or pipe input whose fragments carry no refresh token is refused, and nothing is exchanged. */
  lemma FragmentsWithoutTokenRefused(input: string, env: Services)
    requires ParseInput(input, env.decode).Some?
    requires !Truthy(Prop(ParseInput(input, env.decode).value, RefreshTokenKey))
    ensures Process(input, env) == Err(NoRefreshToken)
    ensures LabelledStrategy(input, env.decode) == ParseInput(input, env.decode)
            || PipeStrategy(input, env.decode) == ParseInput(input, env.decode)
  {
    MissingRefreshTokenComesFromFragments(input, env.decode, ParseInput(input, env.decode).value);
  }

  /** Missing client credentials are reported only when the provider names BuilderId. */
  lemma MissingCredentialsOnlyForBuilderIdProvider(input: string, env: Services)
    requires Process(input, env) == Err(MissingClientCredentials)
    ensures Accepted(input, env.decode).Some?
    ensures ProviderIsBuilderId(Accepted(input, env.decode).value)
    ensures !HasClientCredentials(Accepted(input, env.decode).value)
  {
  }

  /**
   * The social flow never reports a failed refresh: with a truthy refresh
   * token, one of its three tiers always yields a truthy access token. Only
   * the BuilderId flow can end in `RefreshFailed`.
   */
  lemma RefreshFailedOnlyForBuilderId(input: string, env: Services)
    requires Process(input, env) == Err(RefreshFailed)
    ensures Accepted(input, env.decode).Some?
    ensures SelectFlow(Accepted(input, env.decode).value) == Ok(BuilderId)
  {
  }

  /**
   * What every answer holds: the record's method follows the flow, both
   * tokens are truthy, the refresh token is the pasted one, and the client-id
   * file is present exactly for BuilderId.
   */
  lemma AnswerInvariants(input: string, env: Services)
    requires Process(input, env).Ok?
    ensures var out := Process(input, env).value;
            var parsed := Accepted(input, env.decode).value;
            && out.kiroToken.authMethod == (if out.isBuilderIdType then "builderid" else "social")
            && Truthy(Some(out.kiroToken.accessToken))
            && out.kiroToken.refreshToken == parsed[RefreshTokenKey]
            && Truthy(Some(out.kiroToken.refreshToken))
            && (out.clientIdHashFile.Some? <==> out.isBuilderIdType)
            && (out.isBuilderIdType ==> out.kiroToken.clientId == Some(parsed[ClientIdKey])
                                        && out.kiroToken.clientSecret == Some(parsed[ClientSecretKey]))
  {
  }

  /** The client-id file of a BuilderId answer is named after the digest of the pasted client id. */
  lemma ArtifactNamedAfterPastedClientId(input: string, env: Services)
    requires Process(input, env).Ok? && Process(input, env).value.isBuilderIdType
    ensures var parsed := Accepted(input, env.decode).value;
            var file := Process(input, env).value.clientIdHashFile.value;
            && file.clientId == parsed[ClientIdKey]
            && file.filename == DigestFilename(env.digest(parsed[ClientIdKey]))
            && file.region == Region(parsed)
  {
  }

  /** A failed usage query never fails the request: it only turns the usage into a placeholder. */
  lemma UsageFailureNotFatal(input: string, env: Services, usage: UsageRequest -> UsageOutcome)
    requires Process(input, env).Ok?
    requires forall q :: usage(q) == UsageUnreachable
    ensures Process(input, env.(usage := usage)).Ok?
    ensures Process(input, env.(usage := usage)).value.usage.Placeholder?
    ensures Process(input, env.(usage := usage)).value.kiroToken == Process(input, env).value.kiroToken
  {
    var parsed := Accepted(input, env.decode).value;
    var flow := SelectFlow(parsed).value;
    var resp := ExchangeFor(parsed, flow, Region(parsed), env).value;
    var record := Assemble(parsed, flow, resp, env.now).value;
    AnswerHasParts(input, env);
    AnswerFromParts(input, env, parsed, flow, resp, record);
    AnswerFromParts(input, env.(usage := usage), parsed, flow, resp, record);
  }

  /** The pasted text of the worked example, in the direct-JSON format, one member per piece. */
  const ExampleText := "{" + "\"refreshToken\":\"RT1\"," + "\"clientId\":\"cid\"," + "\"clientSecret\":\"sec\","
                       + "\"provider\":\"BuilderId\"" + "}"

  /** The credential of the worked example: a BuilderId account with both client credentials. */
  function ExampleCredential(): Object {
    map["refreshToken" := Str("RT1"), "clientId" := Str("cid"), "clientSecret" := Str("sec"), "provider" := Str("BuilderId")]
  }

  /** Text that is not a bare token, so the credential is taken from what it decodes to. */
  lemma ExampleAccepted(env: Services)
    requires env.decode(ExampleText) == Some(Obj(ExampleCredential()))
    ensures Accepted(ExampleText, env.decode) == Some(ExampleCredential())
  {
    assert ExampleText[0] == '{';
    assert !StartsWith(ExampleText, RefreshPrefix) by {
      assert ExampleText[..|RefreshPrefix|][0] != RefreshPrefix[0];
    }
    assert BareStrategy(ExampleText).None?;
    assert DirectJsonStrategy(ExampleText, env.decode) == Some(ExampleCredential());
  }

  /** The provider `BuilderId`, in any case, selects the BuilderId flow. */
  lemma ExampleFlow()
    ensures SelectFlow(ExampleCredential()) == Ok(BuilderId)
    ensures Region(ExampleCredential()) == Str(DefaultRegion)
  {
    assert LowerAscii("BuilderId") == BuilderIdName;
  }

  /**
   * A worked BuilderId example: the endpoint answers `AT1` valid for an hour,
   * the usage query fails, and the answer carries `AT1`, an expiry an hour
   * after `now`, the client id, and the `-` placeholder.
   */
  lemma BuilderIdExample(env: Services)
    requires -MaxTimeMs <= env.now + 3600 * 1000 <= MaxTimeMs
    requires env.decode(ExampleText) == Some(Obj(ExampleCredential()))
    requires forall q :: env.oidc(q) == OidcReply(200, "", Fields(OidcBody(Some("AT1"), Some(3600), None, None)))
    requires forall q :: env.usage(q) == UsageUnreachable
    ensures Process(ExampleText, env).Ok?
    ensures var out := Process(ExampleText, env).value;
            && out.isBuilderIdType
            && out.kiroToken.accessToken == Str("AT1")
            && out.kiroToken.refreshToken == Str("RT1")
            && out.kiroToken.provider == Str("BuilderId")
            && out.kiroToken.expiresAt == At(env.now + 3600 * 1000)
            && out.kiroToken.clientId == Some(Str("cid"))
            && out.kiroToken.profileArn == None
            && out.clientIdHashFile.Some?
            && out.clientIdHashFile.value.region == Str(DefaultRegion)
            && out.usage == Placeholder(NoFigure, NoFigure, NoFigure, Null, FailureNote)
  {
    var parsed := ExampleCredential();
    ExampleAccepted(env);
    ExampleFlow();
    var resp := Exchange(Some(Str("AT1")), Some(At(env.now + 3600 * 1000)), Some(3600), Some(Str("cid")), Some(Str("sec")));
    assert ExchangeFor(parsed, BuilderId, Str(DefaultRegion), env) == Ok(resp);
    var record := Assemble(parsed, BuilderId, resp, env.now).value;
    AnswerFromParts(ExampleText, env, parsed, BuilderId, resp, record);
  }
}
