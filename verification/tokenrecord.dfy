/**
 * Assembly of the portable token record (functions/api/process.js:64-73,
 * with `inferExpiresAt` at 332-337) and of the client-id file produced for
 * BuilderId accounts (76-88).
 */
module TokenRecord {
  import opened Outcomes
  import opened JsValues
  import opened FlowSelector
  import opened TokenExchange
  import opened HexEncoding
  import InputParser

  const ProfileArnKey := "profileArn"
  const DefaultProvider := "Google"

  /** The lifetime used when an exchange says nothing about expiry: one hour. */
  const DefaultLifetimeMs := 3600 * 1000

  /** The `authMethod` text of a flow. */
  function AuthMethod(flow: Flow): string {
    match flow
    case BuilderId => "builderid"
    case Social => "social"
  }

  /**
   * `kiro-auth-token.json`. An optional field is `None` when the source leaves
   * the key out altogether; when present it is always truthy.
   */
  datatype TokenRecord = TokenRecord(
    accessToken: Json,
    refreshToken: Json,
    authMethod: string,
    provider: Json,
    expiresAt: Expiry,
    clientId: Option<Json>,
    clientSecret: Option<Json>,
    profileArn: Option<Json>)

  /** `inferExpiresAt`: `expiresIn` seconds from now when truthy, else one hour from now. */
  function InferExpiresAt(resp: Exchange, now: int): (r: Result<Expiry>)
    ensures var ms := if HasCount(resp.expiresIn) then now + resp.expiresIn.value * 1000 else now + DefaultLifetimeMs;
            r.Ok? <==> -MaxTimeMs <= ms <= MaxTimeMs
    ensures r.Ok? ==> r.value.At?
    ensures r.Ok? && HasCount(resp.expiresIn) ==> r.value.ms == now + resp.expiresIn.value * 1000
    ensures r.Ok? && !HasCount(resp.expiresIn) ==> r.value.ms == now + DefaultLifetimeMs
    ensures r.Err? ==> r.error == InvalidDate
  {
    if HasCount(resp.expiresIn) then Instant(now + resp.expiresIn.value * 1000)
    else Instant(now + DefaultLifetimeMs)
  }

  /** `tokenResp.expiresAt || inferExpiresAt(tokenResp)`. */
  function ResolveExpiry(resp: Exchange, now: int): (r: Result<Expiry>)
    ensures HasExpiry(resp.expiresAt) ==> r == Ok(resp.expiresAt.value)
    ensures !HasExpiry(resp.expiresAt) ==> r == InferExpiresAt(resp, now)
  {
    if HasExpiry(resp.expiresAt) then Ok(resp.expiresAt.value) else InferExpiresAt(resp, now)
  }

  /** An optional record field: present, with the first truthy value, only when one of the two is truthy. */
  function OptionalField(first: Option<Json>, second: Option<Json>): (r: Option<Json>)
    ensures r.Some? <==> Truthy(first) || Truthy(second)
    ensures r.Some? ==> Truthy(r) && r == Or(first, second)
  {
    if Truthy(first) || Truthy(second) then Or(first, second) else None
  }

  /** The record of lines 64-73, built once the exchange has produced a truthy access token. */
  function Assemble(parsed: Object, flow: Flow, resp: Exchange, now: int): (r: Result<TokenRecord>)
    requires Truthy(Prop(parsed, InputParser.RefreshTokenKey))
    requires Truthy(resp.accessToken)
    ensures r.Err? <==> ResolveExpiry(resp, now).Err?
    ensures r.Ok? ==> r.value.expiresAt == ResolveExpiry(resp, now).value
    ensures r.Ok? ==> Some(r.value.accessToken) == resp.accessToken
    ensures r.Ok? ==> Some(r.value.refreshToken) == Prop(parsed, InputParser.RefreshTokenKey)
    ensures r.Ok? ==> r.value.authMethod == AuthMethod(flow)
    ensures r.Ok? ==> Some(r.value.provider) == Or(Prop(parsed, ProviderKey), Some(Str(DefaultProvider)))
    ensures r.Ok? ==> r.value.clientId == OptionalField(Prop(parsed, ClientIdKey), resp.clientId)
    ensures r.Ok? ==> r.value.clientSecret == OptionalField(Prop(parsed, ClientSecretKey), resp.clientSecret)
    ensures r.Ok? ==> r.value.profileArn == OptionalField(Prop(parsed, ProfileArnKey), None)
  {
    var expiresAt :- ResolveExpiry(resp, now);
    Ok(TokenRecord(
      accessToken := resp.accessToken.value,
      refreshToken := parsed[InputParser.RefreshTokenKey],
      authMethod := AuthMethod(flow),
      provider := Or(Prop(parsed, ProviderKey), Some(Str(DefaultProvider))).value,
      expiresAt := expiresAt,
      clientId := OptionalField(Prop(parsed, ClientIdKey), resp.clientId),
      clientSecret := OptionalField(Prop(parsed, ClientSecretKey), resp.clientSecret),
      profileArn := OptionalField(Prop(parsed, ProfileArnKey), None)))
  }

  /** Every field of an assembled record is truthy, and each optional one is present exactly when a source for it is. */
  lemma RecordFieldsAreTruthy(parsed: Object, flow: Flow, resp: Exchange, now: int)
    requires Truthy(Prop(parsed, InputParser.RefreshTokenKey))
    requires Truthy(resp.accessToken)
    requires Assemble(parsed, flow, resp, now).Ok?
    ensures var t := Assemble(parsed, flow, resp, now).value;
            && Truthy(Some(t.accessToken)) && Truthy(Some(t.refreshToken)) && Truthy(Some(t.provider))
            && (t.clientId.Some? <==> Truthy(Prop(parsed, ClientIdKey)) || Truthy(resp.clientId))
            && (t.clientSecret.Some? <==> Truthy(Prop(parsed, ClientSecretKey)) || Truthy(resp.clientSecret))
            && (t.profileArn.Some? <==> Truthy(Prop(parsed, ProfileArnKey)))
            && (t.clientId.Some? ==> Truthy(t.clientId))
            && (t.clientSecret.Some? ==> Truthy(t.clientSecret))
            && (t.profileArn.Some? ==> Truthy(t.profileArn))
            && (Truthy(Prop(parsed, ClientIdKey)) ==> t.clientId == Prop(parsed, ClientIdKey))
  {
  }

  /**
   * The expiry precedence: the exchange's own expiry; else `expiresIn`
   * seconds from now; else one hour from now.
   */
  lemma ExpiryPrecedence(resp: Exchange, now: int)
    requires -MaxTimeMs <= now + DefaultLifetimeMs <= MaxTimeMs
    requires HasCount(resp.expiresIn) ==> -MaxTimeMs <= now + resp.expiresIn.value * 1000 <= MaxTimeMs
    ensures ResolveExpiry(resp, now).Ok?
    ensures ResolveExpiry(resp, now).value ==
              if HasExpiry(resp.expiresAt) then resp.expiresAt.value
              else if HasCount(resp.expiresIn) then At(now + resp.expiresIn.value * 1000)
              else At(now + DefaultLifetimeMs)
  {
  }

  /* ------------------------- client-id file ------------------------- */

  /** The `clientIdHashFile` of lines 80-87. */
  datatype ClientIdFile = ClientIdFile(filename: string, clientId: Json, clientSecret: Option<Json>, region: Json)

  /** The name of the file for a digest: its hexadecimal text followed by `.json`. */
  function DigestFilename(digest: seq<byte>): (name: string)
    ensures |name| == 2 * |digest| + 5
    ensures Hex(digest) <= name
    ensures name[2 * |digest|..] == ".json"
  {
    Hex(digest) + ".json"
  }

  /** The file name determines the digest it was made from. */
  lemma DigestFilenameInjective(a: seq<byte>, b: seq<byte>)
    requires DigestFilename(a) == DigestFilename(b)
    ensures a == b
  {
    assert Hex(a) == DigestFilename(a)[..2 * |a|];
    assert Hex(b) == DigestFilename(b)[..2 * |b|];
    HexInjective(a, b);
  }

  /** A SHA-1 digest has 20 bytes, so its file name has 45 characters. */
  lemma Sha1FilenameLength(digest: seq<byte>)
    requires |digest| == 20
    ensures |DigestFilename(digest)| == 45
  {
  }

  /**
   * The client-id file: produced only for the BuilderId flow with a truthy
   * client id, named after the digest of that id; `digest` is SHA-1 of the
   * UTF-8 text of the value, supplied by the caller.
   */
  function ClientIdArtifact(parsed: Object, flow: Flow, resp: Exchange, region: Json,
                            digest: Json -> seq<byte>): (r: Option<ClientIdFile>)
    ensures r.Some? <==> flow == BuilderId && (Truthy(Prop(parsed, ClientIdKey)) || Truthy(resp.clientId))
    ensures r.Some? ==> Truthy(Some(r.value.clientId))
    ensures r.Some? ==> Some(r.value.clientId) == Or(Prop(parsed, ClientIdKey), resp.clientId)
    ensures r.Some? ==> r.value.filename == DigestFilename(digest(r.value.clientId))
    ensures r.Some? ==> r.value.clientSecret == Or(Prop(parsed, ClientSecretKey), resp.clientSecret)
    ensures r.Some? ==> r.value.region == region
  {
    if flow == BuilderId && (Truthy(Prop(parsed, ClientIdKey)) || Truthy(resp.clientId)) then
      var clientId := Or(Prop(parsed, ClientIdKey), resp.clientId).value;
      Some(ClientIdFile(
        filename := DigestFilename(digest(clientId)),
        clientId := clientId,
        clientSecret := Or(Prop(parsed, ClientSecretKey), resp.clientSecret),
        region := region))
    else None
  }

  /**
   * Two requests with the same client id get the same file name, and two
   * different file names come from different digests.
   */
  lemma ArtifactNameDeterministic(p1: Object, p2: Object, r1: Exchange, r2: Exchange, region1: Json, region2: Json,
                                  digest: Json -> seq<byte>)
    requires ClientIdArtifact(p1, BuilderId, r1, region1, digest).Some?
    requires ClientIdArtifact(p2, BuilderId, r2, region2, digest).Some?
    requires ClientIdArtifact(p1, BuilderId, r1, region1, digest).value.clientId
             == ClientIdArtifact(p2, BuilderId, r2, region2, digest).value.clientId
    ensures ClientIdArtifact(p1, BuilderId, r1, region1, digest).value.filename
            == ClientIdArtifact(p2, BuilderId, r2, region2, digest).value.filename
  {
  }
}
