# Kiro credential ingestion, modelled in Dafny

The service takes a Kiro credential pasted by a user and turns it into the two files the Kiro client expects. The credential can be any of these:

- a bare refresh token;
- a JSON object;
- two labelled JSON fragments (`账号：{...}` and `登录token：{...}`);
- two JSON fragments separated by `|`.

The service parses the input and picks one of two flows:

- **BuilderId** refreshes the token at the AWS OIDC endpoint.
- **Social** reuses or refreshes the token through the Kiro auth service.

It then builds `kiro-auth-token.json`, and for BuilderId accounts a second file named after the SHA-1 of the client id. Finally it queries the account's usage limits and reports them.

This project models that request handler (`functions/api/process.js`) as pure functions over immutable datatypes.

- **Values and truthiness.** Values pasted by the user are a `Json` datatype. JavaScript truthiness (`Truthy`) and `||` (`Or`) are written out, so `0`, `""`, `null` and a missing key are all falsy.
- **Injected dependencies.** The clock, `JSON.parse`, the SHA-1 digest and the three HTTP endpoints are parameters.
  - Each endpoint is a total function from the request sent to the outcome received: unreachable, or a status with a decoded body.
  - A lemma that says "no request is made" therefore states that the answer does not depend on that function.
- **Failures.** A refusal or a thrown error is a `Failure`. The first three kinds are the handler's HTTP 400 answers; the others reach its catch-all and become HTTP 500.

Modules:

- `Outcomes`: `Option`, `Result` and `Failure`.
- `JsValues`: JSON values, truthiness, `||`, `trim`, object spread and merge.
- `InputParser`: `parseInput` and its four strategies.
  - The bare-token regex is a greedy matcher, proved equal to the pattern.
  - The labelled-fragment regex is a deterministic leftmost search, proved equal to the regex's match.
  - The pipe format uses `split`, with `split`/`join` round trips.
- `FlowSelector`: the default region, the flow choice and the client-credential guard.
- `TokenExchange`: `refreshSocialToken` and `refreshBuilderIdToken`.
- `TokenRecord`: the token record, `inferExpiresAt` and the client-id file.
- `HexEncoding`: the lower-case hex step of `sha1Hex`, with its inverse.
- `Usage`: `fetchUsageFromKiro`, `normalizeUsage` and the handler's placeholder and e-mail handling.
- `Pipeline`: the handler's body from parsing to the answer, and end-to-end properties.

Three behaviours of the code are easy to miss, and the model keeps them:

- **Pipe format.** The code splits at every `|` (process.js:324) and JSON-parses every piece, so a third piece that is not JSON makes the format fail. Only the first two pieces are merged.
- **Unparsable input.** There is no separate input-format error. The code answers "no refreshToken recognised" (process.js:30-32) both when no strategy succeeds and when the merged object lacks a truthy `refreshToken`. Both are `NoRefreshToken` here.
- **OIDC `null` body.** A 2xx OIDC answer whose body is the JSON literal `null` makes the code read a field of `null` (process.js:225-231). The result is a TypeError and HTTP 500, not the "refresh failed" answer. In the model, `NullBody` gives `TypeError`.

## Model

| member | source | states |
|---|---|---|
| JsValues.Or | functions/api/process.js:34 | the `or` operator's result is truthy exactly when one operand is; it is the first operand when that one is truthy and the second otherwise |
| JsValues.Trim | functions/api/process.js:324 | `trim` leaves a contiguous slice of the input, with only whitespace cut from before and after it and no whitespace at either end |
| JsValues.Spread | functions/api/process.js:317 | object spread copies an object's entries, an array's elements and a string's characters under the keys "0", "1", …, and nothing for null, booleans and numbers |
| JsValues.Merge | functions/api/process.js:325 | `{...a, ...b}` has every key of either, the second object's value on a shared key, the first's otherwise |
| InputParser.BareTokenMatchesPattern | functions/api/process.js:302 | the greedy recogniser accepts exactly the strings that `^aor[A-Za-z0-9_+-]{50,}:[A-Za-z0-9+/=]{50,}$` matches (for some position of the colon) |
| InputParser.FragmentAtSound | functions/api/process.js:314-315 | what the matcher captures at an index is a match of `label\s*(\{[^}]+\})` there |
| InputParser.FragmentAtComplete | functions/api/process.js:314-315 | every match of the fragment regex at an index is found there, with the same capture running from `{` to the first `}` |
| InputParser.FragmentAtMatches | functions/api/process.js:314-315 | at a fixed index the matcher succeeds with a capture exactly when the regex matches there with that capture |
| InputParser.FindFragmentNone | functions/api/process.js:314-315 | the search from an index fails exactly when no index from there on matches |
| InputParser.FindFragmentFirst | functions/api/process.js:314-315 | the first matching index is the one whose capture the search returns |
| InputParser.FindFragmentSome | functions/api/process.js:314-315 | a successful search returns the capture of a matching index with no match before it |
| InputParser.SearchYieldsLeftmostMatch | functions/api/process.js:314-315 | what `input.match` yields is the capture of the leftmost match of the regex |
| InputParser.LeftmostMatchIsFound | functions/api/process.js:314-315 | conversely, the leftmost match's capture is what `input.match` yields |
| InputParser.SearchFailsWithoutMatch | functions/api/process.js:314-316 | `input.match` gives nothing exactly when the regex matches nowhere |
| InputParser.Split | functions/api/process.js:324 | splitting at the pipe character gives at least one piece, no piece contains a pipe, and two or more pieces exactly when the input contains one |
| InputParser.JoinSplit | functions/api/process.js:324 | joining the pieces with the pipe character gives the input back |
| InputParser.SplitAfterPiece | functions/api/process.js:324 | a pipe-free piece followed by a pipe splits off as the first piece |
| InputParser.SplitJoin | functions/api/process.js:324 | splitting a join of separator-free pieces gives the pieces back |
| InputParser.SplitWithoutSeparator | functions/api/process.js:324 | text without a pipe splits into itself alone |
| InputParser.DecodeParts | functions/api/process.js:324 | mapping `JSON.parse(p.trim())` succeeds exactly when every trimmed piece decodes, giving one value per piece, in order |
| InputParser.BareStrategy | functions/api/process.js:302-304 | the bare-token format succeeds exactly when the input has the shape of the bare-token regex, and then gives `{refreshToken: input}` |
| InputParser.DirectJsonStrategy | functions/api/process.js:306-310 | the direct-JSON format succeeds exactly when the input decodes to an object with a truthy `refreshToken`, and then gives that object |
| InputParser.LabelledStrategy | functions/api/process.js:312-319 | the labelled format succeeds exactly when both labelled fragments are found and both decode; otherwise it falls through |
| InputParser.PipeStrategy | functions/api/process.js:321-327 | the pipe format succeeds exactly when the input contains a pipe and every piece decodes |
| InputParser.ParseInput | functions/api/process.js:300-330 | `parseInput` returns an object exactly when one of the four strategies succeeds, and the first that succeeds wins |
| InputParser.BareTokenShortCircuits | functions/api/process.js:300-304 | an input matching the bare-token pattern parses to exactly `{refreshToken: input}`, whatever JSON.parse would say |
| InputParser.MissingRefreshTokenComesFromFragments | functions/api/process.js:306-330 | a parsed object without a truthy `refreshToken` came from the labelled or the pipe format, never from a bare token or direct JSON |
| InputParser.LabelledMergeKeepsBoth | functions/api/process.js:312-319 | the labelled format's result holds every key of both fragments and the token fragment's value on a shared key |
| InputParser.PipeNeedsEveryPiece | functions/api/process.js:322-327 | the pipe format succeeds exactly when every trimmed piece decodes, not only the first two |
| InputParser.PipeMergeKeepsBoth | functions/api/process.js:322-327 | the pipe format's result holds every key of the first two pieces and the second piece's value on a shared key |
| FlowSelector.Region | functions/api/process.js:34 | the region is the parsed one when truthy and `us-east-1` otherwise, and always truthy |
| FlowSelector.LowerCaseMatchesSpelling | functions/api/process.js:36 | a text lower-cases to `builderid` exactly when it spells `builderid` in any mix of cases |
| FlowSelector.IsBuilderIdType | functions/api/process.js:35-37 | `isBuilderIdType` is true exactly when the provider lower-cases to `builderid` or both client credentials are truthy; a present non-null, non-string provider throws a TypeError |
| FlowSelector.SelectFlow | functions/api/process.js:35-44 | BuilderId exactly when `isBuilderIdType` holds and both credentials are truthy; Social exactly when it does not hold; a non-string provider's TypeError is passed on; `isBuilderIdType` without both credentials is the missing-credentials refusal, which happens only for a provider naming BuilderId |
| FlowSelector.FlowChoice | functions/api/process.js:35-44 | in terms of spelling: Social exactly when the provider does not spell `builderid` and the credentials are not both truthy; the refusal exactly when it does spell `builderid` and they are not |
| TokenExchange.Instant | functions/api/process.js:228 | a Date can be built exactly for instants within 8.64e15 ms of the epoch; otherwise the ISO conversion throws |
| TokenExchange.RemoteAccessToken | functions/api/process.js:176-184 | a token is taken from the refresh answer only when it is 2xx and decoded; it is then `accessToken` when non-empty, else `access_token` when non-empty, else none |
| TokenExchange.RefreshSocial | functions/api/process.js:151-196 | fails only with a TypeError for a truthy non-string access token; a truthy non-`aor` token is reused unchanged; otherwise the remote token with the reply's `expiresAt` and its `expiresIn` or `expires_in`, else the refresh token with no expiry; never client credentials |
| TokenExchange.SocialReuseMakesNoCall | functions/api/process.js:153-159 | a reusable access token is returned the same whatever the refresh endpoint would answer |
| TokenExchange.SocialFallback | functions/api/process.js:186-195 | without a reusable token and without a usable remote answer, the refresh token itself becomes the access token |
| TokenExchange.SocialAlwaysYieldsToken | functions/api/process.js:151-196 | with a truthy refresh token, the social flow always yields a truthy access token |
| TokenExchange.ErrorDetail | functions/api/process.js:222 | the refusal message is `error_description`, else `error`, else the raw text |
| TokenExchange.RefreshBuilderId | functions/api/process.js:198-232 | unreachable is a network error; non-2xx is an error with the status and message; a 2xx `null` body throws; any other 2xx answer succeeds unless a truthy `expires_in` gives an out-of-range instant, which is an invalid date; on success the token is `access_token`, `expiresIn` is `expires_in`, the expiry is `now + expires_in` seconds exactly when that is truthy, and the credentials are echoed |
| TokenExchange.BuilderIdRefusalHasNoToken | functions/api/process.js:221-223 | every non-2xx answer ends the request with the status it carried, and no token |
| TokenRecord.InferExpiresAt | functions/api/process.js:332-337 | `expiresIn` seconds from now when that is truthy, else one hour from now; it succeeds exactly when that instant is within 8.64e15 ms of the epoch, and otherwise is an invalid date |
| TokenRecord.ResolveExpiry | functions/api/process.js:69 | the exchange's own expiry when truthy, else the inferred one |
| TokenRecord.OptionalField | functions/api/process.js:70-72 | a conditionally spread field is present exactly when one of its sources is truthy, and then holds the first truthy one |
| TokenRecord.Assemble | functions/api/process.js:64-73 | the record carries the exchanged access token, the pasted refresh token, the flow's method, the provider or `Google`, the resolved expiry, and each optional field as above |
| TokenRecord.RecordFieldsAreTruthy | functions/api/process.js:64-73 | every field of the record is truthy; `clientId`/`clientSecret` are present exactly when truthy in the input or the exchange, the input taking precedence; `profileArn` exactly when truthy in the input |
| TokenRecord.ExpiryPrecedence | functions/api/process.js:69 | the expiry is the exchange's own, else now plus `expiresIn` seconds, else now plus 3 600 000 ms |
| TokenRecord.DigestFilename | functions/api/process.js:81 | the file name is the digest's lower-case hex text followed by `.json` |
| TokenRecord.DigestFilenameInjective | functions/api/process.js:81 | different digests never give the same file name |
| TokenRecord.Sha1FilenameLength | functions/api/process.js:339-343 | a 20-byte SHA-1 digest gives a 45-character file name |
| TokenRecord.ClientIdArtifact | functions/api/process.js:76-88 | the client-id file exists exactly for BuilderId with a truthy client id (input first, then exchange); it is named after that id's digest and carries the id, the secret and the region |
| TokenRecord.ArtifactNameDeterministic | functions/api/process.js:76-88 | the same client id always gives the same file name |
| HexEncoding.Hex | functions/api/process.js:342 | each byte becomes exactly two lower-case hex characters |
| HexEncoding.UnhexHex | functions/api/process.js:342 | reading the hex text back gives the digest |
| HexEncoding.HexUnhex | functions/api/process.js:342 | every text that reads back is the encoding of what it reads to |
| HexEncoding.HexInjective | functions/api/process.js:342 | different digests have different hex texts |
| Usage.Amount | functions/api/process.js:272-273 | `a`, else `b`, else 0 by truthiness: the first non-zero amount, and zero exactly when neither is a non-zero amount |
| Usage.FirstText | functions/api/process.js:282-286 | the first non-empty candidate, and `null` exactly when there is none |
| Usage.NormalizeUsage | functions/api/process.js:263-296 | `null` exactly without a first breakdown; otherwise base plus ACTIVE-trial limit and usage, `remaining = limit - used`, and the first address found in the four places |
| Usage.InactiveTrialIgnored | functions/api/process.js:276-279 | a trial that is not ACTIVE changes nothing: the figures are the base quota's |
| Usage.ActiveTrialAdds | functions/api/process.js:276-279 | an ACTIVE trial adds its limit and usage to the figures without one |
| Usage.ZeroLimitFallsThrough | functions/api/process.js:272 | a `usageLimit` of 0 is falsy, so `usageLimitWithPrecision` is used |
| Usage.OnlyFirstBreakdownCounts | functions/api/process.js:266-268 | entries after the first breakdown have no effect |
| Usage.ActiveTrialExample | functions/api/process.js:272-279 | 10/3 with an ACTIVE trial of 5/1 gives limit 15, used 4, remaining 11 |
| Usage.RemainingNotClamped | functions/api/process.js:293 | usage beyond the limit gives a negative remainder |
| Usage.AccountEmailFirst | functions/api/process.js:282 | the account's `userInfo.email`, when non-empty, is the address reported |
| Usage.FetchUsage | functions/api/process.js:236-261 | a snapshot only from a 2xx decoded answer, and then the normalised one; every failure is `null` |
| Usage.FinalUsage | functions/api/process.js:96-111 | a placeholder with `-` for limit, used and remaining and the fixed note exactly when the query gave nothing; otherwise the measured figures unchanged |
| Usage.PastedEmailNeverLost | functions/api/process.js:103-110 | a truthy pasted address always leaves the report with a truthy address |
| Usage.ReportedEmail | functions/api/process.js:103-110 | the query's address when it found one, else the pasted one when truthy, else `null`, whether the query failed or found no address |
| Usage.NormalizedEmailIsKept | functions/api/process.js:108-110 | an address found by `normalizeUsage` is never overwritten by the pasted one |
| Pipeline.Accepted | functions/api/process.js:29-32 | the input is accepted exactly when it parses to an object with a truthy `refreshToken` |
| Pipeline.ExchangeFor | functions/api/process.js:45-56 | the social exchange fails only with a TypeError for a non-string access token, keeps a reusable pasted access token, asks the endpoint with the pasted refresh token and `profileArn` and takes its token, else falls back to the pasted refresh token, and never returns client credentials; the BuilderId exchange sends the region, the pasted refresh token and both credentials, reports an unreachable or refusing endpoint, takes `access_token` from the answer, echoes the pasted credentials, and fails only with a network, upstream, TypeError or invalid-date error; each flow's whole result, expiry included, is that of its adapter called with the pasted values, the region and `now` |
| Pipeline.ExchangeConsultsOnlyItsEndpoint | functions/api/process.js:45-56 | the social exchange does not depend on the OIDC endpoint, and the BuilderId exchange does not depend on the social one |
| Pipeline.Process | functions/api/process.js:29-111 | an unaccepted input is refused with `NoRefreshToken`; an answer reports `isBuilderIdType` exactly when the BuilderId flow was selected |
| Pipeline.FailureEndsRequest | functions/api/process.js:29-125 | which failure ends a request: the flow selection's refusal or TypeError; the exchange's own error unchanged, reaching the catch-all; `RefreshFailed` for a falsy exchanged token; the record's invalid date; past those, an answer holding the assembled record |
| Pipeline.BuilderIdRefusalEndsRequest | functions/api/process.js:221-223 | the error thrown for an OIDC refusal of a BuilderId refresh ends the request unchanged, with its status and message, through the catch-all rather than as a 400 answer |
| Pipeline.AnswerFromParts | functions/api/process.js:29-111 | given an accepted credential, its selected flow, that flow's exchange with a truthy token and the record built from them, the answer is that record, the client-id file, `isBuilderIdType` for the flow, and the usage report from a query made with the exchanged token and the region |
| Pipeline.AnswerHasParts | functions/api/process.js:29-111 | every answer comes from an accepted credential whose flow selection, exchange, truthy access token and record assembly all succeeded |
| Pipeline.RefusedBeforeExchange | functions/api/process.js:29-44 | refusals for a missing token, missing credentials or a non-string provider are the same whatever the endpoints would say |
| Pipeline.FragmentsWithoutTokenRefused | functions/api/process.js:30-32 | labelled or pipe fragments without a truthy refresh token are refused with `NoRefreshToken` |
| Pipeline.MissingCredentialsOnlyForBuilderIdProvider | functions/api/process.js:41-44 | the missing-credentials refusal happens only when the provider lower-cases to `builderid` and a credential is falsy |
| Pipeline.RefreshFailedOnlyForBuilderId | functions/api/process.js:59-61 | the "refresh failed" refusal can only come from the BuilderId flow |
| Pipeline.AnswerInvariants | functions/api/process.js:64-88 | in every answer the method follows the flow, both tokens are truthy, the refresh token is the pasted one, and the client-id file exists exactly for BuilderId, whose record carries the pasted credentials |
| Pipeline.ArtifactNamedAfterPastedClientId | functions/api/process.js:76-88 | a BuilderId answer's client-id file holds the pasted client id, is named after its digest, and carries the region |
| Pipeline.UsageFailureNotFatal | functions/api/process.js:91-106 | an unreachable usage endpoint leaves the answer and its record unchanged, with a placeholder usage |
| Pipeline.BuilderIdExample | functions/api/process.js:29-111 | a BuilderId credential pasted as direct JSON and refreshed to `AT1` for 3600 s yields a record with `AT1`, an expiry one hour on, the client id, the default region and the `-` placeholder |

## Left out

- HTTP plumbing is not modelled: the OPTIONS and method checks, body decoding, the input's `toString().trim()`, the empty-input check, the catch-all's response body, `corsHeaders` and `json` (functions/api/process.js:1-27, 112-147). `Process` takes the trimmed input text. A `Failure` stands for the answer's status and error kind, not its message text.
- The `fetch` calls, their URLs, headers and request encodings are not modelled (163-174, 207-215, 238-245). Each endpoint is a parameter from a request datatype to an outcome.
- SHA-1 via `crypto.subtle` and the `TextEncoder` step are a parameter from the client-id value to its digest bytes (340-341). Only the hex step is modelled.
- `Date.now()` is the `now` parameter, in milliseconds. `toISOString` formatting is not modelled: computed expiries stay numeric (`At`), and a social `expiresAt` text is passed on unchanged (`Stamp`).
- `JSON.parse` is a parameter from text to an optional value, with `None` where it throws.
- Logging (`console.log`, `console.error`) has no effect on results and is not modelled.
- Amounts are exact reals rather than IEEE doubles. Rounding, NaN and infinities are not modelled.
- Upstream bodies are typed after each endpoint's schema. Not modelled: values of another JSON type in those fields (a numeric `access_token`, a string `expires_in`, a non-string `expiresAt`), and a `null` first entry of `usageBreakdownList`.
- JavaScript strings are UTF-16. Here a string is a sequence of code points, so spreading a string that contains characters outside the Basic Multilingual Plane gives fewer index keys than JavaScript would.
- The key order of objects is not modelled: an `Object` is a map.
- `toLowerCase` is modelled on ASCII letters only. The result is only compared with `builderid`, so the comparison is the same.
- `FindFragment` and the fragment matcher follow the regexes' leftmost-match semantics only for the two fixed labels. No general regex engine is modelled.
