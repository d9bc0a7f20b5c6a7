/**
 * Region default, choice between the BuilderId and social flows, and the
 * client-credential guard of the BuilderId flow
 * (functions/api/process.js:34-44).
 */
module FlowSelector {
  import opened Outcomes
  import opened JsValues

  datatype Flow = BuilderId | Social

  const RegionKey := "region"
  const ProviderKey := "provider"
  const ClientIdKey := "clientId"
  const ClientSecretKey := "clientSecret"

  const DefaultRegion := "us-east-1"

  /** The provider name that selects the BuilderId flow, compared after lower-casing. */
  const BuilderIdName := "builderid"

  /** `parsed.region || "us-east-1"`. */
  function Region(parsed: Object): (r: Json)
    ensures Truthy(Some(r))
    ensures Truthy(Prop(parsed, RegionKey)) ==> r == parsed[RegionKey]
    ensures !Truthy(Prop(parsed, RegionKey)) ==> r == Str(DefaultRegion)
  {
    Or(Prop(parsed, RegionKey), Some(Str(DefaultRegion))).value
  }

  /** Case-insensitive equality with `builderid`, letter by letter. */
  ghost predicate SpellsBuilderId(s: string) {
    && |s| == |BuilderIdName|
    && forall i :: 0 <= i < |s| ==> s[i] == BuilderIdName[i] || s[i] == "BUILDERID"[i]
  }

  /** Lower-casing gives `builderid` exactly for the case-insensitive spellings of it. */
  lemma LowerCaseMatchesSpelling(s: string)
    ensures LowerAscii(s) == BuilderIdName <==> SpellsBuilderId(s)
  {
    var upper := "BUILDERID";
    if LowerAscii(s) == BuilderIdName {
      forall i | 0 <= i < |s|
        ensures s[i] == BuilderIdName[i] || s[i] == upper[i]
      {
        assert AsciiLower(s[i]) == BuilderIdName[i];
      }
    }
    if SpellsBuilderId(s) {
      forall i | 0 <= i < |s|
        ensures LowerAscii(s)[i] == BuilderIdName[i]
      {
        assert AsciiLower(upper[i]) == BuilderIdName[i];
      }
    }
  }

  /** `parsed.provider?.toLowerCase() === "builderid"` holds. */
  predicate ProviderIsBuilderId(parsed: Object) {
    match Prop(parsed, ProviderKey)
    case Some(Str(s)) => LowerAscii(s) == BuilderIdName
    case _ => false
  }

  /**
   * `parsed.provider?.toLowerCase()` throws: the provider is present, not
   * `null`, and not a string, so it has no `toLowerCase` method.
   */
  predicate ProviderNotLowerCasable(parsed: Object) {
    match Prop(parsed, ProviderKey)
    case None => false
    case Some(Null) => false
    case Some(Str(_)) => false
    case Some(_) => true
  }

  /** Both client credentials are truthy. */
  predicate HasClientCredentials(parsed: Object) {
    Truthy(Prop(parsed, ClientIdKey)) && Truthy(Prop(parsed, ClientSecretKey))
  }

  /** `isBuilderIdType` (lines 35-37), or the TypeError evaluating it raises. */
  function IsBuilderIdType(parsed: Object): (r: Result<bool>)
    ensures r.Err? <==> ProviderNotLowerCasable(parsed)
    ensures r.Err? ==> r.error == TypeError
    ensures r == Ok(true) <==> !ProviderNotLowerCasable(parsed) && (ProviderIsBuilderId(parsed) || HasClientCredentials(parsed))
  {
    match Prop(parsed, ProviderKey)
    case None => Ok(HasClientCredentials(parsed))
    case Some(Null) => Ok(HasClientCredentials(parsed))
    case Some(Str(s)) => Ok(LowerAscii(s) == BuilderIdName || HasClientCredentials(parsed))
    case Some(_) => Err(TypeError)
  }

  /**
   * The flow that handles the request, after the guard of lines 41-44: a
   * BuilderId flow without both client credentials is refused before any
   * exchange.
   */
  function SelectFlow(parsed: Object): (r: Result<Flow>)
    ensures r.Ok? <==> IsBuilderIdType(parsed).Ok? && (IsBuilderIdType(parsed).value ==> HasClientCredentials(parsed))
    ensures r == Ok(BuilderId) <==> IsBuilderIdType(parsed) == Ok(true) && HasClientCredentials(parsed)
    ensures r == Ok(Social) <==> IsBuilderIdType(parsed) == Ok(false)
    ensures r == Err(MissingClientCredentials) ==> ProviderIsBuilderId(parsed)
    ensures IsBuilderIdType(parsed).Err? ==> r == Err(TypeError)
    ensures IsBuilderIdType(parsed) == Ok(true) && !HasClientCredentials(parsed) ==> r == Err(MissingClientCredentials)
  {
    var isBuilderId :- IsBuilderIdType(parsed);
    if !isBuilderId then Ok(Social)
    else if !HasClientCredentials(parsed) then Err(MissingClientCredentials)
    else Ok(BuilderId)
  }

  /**
   * The flow choice in terms of spelling: BuilderId exactly when the
   * provider is spelt `builderid` in any case, or both client credentials are
   * truthy; the missing-credentials refusal happens only for an explicit
   * BuilderId provider.
   */
  lemma FlowChoice(parsed: Object)
    requires !ProviderNotLowerCasable(parsed)
    ensures SelectFlow(parsed) == Ok(Social) <==>
              !HasClientCredentials(parsed)
              && !(Prop(parsed, ProviderKey).Some? && Prop(parsed, ProviderKey).value.Str?
                   && SpellsBuilderId(Prop(parsed, ProviderKey).value.s))
    ensures SelectFlow(parsed) == Err(MissingClientCredentials) <==>
              && Prop(parsed, ProviderKey).Some? && Prop(parsed, ProviderKey).value.Str?
              && SpellsBuilderId(Prop(parsed, ProviderKey).value.s)
              && !HasClientCredentials(parsed)
  {
    if Prop(parsed, ProviderKey).Some? && Prop(parsed, ProviderKey).value.Str? {
      LowerCaseMatchesSpelling(Prop(parsed, ProviderKey).value.s);
    }
  }
}
