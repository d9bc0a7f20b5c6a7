/**
 * The usage query (functions/api/process.js:236-296) and what the request
 * handler makes of its result (96-111): the first usage breakdown is reduced
 * to limit, used, remaining and an e-mail address; a failed query becomes a
 * placeholder, and the address pasted with the credential fills a missing one.
 */
module Usage {
  import opened Outcomes
  import opened JsValues

  /** The four quantities a breakdown and its free-trial block both carry. */
  datatype Quota = Quota(
    usageLimit: Option<real>,
    usageLimitWithPrecision: Option<real>,
    currentUsage: Option<real>,
    currentUsageWithPrecision: Option<real>)

  datatype FreeTrial = FreeTrial(freeTrialStatus: Option<string>, quota: Quota)

  datatype UserInfo = UserInfo(email: Option<string>)

  /** One entry of `usageBreakdownList`. */
  datatype Breakdown = Breakdown(
    quota: Quota,
    freeTrialInfo: Option<FreeTrial>,
    userInfo: Option<UserInfo>,
    email: Option<string>)

  /** The body of a `getUsageLimits` answer. */
  datatype UsageData = UsageData(
    usageBreakdownList: Option<seq<Breakdown>>,
    userInfo: Option<UserInfo>,
    email: Option<string>)

  /** What `normalizeUsage` returns; `email` is `None` for `null`. */
  datatype Snapshot = Snapshot(limit: real, used: real, remaining: real, email: Option<string>)

  /** The free-trial status that counts the trial's quota in. */
  const ActiveStatus := "ACTIVE"

  /** `a || b || 0` over two optional amounts. */
  function Amount(a: Option<real>, b: Option<real>): (r: real)
    ensures HasAmount(a) ==> r == a.value
    ensures !HasAmount(a) && HasAmount(b) ==> r == b.value
    ensures r != 0.0 <==> HasAmount(a) || HasAmount(b)
  {
    if HasAmount(a) then a.value else if HasAmount(b) then b.value else 0.0
  }

  /** The limit of a quota, the precise figure standing in for a missing or zero one. */
  function QuotaLimit(q: Quota): real {
    Amount(q.usageLimit, q.usageLimitWithPrecision)
  }

  /** The usage of a quota, the precise figure standing in for a missing or zero one. */
  function QuotaUsed(q: Quota): real {
    Amount(q.currentUsage, q.currentUsageWithPrecision)
  }

  /** `freeTrialInfo?.freeTrialStatus === "ACTIVE"`. */
  predicate TrialActive(ft: Option<FreeTrial>) {
    ft.Some? && ft.value.freeTrialStatus == Some(ActiveStatus)
  }

  /** `x?.email` for an optional user-info block. */
  function UserEmail(u: Option<UserInfo>): Option<string> {
    match u
    case Some(info) => info.email
    case None => None
  }

  /** `c0 || c1 || ... || null`: the first non-empty text among the candidates. */
  function FirstText(candidates: seq<Option<string>>): (r: Option<string>)
    ensures r.Some? <==> exists i :: 0 <= i < |candidates| && HasText(candidates[i])
    ensures r.Some? ==>
              exists i :: 0 <= i < |candidates| && candidates[i] == r && HasText(r)
                          && forall j :: 0 <= j < i ==> !HasText(candidates[j])
  {
    if |candidates| == 0 then None
    else if HasText(candidates[0]) then candidates[0]
    else
      var r := FirstText(candidates[1..]);
      assert forall i :: 1 <= i < |candidates| ==> candidates[i] == candidates[1..][i - 1];
      r
  }

  /** The four places an address may be found, in the order they are probed. */
  function EmailCandidates(data: UsageData, first: Breakdown): seq<Option<string>> {
    [UserEmail(data.userInfo), data.email, UserEmail(first.userInfo), first.email]
  }

  /**
   * `normalizeUsage`: `None` (`null`) without a first breakdown; otherwise the
   * base quota plus an active trial's quota, their difference, and the first
   * address found.
   */
  function NormalizeUsage(data: UsageData): (r: Option<Snapshot>)
    ensures r.Some? <==> data.usageBreakdownList.Some? && |data.usageBreakdownList.value| > 0
    ensures r.Some? ==> r.value.remaining == r.value.limit - r.value.used
    ensures r.Some? ==>
              var first := data.usageBreakdownList.value[0];
              && r.value.limit == QuotaLimit(first.quota)
                                  + (if TrialActive(first.freeTrialInfo) then QuotaLimit(first.freeTrialInfo.value.quota) else 0.0)
              && r.value.used == QuotaUsed(first.quota)
                                 + (if TrialActive(first.freeTrialInfo) then QuotaUsed(first.freeTrialInfo.value.quota) else 0.0)
              && r.value.email == FirstText(EmailCandidates(data, first))
  {
    match data.usageBreakdownList
    case None => None
    case Some(list) =>
      if |list| == 0 then None
      else
        var first := list[0];
        var trial := first.freeTrialInfo;
        var limit := QuotaLimit(first.quota) + (if TrialActive(trial) then QuotaLimit(trial.value.quota) else 0.0);
        var used := QuotaUsed(first.quota) + (if TrialActive(trial) then QuotaUsed(trial.value.quota) else 0.0);
        Some(Snapshot(limit, used, limit - used, FirstText(EmailCandidates(data, first))))
  }

  /** A breakdown list whose first entry is `b`, and nothing else. */
  function OnlyBreakdown(b: Breakdown): UsageData {
    UsageData(Some([b]), None, None)
  }

  /** A trial that is not ACTIVE, or absent, changes nothing. */
  lemma InactiveTrialIgnored(data: UsageData, first: Breakdown, rest: seq<Breakdown>)
    requires data.usageBreakdownList == Some([first] + rest)
    requires !TrialActive(first.freeTrialInfo)
    ensures NormalizeUsage(data) == NormalizeUsage(data.(usageBreakdownList := Some([first.(freeTrialInfo := None)] + rest)))
    ensures NormalizeUsage(data).value.limit == QuotaLimit(first.quota)
    ensures NormalizeUsage(data).value.used == QuotaUsed(first.quota)
  {
  }

  /** An ACTIVE trial adds its own limit and usage on top of the base quota. */
  lemma ActiveTrialAdds(data: UsageData, first: Breakdown, rest: seq<Breakdown>, trial: Quota)
    requires data.usageBreakdownList == Some([first] + rest)
    requires first.freeTrialInfo == Some(FreeTrial(Some(ActiveStatus), trial))
    ensures var base := NormalizeUsage(data.(usageBreakdownList := Some([first.(freeTrialInfo := None)] + rest))).value;
            var total := NormalizeUsage(data).value;
            && total.limit == base.limit + QuotaLimit(trial)
            && total.used == base.used + QuotaUsed(trial)
            && total.remaining == base.remaining + (QuotaLimit(trial) - QuotaUsed(trial))
            && total.email == base.email
  {
  }

  /** A zero `usageLimit` is falsy, so the precise figure is used instead. */
  lemma ZeroLimitFallsThrough(q: Quota, precise: real)
    requires q.usageLimit == Some(0.0) && q.usageLimitWithPrecision == Some(precise)
    ensures QuotaLimit(q) == precise
  {
  }

  /** Only the first breakdown counts. */
  lemma OnlyFirstBreakdownCounts(data: UsageData, first: Breakdown, rest1: seq<Breakdown>, rest2: seq<Breakdown>)
    requires data.usageBreakdownList == Some([first] + rest1)
    ensures NormalizeUsage(data) == NormalizeUsage(data.(usageBreakdownList := Some([first] + rest2)))
  {
  }

  /** Limit 10 and usage 3, with an ACTIVE trial of 5 and 1: 15 in all, 4 used, 11 left. */
  lemma ActiveTrialExample()
    ensures var trial := FreeTrial(Some(ActiveStatus), Quota(Some(5.0), None, Some(1.0), None));
            var b := Breakdown(Quota(Some(10.0), None, Some(3.0), None), Some(trial), None, None);
            NormalizeUsage(OnlyBreakdown(b)) == Some(Snapshot(15.0, 4.0, 11.0, None))
  {
  }

  /** `remaining` is not clamped: usage beyond the limit shows as a negative remainder. */
  lemma RemainingNotClamped(q: Quota)
    requires QuotaUsed(q) > QuotaLimit(q)
    ensures NormalizeUsage(OnlyBreakdown(Breakdown(q, None, None, None))).value.remaining < 0.0
  {
  }

  /** The account's own address takes precedence over the breakdown's. */
  lemma AccountEmailFirst(data: UsageData, first: Breakdown, rest: seq<Breakdown>)
    requires data.usageBreakdownList == Some([first] + rest)
    requires HasText(UserEmail(data.userInfo))
    ensures NormalizeUsage(data).value.email == UserEmail(data.userInfo)
  {
  }

  /* ------------------------- the usage query ------------------------- */

  /** The request to `https://q.<region>.amazonaws.com/getUsageLimits`, authorised by the access token. */
  datatype UsageRequest = UsageRequest(accessToken: Json, region: Json)

  datatype UsageOutcome =
    | UsageUnreachable                                    // `fetch` rejected
    | UsageReply(status: int, body: Option<UsageData>)    // `None`: the body is not a usage object

  /** `fetchUsageFromKiro`: every failure, whatever its kind, is `None`. */
  function FetchUsage(o: UsageOutcome): (r: Option<Snapshot>)
    ensures r.Some? ==> o.UsageReply? && IsOkStatus(o.status) && o.body.Some?
    ensures o.UsageReply? && IsOkStatus(o.status) && o.body.Some? ==> r == NormalizeUsage(o.body.value)
  {
    match o
    case UsageReply(status, Some(data)) => if IsOkStatus(status) then NormalizeUsage(data) else None
    case _ => None
  }

  /* ------------------------- the caller's view ------------------------- */

  /** The note shown when the usage query gave nothing: it may have failed because the token expired or lacks permission. */
  const FailureNote := "\U{7528}\U{91CF}\U{67E5}\U{8BE2}\U{5931}\U{8D25}\U{FF0C}\U{53EF}\U{80FD}\U{662F} Token \U{5DF2}\U{8FC7}\U{671F}\U{6216}\U{6743}\U{9650}\U{4E0D}\U{8DB3}"

  /** The text shown in place of each figure of a failed query. */
  const NoFigure := "-"

  /** `finalUsage`: measured figures, or a placeholder whose figures are all `NoFigure`. */
  datatype UsageReport =
    | Measured(limit: real, used: real, remaining: real, email: Json)
    | Placeholder(limitText: string, usedText: string, remainingText: string, email: Json, note: string)

  /** An address as the response shows it: the text, or `null`. */
  function EmailValue(e: Option<string>): Json {
    match e
    case Some(s) => Str(s)
    case None => Null
  }

  /**
   * Lines 97-111: a failed query becomes a placeholder carrying the pasted
   * address (or `null`); a successful one keeps its own address and takes
   * the pasted one only when it found none.
   */
  function FinalUsage(u: Option<Snapshot>, parsedEmail: Option<Json>): (r: UsageReport)
    ensures r.Placeholder? <==> u.None?
    ensures r.Placeholder? ==> r.limitText == NoFigure && r.usedText == NoFigure && r.remainingText == NoFigure
    ensures r.Placeholder? ==> r.note == FailureNote
    ensures r.Measured? ==> r.limit == u.value.limit && r.used == u.value.used && r.remaining == u.value.remaining
  {
    match u
    case None => Placeholder(NoFigure, NoFigure, NoFigure, Or(parsedEmail, Some(Null)).value, FailureNote)
    case Some(s) =>
      var own := EmailValue(s.email);
      var email := if !Truthy(Some(own)) && Truthy(parsedEmail) then parsedEmail.value else own;
      Measured(s.limit, s.used, s.remaining, email)
  }

  /** A truthy pasted address is never lost: the report always carries a truthy address then. */
  lemma PastedEmailNeverLost(u: Option<Snapshot>, parsedEmail: Option<Json>)
    requires Truthy(parsedEmail)
    ensures Truthy(Some(FinalUsage(u, parsedEmail).email))
  {
  }

  /**
   * Which address the report carries: the one the query found when it found
   * one; otherwise the pasted one when truthy; otherwise `null`.
   */
  lemma ReportedEmail(u: Option<Snapshot>, parsedEmail: Option<Json>)
    ensures u.Some? && HasText(u.value.email) ==> FinalUsage(u, parsedEmail).email == Str(u.value.email.value)
    ensures (u.None? || !HasText(u.value.email)) && Truthy(parsedEmail) ==> FinalUsage(u, parsedEmail).email == parsedEmail.value
    ensures (u.None? || u.value.email.None?) && !Truthy(parsedEmail) ==> FinalUsage(u, parsedEmail).email == Null
  {
  }

  /** An address found by `normalizeUsage` is never the empty text, so the caller keeps it. */
  lemma NormalizedEmailIsKept(data: UsageData, parsedEmail: Option<Json>)
    requires NormalizeUsage(data).Some? && NormalizeUsage(data).value.email.Some?
    ensures FinalUsage(NormalizeUsage(data), parsedEmail).email == Str(NormalizeUsage(data).value.email.value)
  {
  }
}
