/** Server actions of the dashboard (client/actions/dashboard.js): market
    insights from a completion reply, with a fixed fallback record, and the
    insights for the signed-in user's industry.  The completion for an
    industry's prompt is a parameter `complete`; `JSON.parse` is a parameter
    `parse` that yields an insights record or fails. */
module DashboardActions {
  import opened Wrappers
  import FenceCleaning

  datatype SalaryRange = SalaryRange(role: string, min: int, max: int, median: int, location: string)

  datatype Insights = Insights(
    salaryRanges: seq<SalaryRange>,
    growthRate: int,
    demandLevel: string,
    topSkills: seq<string>,
    marketOutlook: string,
    keyTrends: seq<string>,
    recommendedSkills: seq<string>)

  /** The user record the backend returns; `profile` and `industry` may be absent. */
  datatype Profile = Profile(industry: Option<string>, experience: Option<int>, bio: Option<string>, skills: seq<string>)
  datatype UserRecord = UserRecord(profile: Option<Profile>)

  const DefaultIndustry := "Technology"
  const InsightsError := "Failed to get industry insights"

  /** The record returned whenever the completion or its parse fails. */
  function Fallback(): (f: Insights)
    ensures |f.salaryRanges| == 5
    ensures forall i :: 0 <= i < |f.salaryRanges| ==>
      var range := f.salaryRanges[i];
      range.min <= range.median <= range.max && range.location == "US"
    ensures f.growthRate == 15 && f.demandLevel == "High" && f.marketOutlook == "Positive"
    ensures |f.topSkills| == 5 && |f.keyTrends| == 5 && |f.recommendedSkills| == 5
  {
    Insights(
      [ SalaryRange("Frontend Developer", 60000, 120000, 85000, "US"),
        SalaryRange("Backend Developer", 70000, 140000, 95000, "US"),
        SalaryRange("Full Stack Developer", 65000, 130000, 90000, "US"),
        SalaryRange("DevOps Engineer", 80000, 150000, 110000, "US"),
        SalaryRange("Data Scientist", 85000, 160000, 115000, "US") ],
      15,
      "High",
      ["JavaScript", "Python", "React", "Node.js", "AWS"],
      "Positive",
      ["AI Integration", "Cloud Computing", "Remote Work", "Microservices", "DevOps"],
      ["TypeScript", "Docker", "Kubernetes", "GraphQL", "Machine Learning"])
  }

  /** `generateAIInsights`: the parsed cleaned reply when both the call and
      the parse succeed, the fallback record otherwise.  It never fails. */
  function GenerateAIInsights(industry: string, complete: string -> Result<string>,
                              parse: string -> Option<Insights>): (r: Insights)
    ensures complete(industry).Ok? && parse(FenceCleaning.Clean(complete(industry).value)).Some? ==>
      r == parse(FenceCleaning.Clean(complete(industry).value)).value
    ensures complete(industry).Err? || parse(FenceCleaning.Clean(complete(industry).value)).None? ==>
      r == Fallback()
  {
    match complete(industry)
    case Err(_) => Fallback()
    case Ok(text) =>
      match parse(FenceCleaning.Clean(text))
      case Some(insights) => insights
      case None => Fallback()
  }

  /** A reply that wraps a record's JSON text in a `json` code fence yields
      exactly what that text parses to. */
  lemma FencedReplyInsights(industry: string, complete: string -> Result<string>,
                            parse: string -> Option<Insights>, body: string)
    requires complete(industry) == Ok("```json\n" + body + "\n```")
    requires FenceCleaning.NoBacktick(body) && FenceCleaning.Trimmed(body) && parse(body).Some?
    ensures GenerateAIInsights(industry, complete, parse) == parse(body).value
  {
    FenceCleaning.CleanFencedJson(body);
  }

  /** `user.profile?.industry`: absent when the profile or its industry is. */
  function IndustryOf(user: UserRecord): (industry: Option<string>)
    ensures industry.Some? <==> user.profile.Some? && user.profile.value.industry.Some?
    ensures industry.Some? ==> industry.value == user.profile.value.industry.value
  {
    match user.profile
    case Some(profile) => profile.industry
    case None => None
  }

  /** `user.profile?.industry || 'Technology'`: the profile's industry when
      it is a non-empty string, the default otherwise. */
  function InsightsIndustry(user: UserRecord): (industry: string)
    ensures industry != ""
    ensures IndustryOf(user).Some? && IndustryOf(user).value != "" ==> industry == IndustryOf(user).value
    ensures IndustryOf(user).None? || IndustryOf(user).value == "" ==> industry == DefaultIndustry
  {
    match IndustryOf(user)
    case Some(industry) => if industry != "" then industry else DefaultIndustry
    case None => DefaultIndustry
  }

  /** `getIndustryInsights`: a failed fetch, or a null user (whose `profile`
      cannot be read), becomes the one fixed error; otherwise the insights
      for the user's industry, which cannot fail. */
  function GetIndustryInsights(reply: Result<Option<UserRecord>>, complete: string -> Result<string>,
                               parse: string -> Option<Insights>): (r: Result<Insights>)
    ensures r.Ok? <==> reply.Ok? && reply.value.Some?
    ensures r.Ok? ==> r.value == GenerateAIInsights(InsightsIndustry(reply.value.value), complete, parse)
    ensures r.Err? ==> r.message == InsightsError
  {
    match reply
    case Ok(Some(user)) => Ok(GenerateAIInsights(InsightsIndustry(user), complete, parse))
    case _ => Err(InsightsError)
  }
}
