/** The dashboard page (client/pages/dashboard.js): the two fetches run on
    mount and the values derived from their data.  The backend replies are
    inputs; `None` inside a reply stands for a `null` or missing body or
    object field, and a numeric statistic tells `undefined`, `null` and a
    number apart, since JavaScript adds them differently. */
module DashboardPage {
  import opened Wrappers
  import opened Accounts
  import opened Navigation

  /** A numeric field of a reply: missing (`undefined`), `null`, or a number. */
  datatype JsNumber = Undefined | Null | Number(value: int)

  datatype Stats = Stats(
    totalQuizzes: JsNumber, resumeScore: JsNumber, averageInterviewScore: JsNumber,
    skillsCount: JsNumber)

  datatype QuizOverview = QuizOverview(categories: Option<seq<string>>, totalQuestions: Option<int>)

  datatype DashboardData = DashboardData(stats: Option<Stats>, quizOverview: Option<QuizOverview>)

  /** The empty object `{}`. */
  const EmptyDashboard := DashboardData(None, None)
  const EmptyStats := Stats(Undefined, Undefined, Undefined, Undefined)

  datatype Skill = Skill(skill: string, demand: int)
  datatype SkillsResponse = SkillsResponse(skills: Option<seq<Skill>>)

  /** Quizzes that make up the progress goal of the pie chart. */
  const QuizGoal := 50

  /** At most `n` leading elements of `s`, in order: `s.slice(0, n)`. */
  function Take<T>(s: seq<T>, n: nat): (r: seq<T>)
    ensures |r| == if |s| < n then |s| else n
    ensures r == s[..|r|]
  {
    if |s| <= n then s else s[..n]
  }

  /** `response.data?.skills?.slice(0, 8) || []`: the first eight skills,
      or none when the body or its list is missing. */
  function TopSkills(body: Option<SkillsResponse>): (r: seq<Skill>)
    ensures |r| <= 8
    ensures body.Some? && body.value.skills.Some? ==> r == Take(body.value.skills.value, 8)
    ensures body.None? || body.value.skills.None? ==> r == []
  {
    match body
    case Some(SkillsResponse(Some(skills))) => Take(skills, 8)
    case _ => []
  }

  class Dashboard {
    var dashboardData: Option<DashboardData>
    var skillsData: seq<Skill>
    var loading: bool

    constructor ()
      ensures dashboardData.None? && skillsData == [] && loading
    {
      dashboardData, skillsData, loading := None, [], true;
    }

    /** `fetchDashboardData`: the body, `{}` for a null body or a failure.
        It does not touch `loading`. */
    method FetchDashboardData(reply: Result<Option<DashboardData>>)
      modifies this`dashboardData
      ensures dashboardData == Some(if reply.Ok? && reply.value.Some? then reply.value.value else EmptyDashboard)
    {
      match reply {
        case Ok(Some(data)) => dashboardData := Some(data);
        case _ => dashboardData := Some(EmptyDashboard);
      }
    }

    /** `fetchSkillsData`: the first eight skills, none on failure; loading
        ends as this fetch settles, on either path. */
    method FetchSkillsData(reply: Result<Option<SkillsResponse>>)
      modifies this`skillsData, this`loading
      ensures skillsData == if reply.Ok? then TopSkills(reply.value) else []
      ensures |skillsData| <= 8 && !loading
    {
      if reply.Ok? {
        skillsData := TopSkills(reply.value);
      } else {
        skillsData := [];
      }
      loading := false;
    }

    /** The mount effect: with no user, redirect to the login page and fetch
        nothing; otherwise run both fetches. */
    method Mount(user: Option<User>, dashboardReply: Result<Option<DashboardData>>,
                 skillsReply: Result<Option<SkillsResponse>>) returns (route: Option<Route>)
      modifies this
      ensures user.None? ==> route == Some(LoginRoute) && unchanged(this)
      ensures user.Some? ==>
        && route.None?
        && dashboardData == Some(if dashboardReply.Ok? && dashboardReply.value.Some?
                                 then dashboardReply.value.value else EmptyDashboard)
        && skillsData == (if skillsReply.Ok? then TopSkills(skillsReply.value) else [])
        && !loading
    {
      if user.None? {
        return Some(LoginRoute);
      }
      route := None;
      FetchDashboardData(dashboardReply);
      FetchSkillsData(skillsReply);
    }
  }

  /** `dashboardData?.stats || {}`. */
  function StatsOf(data: Option<DashboardData>): Stats {
    match data
    case Some(DashboardData(Some(stats), _)) => stats
    case _ => EmptyStats
  }

  /** `x || 0`: a missing or `null` number shows as 0. */
  function OrZero(x: JsNumber): int {
    if x.Number? then x.value else 0
  }

  /** The number `+` takes a defined operand for: `null` adds as 0. */
  function AddendValue(x: JsNumber): int
    requires !x.Undefined?
  {
    if x.Number? then x.value else 0
  }

  datatype PieData = PieData(completed: int, remaining: int)

  /** The completed/remaining slices of the progress pie. */
  function PieDataOf(stats: Stats): (r: PieData)
    ensures r.remaining >= 0
    ensures r.completed == OrZero(stats.totalQuizzes)
  {
    var completed := OrZero(stats.totalQuizzes);
    PieData(completed, if QuizGoal - completed > 0 then QuizGoal - completed else 0)
  }

  /** Up to the goal the two slices add up to it; beyond it nothing remains;
      missing data counts as no quiz taken. */
  lemma PieDataSumsToGoal(stats: Stats)
    ensures var r := PieDataOf(stats);
      && (r.completed <= QuizGoal ==> r.completed + r.remaining == QuizGoal)
      && (r.completed >= QuizGoal ==> r.remaining == 0)
      && (!stats.totalQuizzes.Number? ==> r == PieData(0, QuizGoal))
  {
  }

  /** `Math.round((resumeScore + averageInterviewScore) / 2) || 0`: a missing
      score makes the sum NaN, shown as 0; a `null` score adds as 0. */
  function CareerScore(stats: Stats): (r: int)
    ensures stats.resumeScore.Undefined? || stats.averageInterviewScore.Undefined? ==> r == 0
    // otherwise the mean rounded half up: sum / 2 - 1/2 < r <= sum / 2 + 1/2
    ensures !stats.resumeScore.Undefined? && !stats.averageInterviewScore.Undefined? ==>
      var sum := AddendValue(stats.resumeScore) + AddendValue(stats.averageInterviewScore);
      sum <= 2 * r <= sum + 1
  {
    if stats.resumeScore.Undefined? || stats.averageInterviewScore.Undefined? then 0
    else (AddendValue(stats.resumeScore) + AddendValue(stats.averageInterviewScore) + 1) / 2
  }

  /** A score that is `null` or a number in [0, 100]. */
  predicate PercentOrNull(x: JsNumber) {
    x.Null? || (x.Number? && 0 <= x.value <= 100)
  }

  /** Two scores, each `null` or in [0, 100], give a career score in [0, 100]. */
  lemma CareerScoreInRange(stats: Stats)
    requires PercentOrNull(stats.resumeScore) && PercentOrNull(stats.averageInterviewScore)
    ensures 0 <= CareerScore(stats) <= 100
  {
  }

  /** A user with no interview average yet: a resume score of 70 and a `null`
      average show 35, while a missing average shows 0. */
  lemma NullAverageCountsAsZero()
    ensures CareerScore(Stats(Undefined, Number(70), Null, Undefined)) == 35
    ensures CareerScore(Stats(Undefined, Number(70), Undefined, Undefined)) == 0
  {
  }

  /** The categories the icon switch knows, and their icons. */
  const KnownCategories: seq<string> := ["JavaScript", "React", "Python", "Node.js", "DSA", "MongoDB", "AI"]
  const KnownIcons: seq<string> :=
    ["\U{1F7E8}", "\U{269B}\U{FE0F}", "\U{1F40D}", "\U{1F7E2}", "\U{1F9EE}", "\U{1F343}", "\U{1F916}"]
  const DefaultIcon := "\U{1F4DA}"

  /** The icons a category tile renders: each `category === name && icon`
      clause renders its icon when it holds, the last clause renders the
      default when no name matches. */
  function RenderedIcons(category: string): seq<string> {
    (if category == "JavaScript" then [KnownIcons[0]] else [])
    + (if category == "React" then [KnownIcons[1]] else [])
    + (if category == "Python" then [KnownIcons[2]] else [])
    + (if category == "Node.js" then [KnownIcons[3]] else [])
    + (if category == "DSA" then [KnownIcons[4]] else [])
    + (if category == "MongoDB" then [KnownIcons[5]] else [])
    + (if category == "AI" then [KnownIcons[6]] else [])
    + (if category !in KnownCategories then [DefaultIcon] else [])
  }

  /** Every tile shows exactly one icon: a known category its own, any
      other category the book. */
  lemma OneIconPerCategory(category: string)
    ensures |RenderedIcons(category)| == 1
    ensures forall i :: 0 <= i < |KnownCategories| && category == KnownCategories[i] ==>
      RenderedIcons(category) == [KnownIcons[i]]
    ensures category !in KnownCategories ==> RenderedIcons(category) == [DefaultIcon]
  {
  }

  /** Different known categories get different icons, and none gets the default. */
  lemma KnownIconsDistinct(i: int, j: int)
    requires 0 <= i < |KnownIcons| && 0 <= j < |KnownIcons| && i != j
    ensures KnownIcons[i] != KnownIcons[j] && KnownIcons[i] != DefaultIcon
  {
  }

  /** The quick-quiz grid: the first six categories. */
  function QuickQuizCategories(data: Option<DashboardData>): (r: seq<string>)
    ensures |r| <= 6
    ensures r == if QuizCategoriesOf(data).Some? then Take(QuizCategoriesOf(data).value, 6) else []
  {
    match data
    case Some(DashboardData(_, Some(QuizOverview(Some(categories), _)))) => Take(categories, 6)
    case _ => []
  }

  /** `dashboardData?.quizOverview?.categories`. */
  function QuizCategoriesOf(data: Option<DashboardData>): Option<seq<string>> {
    match data
    case Some(DashboardData(_, Some(overview))) => overview.categories
    case _ => None
  }
}
