/** The quiz catalogue page (client/pages/quiz.js): the joint fetch of
    categories and statistics, the difficulty badge colours and the route
    into a category's quiz.  Replies are inputs; `None` inside a reply
    stands for a `null` body or field. */
module QuizPage {
  import opened Wrappers
  import opened Accounts
  import opened Navigation

  datatype Category = Category(name: string, icon: string, questionCount: int, difficulties: seq<string>)
  datatype CategoriesResponse = CategoriesResponse(categories: Option<seq<Category>>)
  datatype QuizStats = QuizStats(totalQuestions: Option<int>, averageScore: Option<int>, completedToday: Option<int>)

  /** The empty object `{}`. */
  const EmptyStats := QuizStats(None, None, None)

  class QuizCatalog {
    var categories: seq<Category>
    var quizStats: Option<QuizStats>
    var loading: bool

    constructor ()
      ensures categories == [] && quizStats.None? && loading
    {
      categories, quizStats, loading := [], None, true;
    }

    /** `fetchQuizData`: both requests must succeed (`Promise.all`); a
        missing list gives no categories and a null body `{}`; any failure
        gives no categories and `{}`; loading ends on every path. */
    method FetchQuizData(categoriesReply: Result<Option<CategoriesResponse>>,
                         statsReply: Result<Option<QuizStats>>)
      modifies this
      ensures !loading
      ensures categoriesReply.Ok? && statsReply.Ok? ==>
        && categories == (match categoriesReply.value
                          case Some(CategoriesResponse(Some(list))) => list
                          case _ => [])
        && quizStats == Some(statsReply.value.GetOr(EmptyStats))
      ensures categoriesReply.Err? || statsReply.Err? ==> categories == [] && quizStats == Some(EmptyStats)
    {
      if categoriesReply.Ok? && statsReply.Ok? {
        match categoriesReply.value {
          case Some(CategoriesResponse(Some(list))) => categories := list;
          case _ => categories := [];
        }
        quizStats := Some(statsReply.value.GetOr(EmptyStats));
      } else {
        categories := [];
        quizStats := Some(EmptyStats);
      }
      loading := false;
    }

    /** The mount effect: with no user, redirect to the login page and fetch
        nothing; otherwise fetch. */
    method Mount(user: Option<User>, categoriesReply: Result<Option<CategoriesResponse>>,
                 statsReply: Result<Option<QuizStats>>) returns (route: Option<Route>)
      modifies this
      ensures user.None? ==> route == Some(LoginRoute) && unchanged(this)
      ensures user.Some? ==> route.None? && !loading
      ensures user.Some? && categoriesReply.Ok? && statsReply.Ok? ==>
        && categories == (match categoriesReply.value
                          case Some(CategoriesResponse(Some(list))) => list
                          case _ => [])
        && quizStats == Some(statsReply.value.GetOr(EmptyStats))
      ensures user.Some? && (categoriesReply.Err? || statsReply.Err?) ==>
        categories == [] && quizStats == Some(EmptyStats)
    {
      if user.None? {
        return Some(LoginRoute);
      }
      route := None;
      FetchQuizData(categoriesReply, statsReply);
    }
  }

  /** `startQuiz(categoryName)`: the category's quiz page. */
  function StartQuizRoute(categoryName: string): (r: Route)
    ensures r.QuizRoute? && r.category == categoryName
  {
    QuizRoute(categoryName)
  }

  /** Lower-casing of one character; only the ASCII letters are mapped. */
  function LowerChar(c: char): char {
    if 'A' <= c <= 'Z' then (c as int - 'A' as int + 'a' as int) as char else c
  }

  /** `toLowerCase`, restricted to ASCII letters. */
  function ToLower(s: string): (r: string)
    ensures |r| == |s|
    ensures forall i :: 0 <= i < |s| ==> r[i] == LowerChar(s[i])
  {
    seq(|s|, i requires 0 <= i < |s| => LowerChar(s[i]))
  }

  /** `getDifficultyColor`. */
  function DifficultyColor(difficulty: string): string {
    match ToLower(difficulty)
    case "easy" => "bg-green-100 text-green-800"
    case "medium" => "bg-yellow-100 text-yellow-800"
    case "hard" => "bg-red-100 text-red-800"
    case _ => "bg-gray-100 text-gray-800"
  }

  /** Lower-casing twice is lower-casing once. */
  lemma ToLowerIdempotent(s: string)
    ensures ToLower(ToLower(s)) == ToLower(s)
  {
  }

  /** The colour ignores letter case: spellings that agree once lower-cased
      get the same colour. */
  lemma DifficultyColorIgnoresCase(a: string, b: string)
    requires ToLower(a) == ToLower(b)
    ensures DifficultyColor(a) == DifficultyColor(b)
  {
  }

  /** "Easy", "EASY" and "easy" are all green. */
  lemma EasyInAnyCase()
    ensures DifficultyColor("Easy") == DifficultyColor("EASY") == DifficultyColor("easy") == "bg-green-100 text-green-800"
  {
    assert ToLower("Easy") == "easy";
    assert ToLower("EASY") == "easy";
    assert ToLower("easy") == "easy";
  }

  /** Each known level has its own colour; everything else is gray. */
  lemma DifficultyColors(difficulty: string)
    ensures ToLower(difficulty) == "easy" ==> DifficultyColor(difficulty) == "bg-green-100 text-green-800"
    ensures ToLower(difficulty) == "medium" ==> DifficultyColor(difficulty) == "bg-yellow-100 text-yellow-800"
    ensures ToLower(difficulty) == "hard" ==> DifficultyColor(difficulty) == "bg-red-100 text-red-800"
    ensures ToLower(difficulty) !in {"easy", "medium", "hard"} ==>
      DifficultyColor(difficulty) == "bg-gray-100 text-gray-800"
  {
  }
}
