# AI career coach: a Dafny model of the client core

This project models the client of an AI career-coach web application. The
application is a Next.js front end and a set of server actions. It offers:

- a timed interview-practice quiz;
- grading of generated quizzes;
- market insights produced by a hosted language model, with a fixed fallback;
- a resume-analysis upload;
- a dashboard of derived statistics;
- a quiz catalogue, a cover-letter generator and a login form.

The model follows the code one source file at a time:

- **React pages that update their state step by step become classes.** Their
  fields are the page's `useState` hooks and their methods are the handlers.
  The interview page's methods are each proved against a pure step function
  over a `Session` value. The lemmas about those steps state the countdown,
  submission and navigation properties.
- **Server actions and derived values become functions and lemmas.** The
  reply-cleaning rule both AI actions share (delete every
  ```` ```(?:json)?\n? ```` match, then `trim`) is one function, `FenceCleaning.Clean`.
- **Network calls, completions and `JSON.parse` are inputs.** A backend reply
  or a completion is a `Result` value. `JSON.parse` is a function parameter
  that yields the expected shape or fails. A `None` inside a reply stands for
  a `null` body or a missing field.
- **Timers are explicit steps.** A `Tick` is the one-second timeout firing.
  `DelayElapsed` is the cover letter's two-second timeout firing.

Files:

| file | models |
|---|---|
| `wrappers.dfy` | `Option`/`Result`, the signed-in `User` (module `Accounts`) and the navigation `Route` |
| `fence_cleaning.dfy` | the code-fence removal and `trim` applied to completion replies |
| `interview_actions.dfy` | `generateQuiz`, `saveQuizResult`, `getAssessments` |
| `dashboard_actions.dfy` | `generateAIInsights` with its fallback, `getIndustryInsights` |
| `user_actions.dfy` | `updateUser`, `getUserOnboardingStatus` |
| `utils.dfy` | `calculatePercentage` |
| `interview_page.dfy` | the interview practice page |
| `resume_page.dfy` | the resume upload page |
| `dashboard_page.dfy` | the dashboard page |
| `quiz_page.dfy` | the quiz catalogue page |
| `cover_letter_page.dfy` | the cover-letter page |
| `login_page.dfy` | the login page |

## Model

| member | source | states |
|---|---|---|
| FenceCleaning.Trim | client/actions/interview.js:35 | `trim` keeps one contiguous slice of its input, neither end of which is white space, and everything it removes before and after is ECMAScript white space |
| FenceCleaning.StripFencesHasNoFence | client/actions/interview.js:35 | after the global replacement no three consecutive backticks remain anywhere |
| FenceCleaning.CleanRemovesEveryFence | client/actions/dashboard.js:36 | whatever the reply, the cleaned text holds no code-fence marker |
| FenceCleaning.StripFencesAfterPlainPrefix | client/actions/interview.js:35 | text without backticks passes through the replacement unchanged, whatever follows it |
| FenceCleaning.CleanWithoutBacktick | client/actions/interview.js:35 | text with no backtick is only trimmed |
| FenceCleaning.TrimLineFeedSuffix | client/actions/interview.js:35 | a trailing line feed after trimmed text is all that `trim` removes |
| FenceCleaning.CleanFencedJson | client/actions/interview.js:35 | a reply of the form "```json\n" + B + "\n```" cleans to exactly B when B has no backtick and no surrounding white space |
| FenceCleaning.CleanTwice | client/actions/dashboard.js:36 | cleaning a cleaned reply with no backtick left changes nothing |
| FenceCleaning.TrimOfTrimmed | client/actions/interview.js:35 | `trim` leaves text without surrounding white space unchanged |
| InterviewActions.GenerateQuiz | client/actions/interview.js:27-43 | the questions are what the cleaned reply parses to; a failed completion or parse gives exactly the error "Failed to generate quiz questions" |
| InterviewActions.FencedReplyQuiz | client/actions/interview.js:34-38 | a reply wrapping the questions' JSON in a json code fence yields exactly what that JSON parses to |
| InterviewActions.GradeQuestions | client/actions/interview.js:47-53 | one result per question in question order, carrying its question, expected answer, explanation and the user's answer i; isCorrect holds iff answer i equals the expected answer |
| InterviewActions.WrongAnswers | client/actions/interview.js:55 | an entry is kept iff it is an entry marked incorrect; kept and correct entries together number all entries |
| InterviewActions.WrongAnswersOfConcat | client/actions/interview.js:55 | the filter distributes over concatenation, so it keeps the original order |
| InterviewActions.NoWrongAnswersIffAllCorrect | client/actions/interview.js:47-58 | the wrong-answer list is empty iff every question received its expected answer |
| InterviewActions.SaveQuizResult | client/actions/interview.js:45-86 | a tip is requested iff some answer is wrong; the posted payload carries the graded results, the caller's score unchanged, category "Technical" and the trimmed tip or null; any failure becomes "Failed to save quiz result" |
| InterviewActions.GetAssessments | client/actions/interview.js:88-96 | the backend's data on success, otherwise exactly "Failed to fetch assessments" |
| DashboardActions.Fallback | client/actions/dashboard.js:39-56 | five salary ranges, each with min at most median at most max and location "US"; growth 15, demand "High", outlook "Positive"; five skills, trends and recommended skills |
| DashboardActions.GenerateAIInsights | client/actions/dashboard.js:8-57 | the parsed cleaned reply when the call and the parse both succeed, the fallback record when either fails; it never fails |
| DashboardActions.FencedReplyInsights | client/actions/dashboard.js:35-38 | a reply wrapping a record's JSON in a json code fence yields exactly what that JSON parses to |
| DashboardActions.IndustryOf | client/actions/dashboard.js:64 | the industry is present iff the profile and its industry are, and then it is the profile's industry |
| DashboardActions.InsightsIndustry | client/actions/dashboard.js:64 | the profile's industry when it is a non-empty string, "Technology" otherwise; never empty |
| DashboardActions.GetIndustryInsights | client/actions/dashboard.js:59-70 | the insights for the user's industry when the fetch yields a user; a failed fetch or a null user gives exactly "Failed to get industry insights" |
| UserActions.ProfilePayload | client/actions/user.js:13-18 | the body holds exactly the profile fields industry, experience, bio and skills that the input has, each unchanged |
| UserActions.ProfilePayloadIdempotent | client/actions/user.js:13-18 | projecting the payload again changes nothing |
| UserActions.ProfilePayloadIgnoresOtherFields | client/actions/user.js:13-18 | adding or changing a field outside the profile leaves the body unchanged |
| UserActions.UpdateUser | client/actions/user.js:6-25 | insights are requested iff `data.industry` is truthy; the profile payload is sent; the backend's data on success, otherwise exactly "Failed to update profile" |
| UserActions.GetUserOnboardingStatus | client/actions/user.js:27-39 | onboarded iff the user's profile names a non-empty industry; a failed fetch gives exactly "Failed to check onboarding status" |
| Utils.CalculatePercentage | client/lib/utils.js:18-20 | 0 when total is not positive; otherwise the integer nearest to 100·value/total, an exact half rounding up |
| Utils.NearestIsUnique | client/lib/utils.js:19 | that characterisation fixes the result uniquely |
| Utils.PercentageEndpoints | client/lib/utils.js:19 | with a positive total, value 0 gives 0 and value = total gives 100 |
| Utils.PercentageMonotonic | client/lib/utils.js:19 | for a fixed positive total the result never decreases as the value grows |
| Utils.PercentageInRange | client/lib/utils.js:19 | a value between 0 and the total gives a result in [0, 100] |
| Utils.HalfRoundsUp | client/lib/utils.js:19 | an exact half rounds up, as `Math.round` does |
| InterviewPage.StartQuizStep | client/pages/interview.js:44-58 | the session invariant is kept (clock in [0, 60], index within the questions or 0) |
| InterviewPage.StartQuizOutcome | client/pages/interview.js:44-58 | a successful fetch stores the questions and category, starts at question 0 with a 60-second clock; a failed one changes only `loading`; `loading` ends false both ways |
| InterviewPage.SelectAnswerStep | client/pages/interview.js:229 | selecting an option keeps the invariant |
| InterviewPage.SubmitStep | client/pages/interview.js:60-77 | submitting keeps the invariant |
| InterviewPage.SubmitOutcome | client/pages/interview.js:60-77 | no questions: nothing is posted and nothing changes; otherwise the current question is posted with 60 − timeLeft seconds spent, which lies in [0, 60]; success stores and shows the feedback, failure changes nothing |
| InterviewPage.TickStep | client/pages/interview.js:34-42 | a tick keeps the invariant |
| InterviewPage.TickOutcome | client/pages/interview.js:36-39 | a tick takes exactly one second off while the countdown runs and nothing otherwise, so the clock never goes below 0; it submits automatically exactly when it takes the last second |
| InterviewPage.CountdownBeforeDeadline | client/pages/interview.js:36-37 | before the deadline, n ticks only take n seconds off the clock |
| InterviewPage.CountdownIdle | client/pages/interview.js:34-42 | with no timeout scheduled, further ticks change nothing |
| InterviewPage.CountdownSubmitsOnce | client/pages/interview.js:34-42 | a running countdown of t seconds reaches 0 after t ticks and submits exactly once, however many more ticks follow and whether the submission succeeds or not |
| InterviewPage.CountdownSplit | client/pages/interview.js:34-42 | m + n ticks are m ticks followed by n ticks |
| InterviewPage.NextQuestionStep | client/pages/interview.js:79-89 | moving on keeps the invariant |
| InterviewPage.NextQuestionOutcome | client/pages/interview.js:79-89 | below the last question the index advances by one, the answer and feedback are cleared and the clock restarts; at the last question nothing changes and the route is the dashboard; the index stays in [0, length − 1] |
| InterviewPage.ResetStep | client/pages/interview.js:91-99 | a reset always yields a session satisfying the invariant |
| InterviewPage.ResetOutcome | client/pages/interview.js:91-99 | every hook but `quizResult` and `loading` returns to its initial value; those two are kept |
| InterviewPage.NatText | client/pages/interview.js:197 | `toString` of a natural number is a non-empty string of decimal digits with no leading zero, one digit below 10, at most two below 100 |
| InterviewPage.NatTextReadsBack | client/pages/interview.js:197 | the decimal text of n reads back as n |
| InterviewPage.ClockTextReadsBack | client/pages/interview.js:196-197 | the clock is the minutes, ':' and exactly two second digits, and reading them back gives the time left |
| InterviewPage.PadStart2ReadsBack | client/pages/interview.js:197 | `padStart(2, '0')` of one or two digits gives exactly two digits denoting the same number |
| InterviewPage.OptionLetter | client/pages/interview.js:242 | option i is labelled with a UTF-16 code unit, the letter 'A' + i for the first 26 options |
| InterviewPage.OptionLettersDistinct | client/pages/interview.js:242 | the first 26 options get distinct letters from A to Z |
| InterviewPage.InterviewController.constructor | client/pages/interview.js:10-18 | every hook starts at its initial value and the invariant holds |
| InterviewPage.InterviewController.StartQuiz | client/pages/interview.js:44-58 | fetches "/interview/quiz/" + category + "?limit=5" and the new state is the start step of the old one |
| InterviewPage.InterviewController.SelectAnswer | client/pages/interview.js:229 | the new state is the select step of the old one |
| InterviewPage.InterviewController.SubmitAnswer | client/pages/interview.js:60-77 | posts the request of the old state, if any, and the new state is the submit step of the old one |
| InterviewPage.InterviewController.Tick | client/pages/interview.js:34-42 | the new state and the auto-submit flag are the tick step of the old state; a submission posts the request for the expired clock |
| InterviewPage.InterviewController.NextQuestion | client/pages/interview.js:79-89 | the new state and the route are the next-question step of the old state |
| InterviewPage.InterviewController.ResetQuiz | client/pages/interview.js:91-99 | the new state is the reset step of the old one |
| InterviewPage.InterviewController.Clock | client/pages/interview.js:196-197 | the clock text of the time left, red iff at most 10 seconds remain |
| ResumePage.ResumeForm.constructor | client/pages/resume.js:13-17 | no file, empty description, no analysis, not loading, no highlight |
| ResumePage.ResumeForm.HandleDrag | client/pages/resume.js:26-34 | dragenter and dragover highlight, dragleave clears, any other event leaves the highlight |
| ResumePage.ResumeForm.HandleDrop | client/pages/resume.js:36-44 | the highlight is always cleared; the first dropped file replaces the old one, which is kept when nothing was dropped |
| ResumePage.ResumeForm.HandleFileChange | client/pages/resume.js:46-50 | the first picked file replaces the old one, which is kept when nothing was picked |
| ResumePage.ResumeForm.RemoveFile | client/pages/resume.js:165 | the file is cleared |
| ResumePage.ResumeForm.SetJobDescription | client/pages/resume.js:218 | the description takes the typed text |
| InterviewPage.SubmitDisabled | client/pages/interview.js:251 | the submit button is disabled iff no option is selected |
| ResumePage.ResumeForm.SubmitDisabled | client/pages/resume.js:233 | the button is disabled iff there is no file or an upload is running |
| ResumePage.ResumeForm.HandleSubmit | client/pages/resume.js:52-85 | with no file nothing is sent and nothing changes; otherwise the file and description are uploaded, the analysis is stored only on success and `loading` ends false |
| ResumePage.ResumeForm.AnalyzeAnother | client/pages/resume.js:373 | only the analysis is cleared |
| ResumePage.ScoreColorBands | client/pages/resume.js:87-91 | green iff score ≥ 80, yellow iff 60 ≤ score < 80, red iff score < 60 |
| ResumePage.ScoreColorMonotonic | client/pages/resume.js:87-91 | a higher score never gets a lower band |
| ResumePage.StatusFollowsColor | client/pages/resume.js:280-281 | the status text and the check icon follow the colour's 80/60 thresholds |
| DashboardPage.Take | client/pages/dashboard.js:42 | `slice(0, n)` is the prefix of length min(n, length) |
| DashboardPage.TopSkills | client/pages/dashboard.js:42 | at most eight skills: the first eight of the response, or none when the body or its list is missing |
| DashboardPage.Dashboard.constructor | client/pages/dashboard.js:14-16 | no data, no skills, loading |
| DashboardPage.Dashboard.FetchDashboardData | client/pages/dashboard.js:28-37 | the body, or `{}` for a null body or a failure; `loading` is not touched |
| DashboardPage.Dashboard.FetchSkillsData | client/pages/dashboard.js:39-50 | the top skills on success, none on failure; `loading` ends false on both paths |
| DashboardPage.Dashboard.Mount | client/pages/dashboard.js:19-26 | with no user, a redirect to the login page and no change; otherwise both fetches run and loading ends |
| DashboardPage.PieDataOf | client/pages/dashboard.js:69-72 | the completed slice is the quiz count (0 when missing) and the remainder is never negative |
| DashboardPage.PieDataSumsToGoal | client/pages/dashboard.js:69-72 | up to 50 quizzes the slices add up to 50; beyond it nothing remains; a missing or `null` count is no quiz taken |
| DashboardPage.CareerScore | client/pages/dashboard.js:131 | 0 when either score is missing (`undefined`); otherwise the mean of the two scores rounded half up, a `null` score adding as 0 |
| DashboardPage.CareerScoreInRange | client/pages/dashboard.js:131 | two scores, each `null` or in [0, 100], give a career score in [0, 100] |
| DashboardPage.NullAverageCountsAsZero | client/pages/dashboard.js:131 | a resume score of 70 with a `null` interview average shows 35; with a missing average it shows 0 |
| DashboardPage.OneIconPerCategory | client/pages/dashboard.js:480-488 | each tile renders exactly one icon: a known category its own, any other the book |
| DashboardPage.KnownIconsDistinct | client/pages/dashboard.js:481-488 | the seven known categories have distinct icons, none of them the default |
| DashboardPage.QuickQuizCategories | client/pages/dashboard.js:532 | the quick-quiz grid shows at most the first six categories, in order |
| QuizPage.QuizCatalog.constructor | client/pages/quiz.js:13-15 | no categories, no stats, loading |
| QuizPage.QuizCatalog.FetchQuizData | client/pages/quiz.js:26-43 | both requests succeed: the listed categories (none when missing) and the stats (`{}` for a null body); any failure: no categories and `{}`; `loading` ends false |
| QuizPage.QuizCatalog.Mount | client/pages/quiz.js:18-24 | with no user, a redirect to the login page and no change; otherwise loading ends with the fetched categories and statistics when both requests succeed, and with no categories and empty statistics when either fails |
| QuizPage.StartQuizRoute | client/pages/quiz.js:54-57 | the route is the quiz page of the named category |
| QuizPage.ToLower | client/pages/quiz.js:46 | same length, each character lower-cased |
| QuizPage.ToLowerIdempotent | client/pages/quiz.js:46 | lower-casing twice is lower-casing once |
| QuizPage.DifficultyColorIgnoresCase | client/pages/quiz.js:45-52 | spellings that agree once lower-cased get the same colour |
| QuizPage.EasyInAnyCase | client/pages/quiz.js:45-47 | "Easy", "EASY" and "easy" are all green |
| QuizPage.DifficultyColors | client/pages/quiz.js:45-52 | easy, medium and hard are green, yellow and red; anything else is gray |
| CoverLetterPage.LetterShape | client/pages/cover-letter.js:32-42 | the letter opens with "Dear Hiring Manager," and ends with "Best regards," and the user's name; the job title appears once and the company twice, verbatim, at fixed places |
| CoverLetterPage.LetterIgnoresJobDescription | client/pages/cover-letter.js:32-42 | the letter does not depend on the job description |
| CoverLetterPage.CoverLetterForm.constructor | client/pages/cover-letter.js:12-18 | the three fields start empty, no letter, not loading |
| CoverLetterPage.CoverLetterForm.HandleChange | client/pages/cover-letter.js:54-59 | only the named field takes the new value; every other field is kept |
| CoverLetterPage.CoverLetterForm.HandleSubmit | client/pages/cover-letter.js:25-31 | `loading` is set and the letter is scheduled for the form as it is now |
| CoverLetterPage.CoverLetterForm.DelayElapsed | client/pages/cover-letter.js:31-47 | the oldest scheduled timeout shows the letter for its captured form and clears `loading`; with nothing scheduled nothing changes |
| CoverLetterPage.CoverLetterForm.SubmitDisabled | client/pages/cover-letter.js:157 | the button is disabled iff a letter is being produced |
| LoginPage.ErrorText | client/pages/login.js:31 | the server's message when it sent one, "Login failed" otherwise; never empty |
| LoginPage.LoginForm.constructor | client/pages/login.js:12-18 | empty credentials, no error, not loading, no user, no navigation |
| LoginPage.LoginForm.HandleChange | client/pages/login.js:37-42 | only the named credential changes; the other keeps its value |
| LoginPage.LoginForm.BeginSubmit | client/pages/login.js:22-27 | `loading` is set and the error cleared before the credentials are sent |
| LoginPage.LoginForm.CompleteSubmit | client/pages/login.js:26-34 | success sets the user and opens the dashboard; failure shows the error text and sets no user; `loading` ends false |
| LoginPage.LoginForm.HandleSubmit | client/pages/login.js:21-35 | the form's credentials are sent; success sets the user and the dashboard route with no error; failure shows the error text; `loading` ends false |
| LoginPage.LoginForm.SubmitDisabled | client/pages/login.js:138 | the button is disabled iff the request is in flight |

## Left out

- The chat-completion calls, their prompts and their model settings. The reply is an input to the functions that use it.
- HTTP requests through the API client and axios, including the multipart encoding of the resume upload. Each request is an input that succeeds with a body or fails.
- `JSON.parse` and the shape checks it implies. It is a parameter that yields the expected record or fails; a reply of another shape is not modelled.
- Toasts, console logging, rendering, styling, animation, the charts, the `cn` helper and the static page data (trend data, category cards). These are presentation only.
- Navigation and `encodeURIComponent`. A route is an abstract value that carries the category name unencoded.
- `setTimeout`, `clearTimeout` and effect scheduling. The timeouts are explicit `Tick` and `DelayElapsed` steps, and handlers run one after another without interleaving.
- Utils.CalculatePercentage: computed over exact rationals. JavaScript's floating-point division can round a product that should be an exact .5 to just below it (57/200 gives 28.499…), so the result can differ there.
- DashboardPage.CareerScore: the scores are integers or `null`; any other non-numeric value (a string, which `+` would concatenate) and a fractional `averageInterviewScore` with its rounding elsewhere on the page are not modelled.
- QuizPage.ToLower: maps only the ASCII letters, not the full Unicode case mapping of `toLowerCase`.
- Date formatting and the file size in megabytes. Both are locale- or floating-point formatting.
- The redirect to the login page on the interview, resume and cover-letter pages. The interview and resume pages do it in an effect and the cover-letter page during render. The cover-letter form is built for a signed-in user's name.
- The login page's password-visibility toggle and the cover letter's copy-to-clipboard. Both are browser I/O without model state.
- The cover letter's `catch` branch. Scheduling a timeout cannot throw, so it is unreachable.
- database/connection.js, the test scripts and next.config.js are not part of this model. They are connection I/O, network smoke tests and build configuration.
