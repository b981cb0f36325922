/** The interview practice page (client/pages/interview.js): a timed
    one-question-at-a-time session.  The nine `useState` hooks are the
    fields of `InterviewController`; each handler is a method proved against
    a pure step over the `Session` value, and the lemmas below are about
    those steps.  The question fetch and the answer submission are inputs
    (`Result` values); a `Tick` is the one-second timeout firing. */
module InterviewPage {
  import opened Wrappers
  import opened Navigation

  /** Seconds allowed per question. */
  const QuestionTime: int := 60

  datatype Question = Question(id: string, question: string, options: seq<string>)

  /** What the backend answers to a submission. */
  datatype Feedback = Feedback(isCorrect: bool, correctAnswer: int, explanation: string)

  /** The body posted to `/interview/quiz/submit`. */
  datatype SubmitRequest = SubmitRequest(quizId: string, selectedAnswer: Option<int>, timeSpent: int)

  datatype Session = Session(
    selectedCategory: string,
    questions: seq<Question>,
    currentQuestion: int,
    selectedAnswer: Option<int>,
    showResult: bool,
    quizResult: Option<Feedback>,
    timeLeft: int,
    quizStarted: bool,
    loading: bool)

  /** The values the hooks start with. */
  const InitialSession: Session := Session("", [], 0, None, false, None, QuestionTime, false, false)

  /** The countdown stays within its budget and the index names a question
      (or is 0 while there is none). */
  predicate Invariant(s: Session) {
    && 0 <= s.timeLeft <= QuestionTime
    && 0 <= s.currentQuestion
    && (s.currentQuestion < |s.questions| || s.currentQuestion == 0)
  }

  /** The request path of the question fetch for a category. */
  function QuestionsPath(category: string): string {
    "/interview/quiz/" + category + "?limit=5"
  }

  /** `startQuiz`, once the fetch has settled. */
  function StartQuizStep(s: Session, category: string, fetched: Result<seq<Question>>): (r: Session)
    ensures Invariant(s) ==> Invariant(r)
  {
    match fetched
    case Ok(questions) =>
      s.(questions := questions, selectedCategory := category, currentQuestion := 0,
         quizStarted := true, timeLeft := QuestionTime, loading := false)
    case Err(_) => s.(loading := false)
  }

  /** Clicking option `index` of the current question. */
  function SelectAnswerStep(s: Session, index: nat): (r: Session)
    ensures Invariant(s) ==> Invariant(r)
  {
    s.(selectedAnswer := Some(index))
  }

  /** `questions[currentQuestion]`, undefined when out of range. */
  function CurrentQuestionOf(s: Session): Option<Question> {
    if 0 <= s.currentQuestion < |s.questions| then Some(s.questions[s.currentQuestion]) else None
  }

  /** The request `handleSubmitAnswer` posts: none when there are no
      questions (early return) or when the current question is undefined
      (reading its `_id` throws inside the `try`). */
  function SubmitRequestOf(s: Session): Option<SubmitRequest> {
    if |s.questions| == 0 then None
    else match CurrentQuestionOf(s)
      case Some(q) => Some(SubmitRequest(q.id, s.selectedAnswer, QuestionTime - s.timeLeft))
      case None => None
  }

  /** `handleSubmitAnswer`, once the post has settled: the feedback is shown
      on success; a failure is only logged. */
  function SubmitStep(s: Session, reply: Result<Feedback>): (r: Session)
    ensures Invariant(s) ==> Invariant(r)
  {
    if SubmitRequestOf(s).Some? && reply.Ok? then s.(quizResult := Some(reply.value), showResult := true)
    else s
  }

  /** What the countdown effect does when it runs. */
  datatype TimerEffect = ScheduleTick | AutoSubmit | NoTimer

  /** The countdown effect, run whenever `timeLeft`, `quizStarted` or
      `showResult` changes: schedule the next second, or submit on expiry. */
  function TimerEffectOf(s: Session): TimerEffect {
    if s.quizStarted && s.timeLeft > 0 && !s.showResult then ScheduleTick
    else if s.timeLeft == 0 && !s.showResult then AutoSubmit
    else NoTimer
  }

  /** The scheduled timeout fires: `timeLeft` drops by one, and the effect
      re-runs on the new value, submitting automatically when it is 0.  With
      no timeout scheduled nothing happens.  The flag says whether the
      automatic submission was triggered. */
  function TickStep(s: Session, reply: Result<Feedback>): (r: (Session, bool))
    ensures Invariant(s) ==> Invariant(r.0)
  {
    if TimerEffectOf(s) == ScheduleTick then
      var s' := s.(timeLeft := s.timeLeft - 1);
      if TimerEffectOf(s') == AutoSubmit then (SubmitStep(s', reply), true) else (s', false)
    else (s, false)
  }

  /** `nextQuestion`: advance and restart the clock, or, at the last
      question, leave the state as it is and go to the dashboard. */
  function NextQuestionStep(s: Session): (r: (Session, Option<Route>))
    ensures Invariant(s) ==> Invariant(r.0)
  {
    if s.currentQuestion < |s.questions| - 1 then
      (s.(currentQuestion := s.currentQuestion + 1, selectedAnswer := None, showResult := false,
          timeLeft := QuestionTime), None)
    else (s, Some(DashboardRoute))
  }

  /** `resetQuiz`: every hook but `quizResult` and `loading` back to its start value. */
  function ResetStep(s: Session): (r: Session)
    ensures Invariant(r)
  {
    s.(selectedCategory := "", questions := [], currentQuestion := 0, selectedAnswer := None,
       showResult := false, quizStarted := false, timeLeft := QuestionTime)
  }

  /** A successful fetch starts the session on its first question with a
      full clock; a failed one changes nothing but `loading`. */
  lemma StartQuizOutcome(s: Session, category: string, fetched: Result<seq<Question>>)
    ensures var r := StartQuizStep(s, category, fetched);
      && !r.loading
      && (fetched.Ok? ==>
            && r.questions == fetched.value && r.selectedCategory == category
            && r.currentQuestion == 0 && r.quizStarted && r.timeLeft == QuestionTime
            && r.selectedAnswer == s.selectedAnswer && r.showResult == s.showResult
            && r.quizResult == s.quizResult)
      && (fetched.Err? ==> r == s.(loading := false))
  {
  }

  /** A tick lowers the clock by exactly one second while the countdown runs
      and leaves it alone otherwise, so it never goes below zero; it submits
      automatically exactly when it takes the last second. */
  lemma TickOutcome(s: Session, reply: Result<Feedback>)
    requires s.timeLeft >= 0
    ensures var (r, fired) := TickStep(s, reply);
      && r.timeLeft == (if s.quizStarted && s.timeLeft > 0 && !s.showResult then s.timeLeft - 1 else s.timeLeft)
      && r.timeLeft >= 0
      && (fired <==> s.quizStarted && !s.showResult && s.timeLeft == 1)
      && (!fired ==> r == s.(timeLeft := r.timeLeft))
      && (fired ==> r == SubmitStep(s.(timeLeft := 0), reply))
  {
  }

  /** The state after `n` timeouts, each answered by `reply` if it submits,
      and how many automatic submissions they triggered. */
  function Countdown(s: Session, n: nat, reply: Result<Feedback>): (Session, nat)
    decreases n
  {
    if n == 0 then (s, 0)
    else
      var (s', fired) := TickStep(s, reply);
      var (r, k) := Countdown(s', n - 1, reply);
      (r, k + if fired then 1 else 0)
  }

  /** Before the deadline each tick only takes one second off the clock. */
  lemma {:induction false} CountdownBeforeDeadline(s: Session, n: nat, reply: Result<Feedback>)
    requires s.quizStarted && !s.showResult && n < s.timeLeft
    ensures Countdown(s, n, reply) == (s.(timeLeft := s.timeLeft - n), 0)
    decreases n
  {
    if n > 0 {
      var s' := s.(timeLeft := s.timeLeft - 1);
      assert TickStep(s, reply) == (s', false);
      CountdownBeforeDeadline(s', n - 1, reply);
      assert s'.(timeLeft := s'.timeLeft - (n - 1)) == s.(timeLeft := s.timeLeft - n);
    }
  }

  /** With no timeout scheduled, further ticks do nothing at all. */
  lemma {:induction false} CountdownIdle(s: Session, n: nat, reply: Result<Feedback>)
    requires TimerEffectOf(s) != ScheduleTick
    ensures Countdown(s, n, reply) == (s, 0)
    decreases n
  {
    if n > 0 {
      CountdownIdle(s, n - 1, reply);
    }
  }

  /** A running countdown of `t` seconds reaches zero in exactly `t` ticks,
      and the automatic submission is triggered exactly once however many
      more ticks follow, whether the submission succeeds or not. */
  lemma CountdownSubmitsOnce(s: Session, extra: nat, reply: Result<Feedback>)
    requires s.quizStarted && !s.showResult && s.timeLeft > 0
    ensures var (r, k) := Countdown(s, s.timeLeft + extra, reply);
      && k == 1
      && r.timeLeft == 0
      && r == SubmitStep(s.(timeLeft := 0), reply)
  {
    var t := s.timeLeft;
    var before := s.(timeLeft := 1);
    CountdownBeforeDeadline(s, t - 1, reply);
    CountdownSplit(s, t - 1, extra + 1, reply);
    var last := SubmitStep(s.(timeLeft := 0), reply);
    assert TickStep(before, reply) == (last, true);
    assert TimerEffectOf(last) != ScheduleTick;
    CountdownIdle(last, extra, reply);
  }

  /** Running `m + n` ticks is running `m` and then `n`. */
  lemma {:induction false} CountdownSplit(s: Session, m: nat, n: nat, reply: Result<Feedback>)
    ensures var (mid, k1) := Countdown(s, m, reply);
      var (r, k2) := Countdown(mid, n, reply);
      Countdown(s, m + n, reply) == (r, k1 + k2)
    decreases m
  {
    if m > 0 {
      var (s', fired) := TickStep(s, reply);
      CountdownSplit(s', m - 1, n, reply);
      assert m + n - 1 == (m - 1) + n;
    }
  }

  /** Submitting with no questions does nothing.  Otherwise, in a valid
      session, the current question is posted with the seconds spent, which
      lie in [0, 60]; success stores and shows the feedback, failure changes
      nothing. */
  lemma SubmitOutcome(s: Session, reply: Result<Feedback>)
    requires Invariant(s)
    ensures |s.questions| == 0 ==> SubmitRequestOf(s).None? && SubmitStep(s, reply) == s
    ensures |s.questions| > 0 ==>
      && SubmitRequestOf(s) == Some(SubmitRequest(s.questions[s.currentQuestion].id, s.selectedAnswer,
                                                  QuestionTime - s.timeLeft))
      && 0 <= SubmitRequestOf(s).value.timeSpent <= QuestionTime
    ensures |s.questions| > 0 && reply.Ok? ==>
      SubmitStep(s, reply) == s.(quizResult := Some(reply.value), showResult := true)
    ensures reply.Err? ==> SubmitStep(s, reply) == s
  {
  }

  /** `nextQuestion` keeps the index within the questions: it advances only
      below the last question, clearing the answer and the feedback and
      restarting the clock, and at the last one it leaves everything as it
      is and heads for the dashboard. */
  lemma NextQuestionOutcome(s: Session)
    requires Invariant(s) && |s.questions| > 0
    ensures var (r, route) := NextQuestionStep(s);
      && 0 <= r.currentQuestion <= |s.questions| - 1
      && (s.currentQuestion < |s.questions| - 1 ==>
            && r.currentQuestion == s.currentQuestion + 1 && route.None?
            && r.selectedAnswer.None? && !r.showResult && r.timeLeft == QuestionTime
            && SubmitDisabled(r))
      && (s.currentQuestion == |s.questions| - 1 ==> r == s && route == Some(DashboardRoute))
  {
  }

  /** Resetting restores the start value of every hook except `quizResult`
      and `loading`, which it leaves as they were. */
  lemma ResetOutcome(s: Session)
    ensures ResetStep(s) == InitialSession.(quizResult := s.quizResult, loading := s.loading)
  {
  }

  /** The submit button is disabled until an option is selected. */
  function SubmitDisabled(s: Session): (disabled: bool)
    ensures disabled <==> s.selectedAnswer.None?
  {
    s.selectedAnswer == None
  }

  // ---------------------------------------------------------------------
  // The clock and the option labels.

  function DigitChar(d: int): char
    requires 0 <= d < 10
  {
    ('0' as int + d) as char
  }

  predicate IsDigits(s: string) {
    forall i :: 0 <= i < |s| ==> '0' <= s[i] <= '9'
  }

  /** `n.toString()` for a natural number. */
  function NatText(n: nat): (s: string)
    ensures 1 <= |s| && IsDigits(s)
    ensures n < 10 ==> |s| == 1
    ensures n < 100 ==> |s| <= 2
    ensures n > 0 ==> s[0] != '0'
    decreases n
  {
    if n < 10 then [DigitChar(n)] else NatText(n / 10) + [DigitChar(n % 10)]
  }

  /** The number a string of decimal digits denotes. */
  function DecimalValue(s: string): nat
    requires IsDigits(s)
  {
    if s == [] then 0 else 10 * DecimalValue(s[..|s| - 1]) + (s[|s| - 1] as int - '0' as int)
  }

  /** The decimal text of `n` reads back as `n`. */
  lemma {:induction false} NatTextReadsBack(n: nat)
    ensures DecimalValue(NatText(n)) == n
    decreases n
  {
    if n >= 10 {
      NatTextReadsBack(n / 10);
      var s := NatText(n);
      assert s[..|s| - 1] == NatText(n / 10);
    }
  }

  /** `padStart(2, '0')`. */
  function PadStart2(s: string): string {
    if |s| >= 2 then s else seq(2 - |s|, _ => '0') + s
  }

  /** The clock: whole minutes, a colon, and the seconds padded to two digits. */
  function ClockText(t: nat): string {
    NatText(t / 60) + ":" + PadStart2(NatText(t % 60))
  }

  /** The clock turns red in the last ten seconds. */
  function ClockClass(t: int): string {
    if t <= 10 then "text-red-600" else "text-gray-700"
  }

  /** The clock text is minutes, ':' and exactly two second digits, and
      reading them back gives the time left. */
  lemma ClockTextReadsBack(t: nat)
    ensures var m := NatText(t / 60);
      var txt := ClockText(t);
      && |txt| == |m| + 3
      && txt[..|m|] == m && txt[|m|] == ':'
      && IsDigits(txt[|m| + 1..])
      && DecimalValue(m) * 60 + DecimalValue(txt[|m| + 1..]) == t
  {
    var m := NatText(t / 60);
    var sec := NatText(t % 60);
    var txt := ClockText(t);
    NatTextReadsBack(t / 60);
    NatTextReadsBack(t % 60);
    var padded := PadStart2(sec);
    PadStart2ReadsBack(sec);
    assert txt == m + [':'] + padded;
    assert txt[|m| + 1..] == padded;
    assert txt[..|m|] == m;
  }

  /** Padding at most two digits gives exactly two digits with the same value. */
  lemma PadStart2ReadsBack(s: string)
    requires 1 <= |s| <= 2 && IsDigits(s)
    ensures |PadStart2(s)| == 2 && IsDigits(PadStart2(s))
    ensures DecimalValue(PadStart2(s)) == DecimalValue(s)
  {
    var padded := PadStart2(s);
    if |s| == 1 {
      assert padded == ['0'] + s;
      assert padded[..1] == ['0'];
    }
  }

  /** The label letter of option `index`: `String.fromCharCode(65 + index)`,
      a UTF-16 code unit. */
  function OptionLetter(index: nat): (code: int)
    ensures 0 <= code < 0x1_0000
    ensures index < 26 ==> code == 'A' as int + index
  {
    (65 + index) % 0x1_0000
  }

  /** The first 26 options get the letters A to Z, each a different one. */
  lemma OptionLettersDistinct(i: nat, j: nat)
    requires i < 26 && j < 26 && i != j
    ensures OptionLetter(i) != OptionLetter(j)
    ensures 'A' as int <= OptionLetter(i) <= 'Z' as int
  {
  }

  // ---------------------------------------------------------------------
  // The page's state.

  class InterviewController {
    var selectedCategory: string
    var questions: seq<Question>
    var currentQuestion: int
    var selectedAnswer: Option<int>
    var showResult: bool
    var quizResult: Option<Feedback>
    var timeLeft: int
    var quizStarted: bool
    var loading: bool

    function State(): Session
      reads this
    {
      Session(selectedCategory, questions, currentQuestion, selectedAnswer, showResult,
              quizResult, timeLeft, quizStarted, loading)
    }

    predicate Valid()
      reads this
    {
      Invariant(State())
    }

    constructor ()
      ensures Valid() && State() == InitialSession
    {
      selectedCategory, questions, currentQuestion, selectedAnswer := "", [], 0, None;
      showResult, quizResult, timeLeft, quizStarted, loading := false, None, QuestionTime, false, false;
    }

    /** `startQuiz(category)`: returns the path it fetches. */
    method StartQuiz(category: string, fetched: Result<seq<Question>>) returns (path: string)
      requires Valid()
      modifies this
      ensures Valid()
      ensures path == QuestionsPath(category)
      ensures State() == StartQuizStep(old(State()), category, fetched)
    {
      loading := true;
      path := "/interview/quiz/" + category + "?limit=5";
      if fetched.Ok? {
        questions := fetched.value;
        selectedCategory := category;
        currentQuestion := 0;
        quizStarted := true;
        timeLeft := QuestionTime;
      }
      loading := false;
    }

    method SelectAnswer(index: nat)
      requires Valid()
      modifies this`selectedAnswer
      ensures Valid()
      ensures State() == SelectAnswerStep(old(State()), index)
    {
      selectedAnswer := Some(index);
    }

    /** `handleSubmitAnswer`: returns the request it posts, if any. */
    method SubmitAnswer(reply: Result<Feedback>) returns (request: Option<SubmitRequest>)
      requires Valid()
      modifies this`quizResult, this`showResult
      ensures Valid()
      ensures request == SubmitRequestOf(old(State()))
      ensures State() == SubmitStep(old(State()), reply)
    {
      if |questions| == 0 {
        return None;
      }
      if currentQuestion >= |questions| {
        return None;
      }
      var question := questions[currentQuestion];
      request := Some(SubmitRequest(question.id, selectedAnswer, QuestionTime - timeLeft));
      if reply.Ok? {
        quizResult := Some(reply.value);
        showResult := true;
      }
    }

    /** One second elapses on the countdown. */
    method Tick(reply: Result<Feedback>) returns (autoSubmitted: bool, request: Option<SubmitRequest>)
      requires Valid()
      modifies this`timeLeft, this`quizResult, this`showResult
      ensures Valid()
      ensures (State(), autoSubmitted) == TickStep(old(State()), reply)
      ensures autoSubmitted ==> request == SubmitRequestOf(old(State()).(timeLeft := 0))
      ensures !autoSubmitted ==> request.None?
    {
      autoSubmitted, request := false, None;
      if quizStarted && timeLeft > 0 && !showResult {
        timeLeft := timeLeft - 1;
        if timeLeft == 0 && !showResult {
          autoSubmitted := true;
          request := SubmitAnswer(reply);
        }
      }
    }

    /** `nextQuestion`: returns the route it navigates to, if any. */
    method NextQuestion() returns (route: Option<Route>)
      requires Valid()
      modifies this
      ensures Valid()
      ensures (State(), route) == NextQuestionStep(old(State()))
    {
      route := None;
      if currentQuestion < |questions| - 1 {
        currentQuestion := currentQuestion + 1;
        selectedAnswer := None;
        showResult := false;
        timeLeft := QuestionTime;
      } else {
        route := Some(DashboardRoute);
      }
    }

    method ResetQuiz()
      requires Valid()
      modifies this
      ensures Valid()
      ensures State() == ResetStep(old(State()))
    {
      selectedCategory := "";
      questions := [];
      currentQuestion := 0;
      selectedAnswer := None;
      showResult := false;
      quizStarted := false;
      timeLeft := QuestionTime;
    }

    /** The clock shown in the header and its colour. */
    method Clock() returns (text: string, cssClass: string)
      requires Valid()
      ensures text == ClockText(timeLeft) && cssClass == ClockClass(timeLeft)
      ensures cssClass == "text-red-600" <==> timeLeft <= 10
    {
      text := ClockText(timeLeft);
      cssClass := ClockClass(timeLeft);
    }
  }
}
