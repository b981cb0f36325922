/** Server actions of the interview feature (client/actions/interview.js):
    quiz generation from a completion reply, grading of a finished quiz and
    the assessment fetch.  The completion API and the REST backend are
    inputs; `JSON.parse` together with the read of its `questions` field is
    a parameter that either yields the questions or fails. */
module InterviewActions {
  import opened Wrappers
  import FenceCleaning

  datatype GeneratedQuestion = GeneratedQuestion(
    question: string, options: seq<string>, correctAnswer: string, explanation: string)

  /** One entry of `questionResults`. */
  datatype QuestionResult = QuestionResult(
    question: string, answer: string, userAnswer: Option<string>, isCorrect: bool, explanation: string)

  /** The body posted to `/interview/quiz/result`. */
  datatype ResultPayload = ResultPayload(
    quizScore: int, questions: seq<QuestionResult>, category: string, improvementTip: Option<string>)

  const GenerateQuizError := "Failed to generate quiz questions"
  const SaveResultError := "Failed to save quiz result"
  const AssessmentsError := "Failed to fetch assessments"

  /** `generateQuiz`: the reply is cleaned before it is parsed; a failed
      completion or a failed parse becomes the one fixed error. */
  function GenerateQuiz(reply: Result<string>, parse: string -> Option<seq<GeneratedQuestion>>)
    : (r: Result<seq<GeneratedQuestion>>)
    ensures r.Ok? <==> reply.Ok? && parse(FenceCleaning.Clean(reply.value)).Some?
    ensures r.Ok? ==> r.value == parse(FenceCleaning.Clean(reply.value)).value
    ensures r.Err? ==> r.message == GenerateQuizError
  {
    if reply.Err? then Err(GenerateQuizError)
    else match parse(FenceCleaning.Clean(reply.value))
      case Some(questions) => Ok(questions)
      case None => Err(GenerateQuizError)
  }

  /** A reply that wraps the questions' JSON text in a `json` code fence
      yields exactly what that text parses to. */
  lemma FencedReplyQuiz(parse: string -> Option<seq<GeneratedQuestion>>, body: string)
    requires FenceCleaning.NoBacktick(body) && FenceCleaning.Trimmed(body) && parse(body).Some?
    ensures GenerateQuiz(Ok("```json\n" + body + "\n```"), parse) == Ok(parse(body).value)
  {
    FenceCleaning.CleanFencedJson(body);
  }

  /** `answers[index]`: undefined past the end of the array. */
  function AnswerAt(answers: seq<Option<string>>, i: nat): Option<string> {
    if i < |answers| then answers[i] else None
  }

  /** Strict equality of the expected answer with the given one. */
  predicate AnsweredCorrectly(q: GeneratedQuestion, answer: Option<string>) {
    answer == Some(q.correctAnswer)
  }

  /** `questions.map(...)`: one result per question, in question order. */
  function GradeQuestions(questions: seq<GeneratedQuestion>, answers: seq<Option<string>>)
    : (r: seq<QuestionResult>)
    ensures |r| == |questions|
    ensures forall i :: 0 <= i < |r| ==>
      && r[i].question == questions[i].question
      && r[i].answer == questions[i].correctAnswer
      && r[i].userAnswer == AnswerAt(answers, i)
      && r[i].explanation == questions[i].explanation
      && (r[i].isCorrect <==> i < |answers| && answers[i] == Some(questions[i].correctAnswer))
  {
    seq(|questions|, i requires 0 <= i < |questions| =>
      var q := questions[i];
      var a := AnswerAt(answers, i);
      QuestionResult(q.question, q.correctAnswer, a, AnsweredCorrectly(q, a), q.explanation))
  }

  /** Number of entries marked correct. */
  function CorrectCount(results: seq<QuestionResult>): nat {
    if results == [] then 0
    else (if results[0].isCorrect then 1 else 0) + CorrectCount(results[1..])
  }

  /** `questionResults.filter((q) => !q.isCorrect)`: the incorrect entries,
      in their original order, and nothing else. */
  function WrongAnswers(results: seq<QuestionResult>): (r: seq<QuestionResult>)
    ensures forall x :: x in r <==> x in results && !x.isCorrect
    ensures |r| + CorrectCount(results) == |results|
  {
    if results == [] then []
    else if results[0].isCorrect then WrongAnswers(results[1..])
    else [results[0]] + WrongAnswers(results[1..])
  }

  /** The filter keeps the relative order of the entries it keeps. */
  lemma {:induction false} WrongAnswersOfConcat(a: seq<QuestionResult>, b: seq<QuestionResult>)
    ensures WrongAnswers(a + b) == WrongAnswers(a) + WrongAnswers(b)
  {
    if a == [] {
      assert a + b == b;
    } else {
      assert (a + b)[0] == a[0];
      assert (a + b)[1..] == a[1..] + b;
      WrongAnswersOfConcat(a[1..], b);
    }
  }

  /** No entry is wrong exactly when every question got its expected answer. */
  lemma NoWrongAnswersIffAllCorrect(questions: seq<GeneratedQuestion>, answers: seq<Option<string>>)
    ensures WrongAnswers(GradeQuestions(questions, answers)) == [] <==>
      forall i :: 0 <= i < |questions| ==> AnswerAt(answers, i) == Some(questions[i].correctAnswer)
  {
    var results := GradeQuestions(questions, answers);
    if WrongAnswers(results) == [] {
      forall i | 0 <= i < |questions| ensures AnswerAt(answers, i) == Some(questions[i].correctAnswer) {
        assert results[i] in results;
        assert results[i] !in WrongAnswers(results);
      }
    } else {
      var x := WrongAnswers(results)[0];
      assert x in WrongAnswers(results);
      var i :| 0 <= i < |results| && results[i] == x;
      assert AnswerAt(answers, i) != Some(questions[i].correctAnswer);
    }
  }

  /** `saveQuizResult`.  The improvement tip is requested only when some
      answer is wrong; a failed tip request or a failed post is turned into
      the one fixed error.  `score` is forwarded as given. */
  method SaveQuizResult<A>(questions: seq<GeneratedQuestion>, answers: seq<Option<string>>, score: int,
                           tipReply: Result<string>, postReply: Result<A>)
    returns (tipRequested: bool, posted: Option<ResultPayload>, r: Result<A>)
    ensures tipRequested <==> WrongAnswers(GradeQuestions(questions, answers)) != []
    ensures posted.Some? <==> !tipRequested || tipReply.Ok?
    ensures posted.Some? ==>
      && posted.value.quizScore == score
      && posted.value.questions == GradeQuestions(questions, answers)
      && posted.value.category == "Technical"
      && posted.value.improvementTip ==
           (if tipRequested then Some(FenceCleaning.Trim(tipReply.value)) else None)
    ensures r.Ok? <==> posted.Some? && postReply.Ok?
    ensures r.Ok? ==> r.value == postReply.value
    ensures r.Err? ==> r.message == SaveResultError
  {
    var questionResults := GradeQuestions(questions, answers);
    var wrongAnswers := WrongAnswers(questionResults);
    var improvementTip: Option<string> := None;
    tipRequested := |wrongAnswers| > 0;
    if tipRequested {
      if tipReply.Err? {
        posted, r := None, Err(SaveResultError);
        return;
      }
      improvementTip := Some(FenceCleaning.Trim(tipReply.value));
    }
    posted := Some(ResultPayload(score, questionResults, "Technical", improvementTip));
    r := if postReply.Ok? then Ok(postReply.value) else Err(SaveResultError);
  }

  /** `getAssessments`: the backend's data, or the one fixed error. */
  function GetAssessments<A>(reply: Result<A>): (r: Result<A>)
    ensures r.Ok? <==> reply.Ok?
    ensures r.Ok? ==> r.value == reply.value
    ensures r.Err? ==> r.message == AssessmentsError
  {
    if reply.Ok? then Ok(reply.value) else Err(AssessmentsError)
  }
}
