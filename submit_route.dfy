/**
 * `POST /api/math-problem/submit`: checks the request, looks the session up, grades the answer by
 * exact numeric equality, asks the model for feedback (with a fixed fallback) and stores the
 * graded submission.
 */
module SubmitRoute {
  import opened Wrappers
  import opened Http
  import opened JsText
  import opened JsNumbers
  import opened Json
  import opened Gemini
  import opened MathTypes

  const MissingFieldsError: string := "Missing session_id or user_answer"
  const NotFoundError: string := "Problem session not found"
  const SaveError: string := "Failed to save submission"
  /** Written in three parts so that its first and last characters are visible to the proof that it is trimmed. */
  const FallbackFeedback: string := "G" + "ood effort! Keep practicing to improve your math skills" + "."

  /** The TypeError the runtime raises when the request body is JSON `null` and is destructured. */
  const NullBodyError: string := "Cannot destructure property 'session_id' of 'body' as it is null."

  /** The row the handler passes to the insert into math_problem_submissions. */
  datatype NewSubmission = NewSubmission(session_id: Json, user_answer: Num, is_correct: bool, feedback_text: string)

  /**
   * What the feedback prompt is built from: the problem, the correct answer, the answer as the
   * learner sent it, and the word on its `Result:` line. Its rendering into text is not modelled.
   */
  datatype FeedbackPrompt = FeedbackPrompt(problem: string, correctAnswer: Num, studentAnswer: Json, result: string)

  /** The 200 body: the stored row, with the feedback and the verdict repeated beside it. */
  datatype SubmitBody = SubmitBody(submission: Submission, feedback: string, is_correct: bool)

  /**
   * The route's answer, the prompt it sent to the model (if it got that far) and the row it sent
   * to the store's insert (if it got that far).
   */
  datatype Submitted = Submitted(
    response: Response<SubmitBody>,
    prompt: Option<FeedbackPrompt>,
    attemptedInsert: Option<NewSubmission>)

  function SessionId(body: Json): Option<Json>
  {
    Property(body, "session_id")
  }

  function UserAnswer(body: Json): Option<Json>
  {
    Property(body, "user_answer")
  }

  /** `session_id` is truthy and `user_answer` is not `undefined` (so `0`, `""` and `null` pass). */
  predicate HasRequiredFields(body: Json)
  {
    Truthy(SessionId(body)) && UserAnswer(body).Some?
  }

  /**
   * `Number(user_answer) === Number(session.correct_answer)`: the learner's answer is correct
   * when it converts to a number that is exactly the stored answer, so an answer that converts to
   * NaN is never correct. An answer with no primitive form makes `Number` throw instead.
   */
  function Grade(userAnswer: Json, correctAnswer: real): (r: Result<bool, string>)
    ensures r.Failure? <==> !HasPrimitive(userAnswer)
    ensures r.Failure? ==> r.error == NoPrimitiveError
    ensures r.Success? ==> (r.value <==> ToNumber(Some(userAnswer)) == Success(Finite(correctAnswer)))
  {
    match ToNumber(Some(userAnswer))
    case Failure(error) => Failure(error)
    case Success(n) => Success(StrictEquals(n, Finite(correctAnswer)))
  }

  /** The word on the prompt's `Result:` line. */
  function Verdict(isCorrect: bool): (r: string)
    ensures r == "Correct" <==> isCorrect
  {
    if isCorrect then "Correct" else "Incorrect"
  }

  /**
   * The feedback stored and returned: the model's text, trimmed, when that is not empty, and the
   * one fixed fallback otherwise (whatever the verdict). It is never empty and has no whitespace
   * at either end.
   */
  function FeedbackText(text: Option<string>): (f: string)
    ensures f != [] && Trimmed(f)
    ensures text.Some? && !AllWhiteSpace(text.value) ==> f == Trim(text.value)
    ensures text.None? || AllWhiteSpace(text.value) ==> f == FallbackFeedback
  {
    var trimmed := if text.Some? then Trim(text.value) else "";
    if trimmed != "" then trimmed
    else
      assert FallbackFeedback[0] == 'G' && FallbackFeedback[|FallbackFeedback| - 1] == '.';
      FallbackFeedback
  }

  /** Stored feedback is already in final form: passing it through the same step changes nothing. */
  lemma FeedbackTextIsStable(text: Option<string>)
    ensures FeedbackText(Some(FeedbackText(text))) == FeedbackText(text)
  {
    var f := FeedbackText(text);
    TrimOfTrimmed(f);
  }

  /**
   * The handler. `body` is what `req.json()` gave (or the message it threw), `lookup` the store's
   * answer to the select by id (an error, no row, or the session), `feedback` the model's reply
   * (a thrown `fetch`/`json()` or the candidate text, absent when any step of the path is
   * missing), and `insert` the store's answer to the insert.
   */
  function Submit(body: Result<Json, string>, lookup: Result<Option<Session>, string>, feedback: Reply,
                  insert: Result<Submission, string>): (s: Submitted)
    // A body that cannot be read or destructured: 500 with the exception's message.
    ensures body.Failure? ==> s == Submitted(Error(InternalServerError, body.error), None, None)
    ensures body == Success(JNull) ==> s == Submitted(Error(InternalServerError, NullBodyError), None, None)
    // Missing fields: 400 before any lookup.
    ensures body.Success? && body.value != JNull && !HasRequiredFields(body.value) ==>
              s == Submitted(Error(BadRequest, MissingFieldsError), None, None)
    // Unknown session: 404, nothing sent to the model or the store.
    ensures body.Success? && body.value != JNull && HasRequiredFields(body.value)
              && (lookup.Failure? || lookup.value.None?) ==>
              s == Submitted(Error(NotFound, NotFoundError), None, None)
    // An answer with no primitive form: `Number` throws, 500 with its message, nothing sent.
    ensures body.Success? && body.value != JNull && HasRequiredFields(body.value)
              && lookup.Success? && lookup.value.Some? && !HasPrimitive(UserAnswer(body.value).value) ==>
              s == Submitted(Error(InternalServerError, NoPrimitiveError), None, None)
    // The prompt is sent exactly when the session was found and the answer graded, with the grade as verdict.
    ensures s.prompt.Some? <==>
              body.Success? && body.value != JNull && HasRequiredFields(body.value)
              && lookup.Success? && lookup.value.Some? && HasPrimitive(UserAnswer(body.value).value)
    ensures s.prompt.Some? ==>
              var session := lookup.value.value;
              var answer := UserAnswer(body.value).value;
              var grade := Grade(answer, session.correct_answer).value;
              && s.prompt.value == FeedbackPrompt(session.problem_text, Finite(session.correct_answer), answer,
                                                  Verdict(grade))
              && (s.prompt.value.result == "Correct" <==> grade)
    // A thrown model call is not caught by the fallback: 500 and no insert.
    ensures s.prompt.Some? && feedback.Threw? ==>
              s.response == Error(InternalServerError, feedback.message) && s.attemptedInsert.None?
    // The insert is sent exactly when the model answered, and carries the graded values.
    ensures s.attemptedInsert.Some? <==> s.prompt.Some? && feedback.Replied?
    ensures s.attemptedInsert.Some? ==>
              var session := lookup.value.value;
              var answer := UserAnswer(body.value).value;
              s.attemptedInsert.value == NewSubmission(SessionId(body.value).value, ToNumber(Some(answer)).value,
                                                       Grade(answer, session.correct_answer).value,
                                                       FeedbackText(feedback.text))
    // 200 exactly when the insert succeeded, repeating the inserted feedback and verdict.
    ensures s.response.Ok? <==> s.attemptedInsert.Some? && insert.Success?
    ensures s.response.Ok? ==>
              s.response.body == SubmitBody(insert.value, s.attemptedInsert.value.feedback_text,
                                            s.attemptedInsert.value.is_correct)
    ensures s.attemptedInsert.Some? && insert.Failure? ==> s.response == Error(InternalServerError, SaveError)
  {
    match body
    case Failure(error) => Submitted(Error(InternalServerError, error), None, None)
    case Success(request) =>
      if request == JNull then Submitted(Error(InternalServerError, NullBodyError), None, None)
      else if !Truthy(SessionId(request)) || UserAnswer(request).None? then
        Submitted(Error(BadRequest, MissingFieldsError), None, None)
      else match lookup
        case Failure(_) => Submitted(Error(NotFound, NotFoundError), None, None)
        case Success(None) => Submitted(Error(NotFound, NotFoundError), None, None)
        case Success(Some(session)) =>
          var userAnswer := UserAnswer(request).value;
          match Grade(userAnswer, session.correct_answer)
          case Failure(error) => Submitted(Error(InternalServerError, error), None, None)
          case Success(isCorrect) =>
            var prompt := FeedbackPrompt(session.problem_text, Finite(session.correct_answer), userAnswer,
                                         Verdict(isCorrect));
            match feedback
            case Threw(message) => Submitted(Error(InternalServerError, message), Some(prompt), None)
            case Replied(text) =>
              var feedbackText := FeedbackText(text);
              var row := NewSubmission(SessionId(request).value, ToNumber(Some(userAnswer)).value, isCorrect,
                                       feedbackText);
              var response := match insert
                case Failure(_) => Error(InternalServerError, SaveError)
                case Success(stored) => Ok(SubmitBody(stored, feedbackText, isCorrect));
              Submitted(response, Some(prompt), Some(row))
  }

  /**
   * A learner who types the decimal numeral of a whole-number answer, with any surrounding
   * whitespace, is graded correct.
   */
  lemma TypedNumeralIsCorrect(pre: string, n: nat, post: string)
    requires AllWhiteSpace(pre) && AllWhiteSpace(post)
    ensures Grade(JString(pre + DecimalString(n) + post), n as real) == Success(true)
  {
    var answer := pre + DecimalString(n) + post;
    DecimalStringRoundTrip(pre, n, post);
    assert ToNumber(Some(JString(answer))) == Success(StringToNumber(answer));
  }

  /**
   * An answer sent as a JSON number, the request shape the route documents, is graded correct
   * exactly when it equals the stored answer.
   */
  lemma NumericAnswerGraded(x: real, correctAnswer: real)
    ensures Grade(JNumber(x), correctAnswer) == Success(x == correctAnswer)
  {
  }

  /**
   * A blank answer passes the missing-field check (it is not `undefined`) and converts to 0, so
   * it is graded correct exactly when the stored answer is 0.
   */
  lemma BlankAnswerGradedAsZero(sessionId: Json, blank: string, correctAnswer: real)
    requires AllWhiteSpace(blank)
    ensures Truthy(Some(sessionId)) ==>
              HasRequiredFields(JObject(map["session_id" := sessionId, "user_answer" := JString(blank)]))
    ensures Grade(JString(blank), correctAnswer) == Success(correctAnswer == 0.0)
  {
  }

  /** An answer that is an object with its own `toString` key makes the handler fail with the `TypeError`. */
  lemma ObjectAnswerThrows(sessionId: Json, other: Json, session: Session, feedback: Reply,
                           insert: Result<Submission, string>)
    requires Truthy(Some(sessionId))
    ensures var answer := JObject(map["toString" := other]);
            var body := JObject(map["session_id" := sessionId, "user_answer" := answer]);
            Submit(Success(body), Success(Some(session)), feedback, insert)
              == Submitted(Error(InternalServerError, NoPrimitiveError), None, None)
  {
    var answer := JObject(map["toString" := other]);
    var body := JObject(map["session_id" := sessionId, "user_answer" := answer]);
    assert UserAnswer(body) == Some(answer);
    assert !HasPrimitive(answer);
  }
}
