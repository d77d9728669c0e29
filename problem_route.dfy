/**
 * `POST /api/math-problem`: asks the model once for a problem as JSON, checks the reply with a
 * fixed chain of guards, and stores a session only when every guard passes.
 */
module ProblemRoute {
  import opened Wrappers
  import opened Http
  import opened JsNumbers
  import opened Json
  import opened Gemini
  import opened MathTypes
  import AiHelper

  const EmptyResponseError: string := "Empty response from Gemini"
  const NoJsonError: string := "AI did not return valid JSON"
  const MissingKeysError: string := "AI JSON missing required keys"
  const NotNumericError: string := "final_answer must be numeric"
  const SaveError: string := "Failed to save to database"

  /** The row the handler passes to the insert into math_problem_sessions. */
  datatype NewSession = NewSession(problem_text: Json, correct_answer: Num)

  /**
   * The route's answer, and the row it sent to the store's insert (`None` when it stopped before
   * the insert).
   */
  datatype Generated = Generated(response: Response<Session>, attemptedInsert: Option<NewSession>)

  /** The reply's `text` is present and not the empty string (`!text` is false). */
  predicate HasText(reply: Reply)
  {
    reply.Replied? && reply.text.Some? && reply.text.value != ""
  }

  /** The parsed object has a truthy `problem_text` and a defined `final_answer`. */
  predicate HasRequiredKeys(o: Object)
  {
    Truthy(Get(o, "problem_text")) && Get(o, "final_answer").Some?
  }

  /** `Number(parsed.final_answer)`, or the `TypeError` it throws. */
  function FinalAnswer(o: Object): Result<Num, string>
  {
    ToNumber(Get(o, "final_answer"))
  }

  /** `Number.isNaN(Number(parsed.final_answer))`. */
  predicate AnswerIsNaN(o: Object)
  {
    FinalAnswer(o) == Success(NaN)
  }

  /** `Number(parsed.final_answer)` is a number other than NaN (possibly infinite). */
  predicate AnswerIsNumber(o: Object)
  {
    FinalAnswer(o).Success? && FinalAnswer(o).value != NaN
  }

  /**
   * The guard chain on the model's reply, in its order: a thrown call, no text, no `{...}`
   * substring, a `JSON.parse` error, a missing key, a `final_answer` with no primitive form, a NaN
   * answer. The first that fails gives the error message (a thrown call, a parse error or a failed
   * conversion gives the exception's own message, which the `catch` reports); when none fails, the
   * row to insert carries `problem_text` as it came and `Number(final_answer)`, which may be
   * infinite but is never NaN. The row is produced exactly when every guard passes.
   */
  function Validate(reply: Reply, parse: string -> Result<Object, string>): (v: Result<NewSession, string>)
    ensures reply.Threw? ==> v == Failure(reply.message)
    ensures reply.Replied? && !HasText(reply) ==> v == Failure(EmptyResponseError)
    ensures HasText(reply) && (forall i, j :: !AiHelper.BraceMatchAt(reply.text.value, i, j)) ==>
              v == Failure(NoJsonError)
    ensures HasText(reply) && AiHelper.ExtractJsonCandidate(reply.text.value).Some? ==>
              var parsed := parse(AiHelper.ExtractJsonCandidate(reply.text.value).value);
              && (parsed.Failure? ==> v == Failure(parsed.error))
              && (parsed.Success? && !HasRequiredKeys(parsed.value) ==> v == Failure(MissingKeysError))
              && (parsed.Success? && HasRequiredKeys(parsed.value) && FinalAnswer(parsed.value).Failure? ==>
                    v == Failure(NoPrimitiveError))
              && (parsed.Success? && HasRequiredKeys(parsed.value) && AnswerIsNaN(parsed.value) ==>
                    v == Failure(NotNumericError))
              && (parsed.Success? && HasRequiredKeys(parsed.value) && AnswerIsNumber(parsed.value) ==>
                    v == Success(NewSession(parsed.value["problem_text"], FinalAnswer(parsed.value).value)))
    ensures v.Success? ==>
              && HasText(reply)
              && AiHelper.ExtractJsonCandidate(reply.text.value).Some?
              && var parsed := parse(AiHelper.ExtractJsonCandidate(reply.text.value).value);
              && parsed.Success? && HasRequiredKeys(parsed.value) && AnswerIsNumber(parsed.value)
              && v.value == NewSession(parsed.value["problem_text"], FinalAnswer(parsed.value).value)
  {
    match reply
    case Threw(message) => Failure(message)
    case Replied(text) =>
      if text.None? || text.value == "" then Failure(EmptyResponseError)
      else match AiHelper.ExtractJsonCandidate(text.value)
        case None => Failure(NoJsonError)
        case Some(candidate) =>
          match parse(candidate)
          case Failure(error) => Failure(error)
          case Success(parsed) =>
            if !Truthy(Get(parsed, "problem_text")) || Get(parsed, "final_answer").None? then
              Failure(MissingKeysError)
            else match FinalAnswer(parsed)
              case Failure(error) => Failure(error)
              case Success(finalAnswer) =>
                if finalAnswer == NaN then Failure(NotNumericError)
                else Success(NewSession(parsed["problem_text"], finalAnswer))
  }

  /**
   * The whole handler, with the store's answer to the insert as `insert`. An insert is sent only
   * when the guard chain passes; the route answers 200 with the stored row exactly when that
   * insert succeeds, and 500 otherwise.
   */
  function GenerateProblem(reply: Reply, parse: string -> Result<Object, string>, insert: Result<Session, string>)
    : (g: Generated)
    ensures g.attemptedInsert.Some? <==> Validate(reply, parse).Success?
    ensures g.attemptedInsert.Some? ==> g.attemptedInsert.value == Validate(reply, parse).value
    ensures g.response.Ok? <==> g.attemptedInsert.Some? && insert.Success?
    ensures g.response.Ok? ==> g.response.body == insert.value
    ensures g.response.Error? ==> g.response.status == InternalServerError
    ensures g.response.Error? && g.attemptedInsert.Some? ==> g.response.message == SaveError
    ensures g.attemptedInsert.None? ==> g.response == Error(InternalServerError, Validate(reply, parse).error)
  {
    match Validate(reply, parse)
    case Failure(error) => Generated(Error(InternalServerError, error), None)
    case Success(row) =>
      var response := match insert
        case Failure(_) => Error(InternalServerError, SaveError)
        case Success(stored) => Ok(stored);
      Generated(response, Some(row))
  }

  /**
   * A reply that wraps one valid object in prose sends that object's `problem_text` and numeric
   * `final_answer` to the insert, the prose around it ignored.
   */
  lemma ProseAroundObjectIsStripped(pre: string, inner: string, post: string,
                                    parse: string -> Result<Object, string>, insert: Result<Session, string>)
    requires forall k :: 0 <= k < |pre| ==> pre[k] != '{'
    requires forall k :: 0 <= k < |post| ==> post[k] != '}'
    requires parse("{" + inner + "}").Success?
    requires HasRequiredKeys(parse("{" + inner + "}").value) && AnswerIsNumber(parse("{" + inner + "}").value)
    ensures var o := parse("{" + inner + "}").value;
      GenerateProblem(Replied(Some(pre + "{" + inner + "}" + post)), parse, insert).attemptedInsert
        == Some(NewSession(o["problem_text"], FinalAnswer(o).value))
  {
    AiHelper.ExtractSurrounded(pre, inner, post);
  }

  /**
   * The example object of the generation prompt, wrapped in prose: the prose is dropped and the row
   * sent to the insert holds its problem text and the answer 15.
   */
  lemma BakeryExample(parse: string -> Result<Object, string>, insert: Result<Session, string>)
    requires parse(BakeryObject) == Success(map["problem_text" := JString(BakeryProblem), "final_answer" := JNumber(15.0)])
    ensures GenerateProblem(Replied(Some("Sure! " + BakeryObject + " Hope that helps!")), parse, insert).attemptedInsert
              == Some(NewSession(JString(BakeryProblem), Finite(15.0)))
  {
    var o := map["problem_text" := JString(BakeryProblem), "final_answer" := JNumber(15.0)];
    assert |BakeryProblem| > 0;
    assert "Sure! " + BakeryObject + " Hope that helps!" == "Sure! " + "{" + BakeryInner + "}" + " Hope that helps!";
    ProseAroundObjectIsStripped("Sure! ", BakeryInner, " Hope that helps!", parse, insert);
  }

  const BakeryProblem: string := "A bakery sold 45 cupcakes..."
  const BakeryInner: string := "\"problem_text\":\"" + BakeryProblem + "\",\"final_answer\":15"
  const BakeryObject: string := "{" + BakeryInner + "}"
}
