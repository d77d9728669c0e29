/** The two tables' rows as the store returns them (the shapes of types/math.ts). */
module MathTypes {
  import opened Wrappers

  /** A math_problem_sessions row: one generated problem and its answer. */
  datatype Session = Session(
    id: string,
    problem_text: string,
    correct_answer: real,
    difficulty: Option<string>,
    created_at: Option<string>)

  /** A math_problem_submissions row: one graded answer to a session. */
  datatype Submission = Submission(
    id: string,
    session_id: string,
    user_answer: string,
    is_correct: Option<bool>,
    feedback_text: Option<string>,
    created_at: Option<string>)
}
