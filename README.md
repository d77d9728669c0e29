# Math problem generator: AI helper and API routes

A Dafny model of the server side of a Primary 5 maths practice app. The app asks a Gemini model
for a word problem, stores it as a *session*, grades a learner's answer against the stored answer,
asks the model for feedback and stores the graded *submission*. The model covers three parts:

- `callGemini` (`utils/ai-helper.ts`) is the retrying wrapper around the model. It has one attempt
  per loop pass, skips blank replies and, in JSON mode, skips replies with no parseable `{...}`
  candidate. Its model is the imperative method `AiHelper.CallGemini`, proved against the pure
  per-attempt function `AiHelper.Attempt`.
- `POST /api/math-problem` (`app/api/math-problem/route.ts`) makes one model call, runs a chain of
  guards (empty text, no `{...}`, a parse error, missing keys, an answer `Number()` throws on, a NaN
  answer) and inserts a session.
  Its model is `ProblemRoute.Validate` plus `ProblemRoute.GenerateProblem`.
- `POST /api/math-problem/submit` (`app/api/math-problem/submit/route.ts`) runs a body check, a
  session lookup, grading by `Number(user_answer) === Number(correct_answer)`, a feedback call with
  a fixed fallback, and the submission insert. Its model is `SubmitRoute.Submit`.

Everything outside the handlers' own logic becomes a parameter:

| parameter | stands for |
|---|---|
| `generate(k)` | the model's reply to attempt `k` |
| `parse` | `JSON.parse` |
| `body` | the result of `req.json()` |
| `lookup` / `insert` | the store's answers |
| `reply` | the generation route's `generateContent` outcome: a thrown error or the reply's `text` (`ProblemRoute.Validate`, `ProblemRoute.GenerateProblem`) |
| `feedback` | the submit route's feedback request: a thrown `fetch`/`.json()` or the candidate's `text` (`SubmitRoute.Submit`) |

The JavaScript semantics the handlers depend on are modelled explicitly:

- `String.prototype.trim` over the full JavaScript whitespace set (`JsText`).
- Truthiness of JSON values (`Json.Truthy`).
- `Number()` on JSON values and strings, including blank strings, `Infinity`, `0x`/`0o`/`0b`
  literals, and decimals with fraction and exponent (`JsNumbers`, `Json.ToNumber`). It also models
  the `TypeError` `Number()` throws on a parsed object with its own `toString` key, or an array
  holding one, which has no primitive form. Both routes' `catch` turns that error into a 500.
- `===` on numbers, where NaN equals nothing (`JsNumbers.StrictEquals`).
- The regular expression `\{[\s\S]*\}`, whose leftmost greedy match runs from the first `{` to the
  last `}` (`AiHelper.ExtractJsonCandidate`).

Behaviour of the code worth noting:

- A `generateContent` call that throws inside `callGemini` is not caught, so it ends the call with
  that exception instead of being retried (`utils/ai-helper.ts:23-37`, no `try` around it).
- Neither route goes through `callGemini`. The generation route calls the model once with no retry
  and does not trim the text. A whitespace-only reply therefore passes the empty-text guard and
  fails with "AI did not return valid JSON" (`app/api/math-problem/route.ts:30-45`).
- The generation route reads the key `final_answer` and stores it as `correct_answer`.
- The feedback fallback is one fixed sentence, whatever the verdict
  (`app/api/math-problem/submit/route.ts:85-87`).
- When the feedback request itself throws (`fetch` or `.json()`), the submit route answers 500
  and stores no submission, because the fallback covers only a missing or blank text.
- A `final_answer` or `user_answer` with no primitive form (an object with its own `toString`
  key) makes `Number()` throw. The route then answers 500 with "Cannot convert object to primitive
  value", not "final_answer must be numeric"; the submit route sends no prompt and stores nothing.
- `retries` counts attempts, not retries. The loop runs for `attempt` in `1..retries`, so the
  default of 2 makes at most two calls and `retries <= 0` makes none.

## Model

| member | source | states |
|---|---|---|
| JsText.Trim | utils/ai-helper.ts:39 | `trim()` returns a slice of its input with no whitespace at either end; everything cut off is whitespace; the result is empty exactly when the input is all whitespace |
| JsText.TrimPadded | utils/ai-helper.ts:39 | trimming whitespace padding around a string with non-blank ends gives back exactly that string |
| JsText.TrimOfTrimmed | utils/ai-helper.ts:39 | a string with no whitespace at its ends is unchanged by `trim()` |
| JsText.TrimIdempotent | app/api/math-problem/submit/route.ts:86 | trimming an already trimmed text changes nothing |
| AiHelper.FirstIndexOf | utils/ai-helper.ts:46 | the index found holds the character and no earlier index does; `None` exactly when the character is absent |
| AiHelper.LastIndexOf | utils/ai-helper.ts:46 | the index found holds the character and no later index does; `None` exactly when the character is absent |
| AiHelper.ExtractJsonCandidate | utils/ai-helper.ts:46-50 | `text.match(/\{[\s\S]*\}/)` fails exactly when no `{` has a `}` after it; otherwise `match[0]` is the leftmost, greedy (longest) match |
| AiHelper.LeftmostGreedyMatchUnique | utils/ai-helper.ts:46 | the leftmost greedy match of a string is unique, so `match[0]` is well defined |
| AiHelper.ExtractSurrounded | utils/ai-helper.ts:46-52 | prose with no `{` before an object and no `}` after it is stripped: the candidate is exactly the braced text, whatever braces it holds inside |
| AiHelper.MaxAttempts | utils/ai-helper.ts:22 | the loop `for (attempt = 1; attempt <= retries; attempt++)` runs `retries` times when `retries` is positive and not at all otherwise |
| AiHelper.Attempt | utils/ai-helper.ts:23-59 | one loop pass: a thrown call ends the call, and a reply never throws; blank or missing text is skipped; text mode returns the trimmed text; JSON mode skips a reply with no `{...}` match or whose match does not parse, and returns the parsed object of a match that parses together with the trimmed text |
| AiHelper.CallGemini | utils/ai-helper.ts:18-63 | at most `retries` attempts; every attempt before the last was skipped; the call ends with the first attempt that is not skipped, or, once all `retries` attempts were skipped, throws "Gemini failed to produce a valid response after retries"; with `retries <= 0` it throws without calling the model |
| AiHelper.BlankRepliesUseEveryAttempt | utils/ai-helper.ts:20-62 | a model that only returns blank text is called exactly `retries` times, after which the call throws |
| AiHelper.BlankRepliesWithDefaultRetries | utils/ai-helper.ts:20-62 | with the default `retries = 2`, a model that only returns blank text is called twice and the call throws |
| AiHelper.UnparsableReplyIsRetried | utils/ai-helper.ts:45-56 | in JSON mode with the default `retries`, a reply whose object does not parse is skipped and the next reply whose object parses is returned with its parsed object and text |
| AiHelper.BracedReply | utils/ai-helper.ts:39-46 | a reply that is exactly one braced object is unchanged by `trim()` and is its own `{...}` match |
| JsNumbers.StrictEquals | app/api/math-problem/submit/route.ts:48 | `===` on numbers holds exactly when both sides are the same number other than NaN |
| JsNumbers.StringToNumber | app/api/math-problem/submit/route.ts:47-48 | `Number(s)` of a blank or whitespace-only string is 0 |
| JsNumbers.DecimalString | app/api/math-problem/submit/route.ts:48 | the plain decimal numeral of a natural number is a non-empty run of digits with no leading zero |
| JsNumbers.DecimalStringValue | app/api/math-problem/submit/route.ts:48 | the digits of the decimal numeral of `n` denote `n` |
| JsNumbers.DecimalValueOfDigits | app/api/math-problem/submit/route.ts:48 | a plain run of decimal digits converts to the integer it denotes |
| JsNumbers.SpanAllDigits | app/api/math-problem/submit/route.ts:48 | the digit prefix of an all-digit string is the whole string |
| JsNumbers.DecimalStringRoundTrip | app/api/math-problem/submit/route.ts:47-48 | `Number()` of the decimal numeral of `n`, with any whitespace padding, is `n` |
| Json.Get | app/api/math-problem/route.ts:48 | for a key no prototype defines, as the four keys the routes read, reading it from a parsed object is `undefined` exactly when the object lacks the key, and otherwise the value stored under it |
| Json.Property | app/api/math-problem/submit/route.ts:23 | for a key no prototype defines, as `session_id` and `user_answer`, destructuring it from an object body reads that key, and from any other JSON body gives `undefined` |
| Json.Truthy | app/api/math-problem/route.ts:48 | `!x` is false exactly for values other than `undefined`, `null`, `false`, `0` and `""` |
| Json.ToNumber | app/api/math-problem/route.ts:52 | `Number(x)` throws the `TypeError` exactly when `x` has no primitive form (an object with its own `toString` key, or an array holding one at any depth); otherwise `undefined`, an object and an array of two or more elements convert to NaN |
| Json.ArrayToNumber | app/api/math-problem/submit/route.ts:48 | `Number()` of an array throws exactly when one of its elements, at any depth, has no primitive form |
| Json.SingletonConvertsLikeElement | app/api/math-problem/submit/route.ts:48 | a one-element array converts like its element, except a boolean, which gives NaN |
| ProblemRoute.Validate | app/api/math-problem/route.ts:30-55 | the guards in source order (thrown call, no text, no `{...}` match, parse error with its message, missing `problem_text`/`final_answer`, a `final_answer` whose `Number()` throws, NaN answer) each give their own error; a row is produced exactly when every guard passes, holding `problem_text` as parsed and `Number(final_answer)`, never NaN |
| ProblemRoute.GenerateProblem | app/api/math-problem/route.ts:27-78 | an insert is sent exactly when validation passes, carrying the validated row; the route answers 200 with the stored row exactly when the insert succeeds; every other answer is a 500 with the guard's message or "Failed to save to database" |
| ProblemRoute.ProseAroundObjectIsStripped | app/api/math-problem/route.ts:41-63 | for a reply made of prose with no `{`, one valid object, and prose with no `}`, the row sent to the insert holds that object's `problem_text` and `Number(final_answer)` |
| ProblemRoute.BakeryExample | app/api/math-problem/route.ts:16-25 | the prompt's example object `{"problem_text":"A bakery sold 45 cupcakes...","final_answer":15}`, wrapped in prose, is sent to the insert with that problem text and the answer 15 |
| SubmitRoute.Grade | app/api/math-problem/submit/route.ts:47-48 | grading throws exactly when the answer has no primitive form; otherwise the answer is correct exactly when `Number(user_answer)` is the stored answer, so an answer that converts to NaN is never correct |
| SubmitRoute.Verdict | app/api/math-problem/submit/route.ts:57 | the prompt's `Result:` word is "Correct" exactly when the answer was graded correct |
| SubmitRoute.FeedbackText | app/api/math-problem/submit/route.ts:85-87 | the feedback is the model's trimmed text when that is not blank, otherwise the fixed fallback; it is never empty and has no whitespace at either end |
| SubmitRoute.FeedbackTextIsStable | app/api/math-problem/submit/route.ts:85-87 | passing stored feedback through the same step again leaves it unchanged |
| SubmitRoute.Submit | app/api/math-problem/submit/route.ts:20-122 | an unreadable or `null` body gives 500; missing fields give 400 before any lookup; an unknown session gives 404; the prompt is sent exactly when the session was found, with the grade as its verdict; an answer whose `Number()` throws gives 500 with that error and nothing sent; a thrown feedback request gives 500 and no insert; the insert is sent exactly when the model answered, with the id, `Number(user_answer)`, the grade and the feedback; the route answers 200 exactly when the insert succeeds, repeating the feedback and grade, and 500 "Failed to save submission" otherwise |
| SubmitRoute.TypedNumeralIsCorrect | app/api/math-problem/submit/route.ts:47-48 | a learner who types the whole-number answer as a numeral, with any surrounding whitespace, is graded correct |
| SubmitRoute.NumericAnswerGraded | app/api/math-problem/submit/route.ts:14-18 | an answer sent as a JSON number, as the documented request body does, is graded correct exactly when it equals the stored answer |
| SubmitRoute.BlankAnswerGradedAsZero | app/api/math-problem/submit/route.ts:25-48 | a blank string answer passes the field check (with a truthy `session_id`) and is graded correct exactly when the stored answer is 0 |
| SubmitRoute.ObjectAnswerThrows | app/api/math-problem/submit/route.ts:47-48 | an answer that is an object with its own `toString` key ends the request with 500 and the `TypeError`'s message, with nothing sent to the model or the store |

## Left out

- The model name, the `thinking` option and its `thinkingBudget`, and the other transport configuration (`utils/ai-helper.ts:23-37`) have no effect on the control flow modelled here.
- The module-load check for `GOOGLE_API_KEY` and the `GEMINI_MODEL` defaults run before any handler.
- Console logging has no effect on results.
- The text of the prompts is left out. For feedback, only the values the prompt is built from are modelled (`SubmitRoute.FeedbackPrompt`).
- IEEE-754 arithmetic is not modelled: finite numbers are exact reals, with no rounding, no overflow to `Infinity` and no negative zero.
- `JSON.parse` and `req.json()` are opaque parameters. Their grammar is not modelled.
- The problem route's `JSON.parse` only ever sees text that starts with `{` and ends with `}`, so the model takes it to return an object. That `parse` parameter returns an `Object`.
- The Supabase client is a parameter: `lookup` and `insert` are its answers. Its queries, the database schema and the generated ids and timestamps are not modelled.
- The feedback reply's shape (`candidates[0].content.parts[0].text`) becomes `Gemini.Reply`: either absent text or a string. A `text` field that is not a string would make `trim` throw; that case is not modelled.
- Json.Get, Json.Property: model reads of keys no prototype defines, which covers every key the routes read; inherited keys (`toString`, `constructor`, a string's `length`) are not modelled.
- The history route, the UI pages and the syllabus data are not part of this model.
- AiHelper.CallGemini: the reply to an attempt depends only on the attempt number, through the `generate` parameter. `retries` is an integer: a fractional `retries` is not modelled.
- JsNumbers.StringToNumber: its contract states only the blank-string case. Decimal numerals are covered by `JsNumbers.DecimalStringRoundTrip`; the hexadecimal, octal, binary and `Infinity` forms are defined but have no lemma of their own.
