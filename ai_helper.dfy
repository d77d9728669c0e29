/** One call to the model's `generateContent`: it throws, or it answers with a `text` that may be absent. */
module Gemini {
  import opened Wrappers

  datatype Reply = Threw(message: string) | Replied(text: Option<string>)
}

/**
 * `callGemini`: calls the model up to `retries` times, skipping blank answers and, in JSON mode,
 * answers without a parseable `{...}` candidate, and returns the first usable answer.
 */
module AiHelper {
  import opened Wrappers
  import opened JsText
  import opened Json
  import opened Gemini

  /** The default of the `retries` option. */
  const DefaultRetries: int := 2

  const ExhaustedMessage: string := "Gemini failed to produce a valid response after retries"

  /** What `callGemini` resolves to: `{ text }` in text mode, `{ parsed, text }` in JSON mode. */
  datatype Answer = TextAnswer(text: string) | JsonAnswer(parsed: Object, text: string)

  /** How a call ends: with an answer, or with an exception and its message. */
  datatype Outcome = Returned(answer: Answer) | Thrown(message: string)

  /** The most attempts a call with this `retries` makes: the `for` loop runs for `attempt` in `1..retries`. */
  function MaxAttempts(retries: int): (n: nat)
    ensures retries <= 0 ==> n == 0
    ensures retries > 0 ==> n == retries
  {
    if retries < 0 then 0 else retries
  }

  /** The index of the first `c` in `s`, or `None` when there is none. */
  function FirstIndexOf(s: string, c: char): (r: Option<nat>)
    ensures r.Some? ==> r.value < |s| && s[r.value] == c && forall k :: 0 <= k < r.value ==> s[k] != c
    ensures r.None? ==> forall k :: 0 <= k < |s| ==> s[k] != c
  {
    if s == [] then None
    else if s[0] == c then Some(0)
    else match FirstIndexOf(s[1..], c)
      case None => None
      case Some(i) => Some(i + 1)
  }

  /** The index of the last `c` in `s`, or `None` when there is none. */
  function LastIndexOf(s: string, c: char): (r: Option<nat>)
    ensures r.Some? ==> r.value < |s| && s[r.value] == c && forall k :: r.value < k < |s| ==> s[k] != c
    ensures r.None? ==> forall k :: 0 <= k < |s| ==> s[k] != c
  {
    if s == [] then None
    else if s[|s| - 1] == c then Some(|s| - 1)
    else LastIndexOf(s[..|s| - 1], c)
  }

  /** The regular expression `\{[\s\S]*\}` matches exactly `s[i..j + 1]`. */
  ghost predicate BraceMatchAt(s: string, i: int, j: int)
  {
    0 <= i < j < |s| && s[i] == '{' && s[j] == '}'
  }

  /**
   * The match `s.match(/\{[\s\S]*\}/)` reports: the leftmost start at which the expression
   * matches, and from there the longest match, since `[\s\S]*` is greedy.
   */
  ghost predicate LeftmostGreedyMatch(s: string, i: int, j: int)
  {
    && BraceMatchAt(s, i, j)
    && (forall i', j' :: BraceMatchAt(s, i', j') ==> i <= i')
    && (forall j' :: BraceMatchAt(s, i, j') ==> j' <= j)
  }

  /**
   * `match?.[0]` for `/\{[\s\S]*\}/`: the text from the first `{` to the last `}` when some `}`
   * follows the first `{`. There is a match exactly when some `{` has a `}` after it, and the
   * one returned is the leftmost, greedy one.
   */
  function ExtractJsonCandidate(s: string): (m: Option<string>)
    ensures m.None? <==> forall i, j :: !BraceMatchAt(s, i, j)
    ensures m.Some? ==> exists i, j :: LeftmostGreedyMatch(s, i, j) && m.value == s[i..j + 1]
  {
    match FirstIndexOf(s, '{')
    case None => None
    case Some(i) =>
      match LastIndexOf(s, '}')
      case None => None
      case Some(j) =>
        if i < j then
          assert LeftmostGreedyMatch(s, i, j);
          Some(s[i..j + 1])
        else None
  }

  /** A string has at most one leftmost greedy match. */
  lemma LeftmostGreedyMatchUnique(s: string, i1: int, j1: int, i2: int, j2: int)
    requires LeftmostGreedyMatch(s, i1, j1) && LeftmostGreedyMatch(s, i2, j2)
    ensures i1 == i2 && j1 == j2
  {
  }

  /**
   * Prose around a single object is stripped: when the text before the first `{` has no `{` and
   * the text after the last `}` has no `}`, the candidate is exactly the braced part, whatever
   * braces it holds inside.
   */
  lemma ExtractSurrounded(pre: string, inner: string, post: string)
    requires forall k :: 0 <= k < |pre| ==> pre[k] != '{'
    requires forall k :: 0 <= k < |post| ==> post[k] != '}'
    ensures ExtractJsonCandidate(pre + "{" + inner + "}" + post) == Some("{" + inner + "}")
  {
    var s := pre + "{" + inner + "}" + post;
    var i, j := |pre|, |pre| + 1 + |inner|;
    assert s[i] == '{' && s[j] == '}';
    assert forall k :: 0 <= k < i ==> s[k] == pre[k];
    assert forall k :: j < k < |s| ==> s[k] == post[k - j - 1];
    assert FirstIndexOf(s, '{') == Some(i);
    assert LastIndexOf(s, '}') == Some(j);
    assert s[i..j + 1] == "{" + inner + "}";
  }

  /**
   * One pass of the loop body on the model's reply: `None` when the attempt is skipped (`continue`),
   * otherwise how the call ends. A thrown `generateContent` is not caught, so it ends the call;
   * a reply never throws: it is skipped or returned. In JSON mode a reply with no `{...}` match or
   * whose match does not parse is skipped, and one whose match parses is returned with the parsed
   * object.
   */
  function Attempt(reply: Reply, expectJson: bool, parse: string -> Result<Object, string>): (r: Option<Outcome>)
    ensures reply.Threw? ==> r == Some(Thrown(reply.message))
    ensures reply.Replied? && (reply.text.None? || AllWhiteSpace(reply.text.value)) ==> r.None?
    ensures r.Some? && r.value.Returned? ==>
              reply.Replied? && reply.text.Some? && r.value.answer.text == Trim(reply.text.value)
              && r.value.answer.text != [] && (r.value.answer.JsonAnswer? <==> expectJson)
    ensures reply.Replied? && reply.text.Some? && !AllWhiteSpace(reply.text.value) && !expectJson ==>
              r == Some(Returned(TextAnswer(Trim(reply.text.value))))
    ensures r.Some? && r.value.Returned? && expectJson ==>
              var text := Trim(reply.text.value);
              exists i, j :: LeftmostGreedyMatch(text, i, j) && parse(text[i..j + 1]) == Success(r.value.answer.parsed)
    ensures reply.Replied? ==> r.None? || r.value.Returned?
    ensures reply.Replied? && reply.text.Some? && !AllWhiteSpace(reply.text.value) && expectJson ==>
              var text := Trim(reply.text.value);
              var candidate := ExtractJsonCandidate(text);
              && (candidate.None? ==> r.None?)
              && (candidate.Some? && parse(candidate.value).Failure? ==> r.None?)
              && (candidate.Some? && parse(candidate.value).Success? ==>
                    r == Some(Returned(JsonAnswer(parse(candidate.value).value, text))))
  {
    match reply
    case Threw(message) => Some(Thrown(message))
    case Replied(raw) =>
      var text := if raw.Some? then Trim(raw.value) else "";
      if text == [] then None
      else if !expectJson then Some(Returned(TextAnswer(text)))
      else match ExtractJsonCandidate(text)
        case None => None
        case Some(candidate) =>
          match parse(candidate)
          case Failure(_) => None
          case Success(parsed) => Some(Returned(JsonAnswer(parsed, text)))
  }

  /**
   * `callGemini(prompt, { expectJson, retries })` against a model whose reply to attempt `k`
   * (counted from 1, as the loop counts) is `generate(k)`, with `parse` standing for `JSON.parse`.
   * `calls` is the number of replies consumed. Attempts `1..calls - 1` were all skipped; the call
   * ends with attempt `calls` if that one was not skipped, and otherwise it has used up every
   * attempt and throws.
   */
  method CallGemini(generate: nat -> Reply, parse: string -> Result<Object, string>, expectJson: bool, retries: int)
    returns (outcome: Outcome, calls: nat)
    ensures calls <= MaxAttempts(retries)
    ensures forall k :: 1 <= k < calls ==> Attempt(generate(k), expectJson, parse).None?
    ensures calls >= 1 && Attempt(generate(calls), expectJson, parse).Some? ==>
              outcome == Attempt(generate(calls), expectJson, parse).value
    ensures calls == 0 || Attempt(generate(calls), expectJson, parse).None? ==>
              calls == MaxAttempts(retries) && outcome == Thrown(ExhaustedMessage)
    ensures retries <= 0 ==> calls == 0 && outcome == Thrown(ExhaustedMessage)
  {
    calls := 0;
    for attempt := 1 to MaxAttempts(retries) + 1
      invariant calls == attempt - 1
      invariant forall k :: 1 <= k < attempt ==> Attempt(generate(k), expectJson, parse).None?
    {
      calls := calls + 1;
      var result := generate(attempt);
      ghost var step := Attempt(result, expectJson, parse);
      if result.Threw? {
        return Thrown(result.message), calls;
      }
      var text := if result.text.Some? then Trim(result.text.value) else "";
      if text == [] {
        assert step.None?;
        continue;
      }
      if expectJson {
        var candidate := ExtractJsonCandidate(text);
        if candidate.None? {
          assert step.None?;
          continue;
        }
        var parsed := parse(candidate.value);
        if parsed.Failure? {
          assert step.None?;
          continue;
        }
        assert step == Some(Returned(JsonAnswer(parsed.value, text)));
        return Returned(JsonAnswer(parsed.value, text)), calls;
      } else {
        assert step == Some(Returned(TextAnswer(text)));
        return Returned(TextAnswer(text)), calls;
      }
    }
    return Thrown(ExhaustedMessage), calls;
  }

  /**
   * A model that only ever answers with blank text is called exactly `retries` times (none when
   * `retries` is not positive), after which the call throws.
   */
  method BlankRepliesUseEveryAttempt(parse: string -> Result<Object, string>, expectJson: bool, retries: int)
    returns (outcome: Outcome, calls: nat)
    ensures calls == MaxAttempts(retries) && outcome == Thrown(ExhaustedMessage)
  {
    outcome, calls := CallGemini(k => Replied(Some(" \n")), parse, expectJson, retries);
  }

  /** With the default `retries`, a model that only returns blank text is called twice. */
  method BlankRepliesWithDefaultRetries(parse: string -> Result<Object, string>, expectJson: bool)
    returns (outcome: Outcome, calls: nat)
    ensures calls == 2 && outcome == Thrown(ExhaustedMessage)
  {
    outcome, calls := BlankRepliesUseEveryAttempt(parse, expectJson, DefaultRetries);
  }

  /**
   * In JSON mode with the default `retries`, a first reply whose object does not parse is skipped
   * and a second whose object parses is returned, with the parsed object and the reply's text.
   */
  method UnparsableReplyIsRetried(parse: string -> Result<Object, string>, bad: string, good: string)
    returns (outcome: Outcome, calls: nat)
    requires parse("{" + bad + "}").Failure? && parse("{" + good + "}").Success?
    ensures calls == 2
    ensures outcome == Returned(JsonAnswer(parse("{" + good + "}").value, "{" + good + "}"))
  {
    var generate := (k: nat) => if k == 1 then Replied(Some("{" + bad + "}")) else Replied(Some("{" + good + "}"));
    BracedReply(bad);
    BracedReply(good);
    outcome, calls := CallGemini(generate, parse, true, DefaultRetries);
    assert Attempt(generate(1), true, parse).None?;
    assert Attempt(generate(2), true, parse).Some?;
  }

  /** A reply that is one braced object is its own trimmed text and its own JSON candidate. */
  lemma BracedReply(inner: string)
    ensures var t := "{" + inner + "}";
            Trim(t) == t && ExtractJsonCandidate(Trim(t)) == Some(t)
  {
    var t := "{" + inner + "}";
    assert t[0] == '{' && t[|t| - 1] == '}';
    TrimOfTrimmed(t);
    ExtractSurrounded("", inner, "");
    assert "" + "{" + inner + "}" + "" == t;
  }
}
