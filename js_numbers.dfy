/**
 * JavaScript numbers as the routes use them: the value `Number(x)` produces and `===` compares.
 * Finite values are exact reals; IEEE-754 rounding, overflow and the sign of zero are not modelled.
 */
module JsNumbers {
  import opened Wrappers
  import opened JsText

  datatype Num = NaN | Finite(value: real) | PosInfinity | NegInfinity

  /** `a === b` on numbers: equality, except that NaN equals nothing, not even itself. */
  predicate StrictEquals(a: Num, b: Num)
    ensures StrictEquals(a, b) <==> a != NaN && a == b
  {
    match (a, b)
    case (Finite(x), Finite(y)) => x == y
    case (PosInfinity, PosInfinity) => true
    case (NegInfinity, NegInfinity) => true
    case _ => false
  }

  /** Unary minus. */
  function Negate(n: Num): Num
  {
    match n
    case NaN => NaN
    case Finite(x) => Finite(-x)
    case PosInfinity => NegInfinity
    case NegInfinity => PosInfinity
  }

  /** The value of a digit character in bases up to 36; 36 for any other character. */
  function Digit(c: char): (d: nat)
    ensures d <= 36
  {
    if '0' <= c <= '9' then c as nat - '0' as nat
    else if 'a' <= c <= 'z' then c as nat - 'a' as nat + 10
    else if 'A' <= c <= 'Z' then c as nat - 'A' as nat + 10
    else 36
  }

  predicate AllDigits(s: string, radix: nat)
  {
    forall k :: 0 <= k < |s| ==> Digit(s[k]) < radix
  }

  /** The value of a numeral written most significant digit first. */
  function DigitsValue(s: string, radix: nat): nat
    requires AllDigits(s, radix)
  {
    if s == [] then 0 else DigitsValue(s[..|s| - 1], radix) * radix + Digit(s[|s| - 1])
  }

  function Pow10(n: nat): (p: nat)
    ensures p >= 1
  {
    if n == 0 then 1 else 10 * Pow10(n - 1)
  }

  /** `m` times ten to the power `e`, for an integer exponent of either sign. */
  function Scale(m: nat, e: int): real
  {
    if e >= 0 then (m * Pow10(e)) as real else m as real / Pow10(-e) as real
  }

  /** The length of the longest prefix of `s` made of decimal digits. */
  function SpanDigits(s: string): (n: nat)
    ensures n <= |s| && AllDigits(s[..n], 10)
    ensures n < |s| ==> Digit(s[n]) >= 10
  {
    if s != [] && Digit(s[0]) < 10 then
      var n := 1 + SpanDigits(s[1..]);
      assert s[..n] == [s[0]] + s[1..][..n - 1];
      n
    else 0
  }

  /** The exponent part after `e`/`E`: an optional sign and at least one decimal digit, nothing else. */
  function ExponentValue(s: string): Option<int>
  {
    var sign := if s != [] && (s[0] == '+' || s[0] == '-') then 1 else 0;
    var digits := s[sign..];
    if digits != [] && AllDigits(digits, 10) then
      var v: int := DigitsValue(digits, 10);
      Some(if sign == 1 && s[0] == '-' then -v else v)
    else None
  }

  /**
   * The value of an unsigned StrUnsignedDecimalLiteral other than `Infinity`: digits, an optional
   * `.` with more digits (at least one digit in all), then an optional exponent.
   */
  function DecimalValue(u: string): Option<real>
  {
    var n1 := SpanDigits(u);
    var intPart := u[..n1];
    var rest := u[n1..];
    var hasDot := rest != [] && rest[0] == '.';
    var afterDot := if hasDot then rest[1..] else rest;
    var n2 := if hasDot then SpanDigits(afterDot) else 0;
    var fracPart := afterDot[..n2];
    var tail := afterDot[n2..];
    if intPart == [] && fracPart == [] then None
    else
      var exponent := if tail == [] then Some(0)
                      else if tail[0] == 'e' || tail[0] == 'E' then ExponentValue(tail[1..])
                      else None;
      match exponent
      case None => None
      case Some(e) =>
        assert AllDigits(intPart + fracPart, 10);
        Some(Scale(DigitsValue(intPart + fracPart, 10), e - |fracPart|))
  }

  function UnsignedDecimal(u: string): Num
  {
    if u == "Infinity" then PosInfinity
    else match DecimalValue(u)
      case Some(v) => Finite(v)
      case None => NaN
  }

  /** A `0x`, `0o` or `0b` literal: at least one digit of the radix and nothing else. */
  function RadixInteger(ds: string, radix: nat): Num
  {
    if ds != [] && AllDigits(ds, radix) then Finite(DigitsValue(ds, radix) as real) else NaN
  }

  /**
   * `Number(s)` for a string: surrounding whitespace is ignored, a blank string is 0, and a string
   * that is not a numeric literal is NaN.
   */
  function StringToNumber(s: string): (n: Num)
    ensures AllWhiteSpace(s) ==> n == Finite(0.0)
  {
    var t := Trim(s);
    if t == [] then Finite(0.0)
    else if |t| >= 2 && t[0] == '0' && (t[1] == 'x' || t[1] == 'X') then RadixInteger(t[2..], 16)
    else if |t| >= 2 && t[0] == '0' && (t[1] == 'o' || t[1] == 'O') then RadixInteger(t[2..], 8)
    else if |t| >= 2 && t[0] == '0' && (t[1] == 'b' || t[1] == 'B') then RadixInteger(t[2..], 2)
    else if t[0] == '+' then UnsignedDecimal(t[1..])
    else if t[0] == '-' then Negate(UnsignedDecimal(t[1..]))
    else UnsignedDecimal(t)
  }

  function DigitChar(d: nat): (c: char)
    requires d < 10
    ensures Digit(c) == d && !IsWhiteSpace(c)
  {
    "0123456789"[d]
  }

  /** The plain decimal numeral of a natural number: its digits, most significant first, with no sign. */
  function DecimalString(n: nat): (s: string)
    ensures s != [] && AllDigits(s, 10)
    ensures Digit(s[0]) < 10 && !IsWhiteSpace(s[0]) && !IsWhiteSpace(s[|s| - 1])
    ensures |s| >= 2 ==> s[0] != '0'
  {
    if n < 10 then [DigitChar(n)]
    else
      var s := DecimalString(n / 10) + [DigitChar(n % 10)];
      assert s[0] == DecimalString(n / 10)[0];
      s
  }

  lemma {:induction false} DecimalStringValue(n: nat)
    ensures DigitsValue(DecimalString(n), 10) == n
  {
    if n >= 10 {
      var s := DecimalString(n);
      assert s[..|s| - 1] == DecimalString(n / 10);
      DecimalStringValue(n / 10);
    }
  }

  /** A plain run of decimal digits is read as the integer it denotes. */
  lemma DecimalValueOfDigits(d: string)
    requires d != [] && AllDigits(d, 10)
    ensures DecimalValue(d) == Some(DigitsValue(d, 10) as real)
  {
    SpanAllDigits(d);
    var m := DigitsValue(d, 10);
    assert d[..|d|] == d && d[|d|..] == [];
    assert d + [] == d;
    assert Scale(m, 0) == m as real;
  }

  lemma {:induction false} SpanAllDigits(d: string)
    requires AllDigits(d, 10)
    ensures SpanDigits(d) == |d|
  {
    if d != [] {
      SpanAllDigits(d[1..]);
    }
  }

  /** Reading back the decimal numeral of `n`, with any whitespace padding, gives `n`. */
  lemma DecimalStringRoundTrip(pre: string, n: nat, post: string)
    requires AllWhiteSpace(pre) && AllWhiteSpace(post)
    ensures StringToNumber(pre + DecimalString(n) + post) == Finite(n as real)
  {
    var d := DecimalString(n);
    var w := pre + d + post;
    TrimPadded(pre, d, post);
    assert Trim(w) == d;
    assert d[0] != '+' && d[0] != '-' && (|d| >= 2 ==> d[0] != '0') by { assert Digit(d[0]) < 10; }
    assert StringToNumber(w) == UnsignedDecimal(d);
    assert d != "Infinity" by { assert Digit(d[0]) < 10; }
    DecimalValueOfDigits(d);
    DecimalStringValue(n);
  }
}
