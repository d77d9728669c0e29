/**
 * The whitespace that ECMAScript's `String.prototype.trim` and `Number(string)` strip:
 * the WhiteSpace and LineTerminator code points.
 */
module JsText {

  predicate IsWhiteSpace(c: char)
  {
    || c == '\t' || c == '\n' || c == '\U{000B}' || c == '\U{000C}' || c == '\r' || c == ' '
    || c == '\U{00A0}' || c == '\U{1680}' || ('\U{2000}' <= c <= '\U{200A}')
    || c == '\U{2028}' || c == '\U{2029}' || c == '\U{202F}' || c == '\U{205F}'
    || c == '\U{3000}' || c == '\U{FEFF}'
  }

  predicate AllWhiteSpace(s: string)
  {
    forall k :: 0 <= k < |s| ==> IsWhiteSpace(s[k])
  }

  /** Neither end of `s` is whitespace (vacuously true of the empty string). */
  predicate Trimmed(s: string)
  {
    s == [] || (!IsWhiteSpace(s[0]) && !IsWhiteSpace(s[|s| - 1]))
  }

  /** `r` is `s[i..i + |r|]` and every character of `s` before and after it is whitespace. */
  predicate SliceBetweenWhiteSpace(s: string, i: int, r: string)
  {
    && 0 <= i <= i + |r| <= |s| && r == s[i..i + |r|]
    && (forall k :: 0 <= k < i ==> IsWhiteSpace(s[k]))
    && (forall k :: i + |r| <= k < |s| ==> IsWhiteSpace(s[k]))
  }

  /** The first index at or after `i` whose character is not whitespace (`|s|` when there is none). */
  function SkipWhiteSpace(s: string, i: nat): (k: nat)
    requires i <= |s|
    ensures i <= k <= |s|
    ensures forall m :: i <= m < k ==> IsWhiteSpace(s[m])
    ensures k < |s| ==> !IsWhiteSpace(s[k])
    decreases |s| - i
  {
    if i < |s| && IsWhiteSpace(s[i]) then SkipWhiteSpace(s, i + 1) else i
  }

  /** Moving down from `j`, the first end `k > lo` whose character `s[k - 1]` is not whitespace (`lo` when there is none). */
  function SkipWhiteSpaceBack(s: string, lo: nat, j: nat): (k: nat)
    requires lo <= j <= |s|
    ensures lo <= k <= j
    ensures forall m :: k <= m < j ==> IsWhiteSpace(s[m])
    ensures k > lo ==> !IsWhiteSpace(s[k - 1])
    decreases j - lo
  {
    if j > lo && IsWhiteSpace(s[j - 1]) then SkipWhiteSpaceBack(s, lo, j - 1) else j
  }

  /**
   * `s.trim()`: the slice of `s` left after removing whitespace at both ends. The result has no
   * whitespace at either end, everything outside it is whitespace, and it is empty exactly when
   * `s` is all whitespace.
   */
  function Trim(s: string): (r: string)
    ensures Trimmed(r)
    ensures exists i :: SliceBetweenWhiteSpace(s, i, r)
    ensures r == [] <==> AllWhiteSpace(s)
  {
    var i := SkipWhiteSpace(s, 0);
    var j := SkipWhiteSpaceBack(s, i, |s|);
    var r := s[i..j];
    assert SliceBetweenWhiteSpace(s, i, r);
    assert r != [] ==> r[0] == s[i] && r[|r| - 1] == s[j - 1];
    r
  }

  /** A string with no whitespace at its ends is its own trim. */
  lemma TrimOfTrimmed(s: string)
    requires Trimmed(s)
    ensures Trim(s) == s
  {
    TrimPadded("", s, "");
    assert "" + s + "" == s;
  }

  /** Trimming twice is trimming once. */
  lemma TrimIdempotent(s: string)
    ensures Trim(Trim(s)) == Trim(s)
  {
    TrimOfTrimmed(Trim(s));
  }

  /** Whitespace padding around a string with trimmed ends is exactly what `trim` removes. */
  lemma TrimPadded(pre: string, s: string, post: string)
    requires AllWhiteSpace(pre) && AllWhiteSpace(post) && Trimmed(s)
    ensures Trim(pre + s + post) == s
  {
    var w := pre + s + post;
    var i := SkipWhiteSpace(w, 0);
    var j := SkipWhiteSpaceBack(w, i, |w|);
    assert forall k :: 0 <= k < |pre| ==> w[k] == pre[k];
    assert forall k :: 0 <= k < |s| ==> w[|pre| + k] == s[k];
    assert forall k :: 0 <= k < |post| ==> w[|pre| + |s| + k] == post[k];
    if s == [] {
      assert AllWhiteSpace(w);
    } else {
      assert i == |pre|;
      assert j == |pre| + |s|;
      assert w[i..j] == s;
    }
  }
}
