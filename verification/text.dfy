/**
 * String helpers shared by the validator, the repository and the routes:
 * the ECMAScript white-space set, `String.prototype.trim`, an ASCII
 * `toLowerCase` and `String.prototype.includes`.
 */
module Text {

  /**
   * The characters ECMAScript counts as WhiteSpace or LineTerminator.
   * It is the set matched by `\s` in a regular expression and the set
   * that `trim` removes.
   */
  predicate IsWhitespace(c: char) {
    || c == '\t' || c == '\n' || c == '\U{B}' || c == '\U{C}' || c == '\r'
    || c == ' ' || c == '\U{A0}' || c == '\U{1680}'
    || ('\U{2000}' <= c <= '\U{200A}')
    || c == '\U{2028}' || c == '\U{2029}' || c == '\U{202F}' || c == '\U{205F}'
    || c == '\U{3000}' || c == '\U{FEFF}'
  }

  /** Every character of `s` is white space (vacuously so for ""). */
  predicate AllWhitespace(s: string) {
    forall k | 0 <= k < |s| :: IsWhitespace(s[k])
  }

  /** No character of `s` is white space. */
  predicate NoWhitespace(s: string) {
    forall k | 0 <= k < |s| :: !IsWhitespace(s[k])
  }

  /** The index of the first non-white-space character at or after `from`, or `|s|`. */
  function SkipForward(s: string, from: nat): (i: nat)
    requires from <= |s|
    ensures from <= i <= |s|
    ensures forall k | from <= k < i :: IsWhitespace(s[k])
    ensures i < |s| ==> !IsWhitespace(s[i])
    decreases |s| - from
  {
    if from == |s| || !IsWhitespace(s[from]) then from else SkipForward(s, from + 1)
  }

  /**
   * Scanning back from `hi`, no further than `lo`: the end of the last
   * non-white-space character, or `lo`.
   */
  function SkipBackward(s: string, lo: nat, hi: nat): (j: nat)
    requires lo <= hi <= |s|
    ensures lo <= j <= hi
    ensures forall k | j <= k < hi :: IsWhitespace(s[k])
    ensures j > lo ==> !IsWhitespace(s[j - 1])
    decreases hi
  {
    if hi == lo || !IsWhitespace(s[hi - 1]) then hi else SkipBackward(s, lo, hi - 1)
  }

  /** Where the trimmed part of `s` starts. */
  function TrimStart(s: string): nat {
    SkipForward(s, 0)
  }

  /** Where the trimmed part of `s` ends. */
  function TrimEnd(s: string): nat {
    SkipBackward(s, TrimStart(s), |s|)
  }

  /**
   * `String.prototype.trim`: the contiguous middle part of `s` left once the
   * white space at both ends is gone. It is empty exactly when `s` is all
   * white space.
   */
  function Trim(s: string): (r: string)
    ensures TrimStart(s) <= TrimEnd(s) <= |s| && r == s[TrimStart(s)..TrimEnd(s)]
    ensures forall k | 0 <= k < TrimStart(s) :: IsWhitespace(s[k])
    ensures forall k | TrimEnd(s) <= k < |s| :: IsWhitespace(s[k])
    ensures r != [] ==> !IsWhitespace(r[0]) && !IsWhitespace(r[|r| - 1])
    ensures r == [] <==> AllWhitespace(s)
  {
    var i := TrimStart(s);
    var j := TrimEnd(s);
    assert i < j ==> s[i..j][0] == s[i] && s[i..j][j - i - 1] == s[j - 1];
    s[i..j]
  }

  /** A string with no white space at either end is its own trim. */
  lemma TrimUnpadded(s: string)
    requires s != [] ==> !IsWhitespace(s[0]) && !IsWhitespace(s[|s| - 1])
    ensures Trim(s) == s
  {
    if s != [] {
      assert TrimStart(s) == 0;
      assert TrimEnd(s) == |s|;
    }
  }

  /** A string without white space is its own trim. */
  lemma TrimNoWhitespace(s: string)
    requires NoWhitespace(s)
    ensures Trim(s) == s
  {
    TrimUnpadded(s);
  }

  /** Trailing white space after an unpadded string is what `trim` removes. */
  lemma TrimDropsTrailing(a: string, b: string)
    requires a != [] && !IsWhitespace(a[0]) && !IsWhitespace(a[|a| - 1])
    requires AllWhitespace(b)
    ensures Trim(a + b) == a
  {
    var s := a + b;
    assert s[0] == a[0] && s[|a| - 1] == a[|a| - 1];
    assert TrimStart(s) == 0;
    assert forall k | |a| <= k < |s| :: s[k] == b[k - |a|];
    assert TrimEnd(s) == |a|;
    assert s[..|a|] == a;
  }

  /** ASCII upper-case letters are lowered; every other character is kept. */
  function LowerChar(c: char): char {
    if 'A' <= c <= 'Z' then (c as int + 32) as char else c
  }

  /** `String.prototype.toLowerCase`, restricted to the ASCII letters. */
  function ToLower(s: string): (r: string)
    ensures |r| == |s|
    ensures forall k | 0 <= k < |s| :: r[k] == LowerChar(s[k])
  {
    seq(|s|, k requires 0 <= k < |s| => LowerChar(s[k]))
  }

  /** `String.prototype.includes`: `t` occurs in `s` as a contiguous run. */
  predicate Contains(s: string, t: string) {
    exists i | 0 <= i <= |s| :: OccursAt(s, t, i)
  }

  /** `t` occurs in `s` starting at index `i`. */
  predicate OccursAt(s: string, t: string, i: nat) {
    i + |t| <= |s| && s[i..i + |t|] == t
  }
}
