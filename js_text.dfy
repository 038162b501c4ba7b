/** The two JavaScript string built-ins the wrapper applies to a typed reply:
    `String.prototype.trim` and `String.prototype.toLowerCase`. */
module JsText {

  /** The WhiteSpace and LineTerminator code points that `trim` strips
      (ECMAScript 2023, sections 12.2 and 12.3). */
  predicate IsWhite(c: char) {
    c == '\U{9}' || c == '\U{B}' || c == '\U{C}' || c == ' ' || c == '\U{A0}' || c == '\U{FEFF}'
    || c == '\U{1680}' || ('\U{2000}' <= c <= '\U{200A}') || c == '\U{202F}' || c == '\U{205F}'
    || c == '\U{3000}'
    || c == '\n' || c == '\r' || c == '\U{2028}' || c == '\U{2029}'
  }

  predicate AllWhite(s: string) {
    forall k :: 0 <= k < |s| ==> IsWhite(s[k])
  }

  /** Every character of `s` before position `i` and from position `j` on is white space. */
  predicate WhiteOutside(s: string, i: nat, j: nat)
    requires i <= j <= |s|
  {
    (forall k :: 0 <= k < i ==> IsWhite(s[k])) && (forall k :: j <= k < |s| ==> IsWhite(s[k]))
  }

  /** `s[i..j]` is empty or neither starts nor ends with white space. */
  predicate TightAt(s: string, i: nat, j: nat)
    requires i <= j <= |s|
  {
    i == j || (!IsWhite(s[i]) && !IsWhite(s[j - 1]))
  }

  /** Scans forward from `k` past white space: the result is the first
      position at or after `k` that does not hold white space, or `|s|`. */
  function SkipWhite(s: string, k: nat): (n: nat)
    requires k <= |s|
    ensures k <= n <= |s|
    ensures forall i :: k <= i < n ==> IsWhite(s[i])
    ensures n < |s| ==> !IsWhite(s[n])
    decreases |s| - k
  {
    if k < |s| && IsWhite(s[k]) then SkipWhite(s, k + 1) else k
  }

  /** Scans backward from `k`, no further than `lo`, past white space: the
      result is just after the last position in `[lo, k)` that does not hold
      white space, or `lo`. */
  function SkipWhiteBack(s: string, lo: nat, k: nat): (n: nat)
    requires lo <= k <= |s|
    ensures lo <= n <= k
    ensures forall i :: n <= i < k ==> IsWhite(s[i])
    ensures n > lo ==> !IsWhite(s[n - 1])
    decreases k
  {
    if k > lo && IsWhite(s[k - 1]) then SkipWhiteBack(s, lo, k - 1) else k
  }

  /** `String.prototype.trim`: the result is the slice of `s` that starts at
      its first non-white character, has only white space after it, and
      neither starts nor ends with white space. */
  function Trim(s: string): (r: string)
    ensures var i := SkipWhite(s, 0);
      i + |r| <= |s| && r == s[i..i + |r|] && WhiteOutside(s, i, i + |r|) && TightAt(s, i, i + |r|)
  {
    var i := SkipWhite(s, 0);
    var j := SkipWhiteBack(s, i, |s|);
    s[i..j]
  }

  /** The trimmed part is unique: whenever `s[i..j]` has only white space
      around it and none at its ends, `trim(s)` is `s[i..j]`. */
  lemma TrimUnique(s: string, i: nat, j: nat)
    requires i <= j <= |s| && WhiteOutside(s, i, j) && TightAt(s, i, j)
    ensures Trim(s) == s[i..j]
  {
    var a := SkipWhite(s, 0);
    if i < j {
      assert a == i;
    }
  }

  /** `toLowerCase` on one character, for the Basic Latin letters. */
  function LowerChar(c: char): char {
    if 'A' <= c <= 'Z' then (c as int - 'A' as int + 'a' as int) as char else c
  }

  /** `String.prototype.toLowerCase`, folding A to Z only: each capital
      letter becomes its small letter, every other character is kept, and
      white space stays exactly where it was. */
  function Lower(s: string): (r: string)
    ensures |r| == |s|
    ensures forall i :: 0 <= i < |s| && 'A' <= s[i] <= 'Z' ==> 'a' <= r[i] <= 'z' && r[i] as int - s[i] as int == 32
    ensures forall i :: 0 <= i < |s| && !('A' <= s[i] <= 'Z') ==> r[i] == s[i]
    ensures forall i :: 0 <= i < |s| ==> IsWhite(r[i]) == IsWhite(s[i])
  {
    seq(|s|, i requires 0 <= i < |s| => LowerChar(s[i]))
  }
}
