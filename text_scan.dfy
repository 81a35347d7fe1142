/**
 * Character-level vocabulary of the JavaScript regular expressions used by the
 * smart import: the character classes they use, case-insensitive comparison
 * under the `i` flag (without the `u` flag), word boundaries, greedy runs,
 * and the small string transformations applied to the captured text.
 *
 * A string is a sequence of `char`, one element per Unicode scalar value. A
 * JavaScript string counts a character outside the Basic Multilingual Plane as
 * two code units; none of the patterns, classes or lengths here can tell.
 */
module TextScan {

  predicate IsDigit(c: char) { '0' <= c <= '9' }

  predicate IsAsciiLetter(c: char) { 'A' <= c <= 'Z' || 'a' <= c <= 'z' }

  /** `\w`: the basic word characters; also what `\b` looks at. */
  predicate IsWordChar(c: char) { IsAsciiLetter(c) || IsDigit(c) || c == '_' }

  /** `\s`: the ECMAScript WhiteSpace and LineTerminator characters. */
  predicate IsSpace(c: char) {
    || c == '\t' || c == '\n' || c == '\U{0B}' || c == '\U{0C}' || c == '\r' || c == ' '
    || c == '\U{A0}' || c == '\U{1680}' || ('\U{2000}' <= c <= '\U{200A}')
    || c == '\U{2028}' || c == '\U{2029}' || c == '\U{202F}' || c == '\U{205F}'
    || c == '\U{3000}' || c == '\U{FEFF}'
  }

  /**
   * Canonical form of a character under the `i` flag, restricted to what the
   * patterns can observe. Without the `u` flag a character is canonicalised by
   * upper-casing it, except that a non-ASCII character never becomes an ASCII
   * one. Every literal in the patterns is ASCII or the letter o-acute, so lower
   * ASCII letters and o-acute are the only characters whose folding matters.
   */
  function Fold(c: char): (u: char)
    ensures 'a' <= c <= 'z' ==> u as int == c as int - 32 && 'A' <= u <= 'Z'
    ensures c == '\U{F3}' ==> u == '\U{D3}'
    ensures !('a' <= c <= 'z') && c != '\U{F3}' ==> u == c
  {
    if 'a' <= c <= 'z' then (c as int - 32) as char
    else if c == '\U{F3}' then '\U{D3}'
    else c
  }

  /** `toUpperCase` on the ASCII letters. */
  function UpperChar(c: char): (u: char)
    ensures 'a' <= c <= 'z' ==> 'A' <= u <= 'Z' && u as int == c as int - 32
    ensures !('a' <= c <= 'z') ==> u == c
  {
    if 'a' <= c <= 'z' then (c as int - 32) as char else c
  }

  function Upper(s: string): (r: string)
    ensures |r| == |s|
    ensures forall i :: 0 <= i < |s| ==> r[i] == UpperChar(s[i])
  {
    seq(|s|, i requires 0 <= i < |s| => UpperChar(s[i]))
  }

  /** The literal `kw` occurs at position `i` of `t`, ignoring case. */
  predicate KeywordAt(t: string, i: nat, kw: string) {
    i + |kw| <= |t| && forall j :: 0 <= j < |kw| ==> Fold(t[i + j]) == Fold(kw[j])
  }

  /** Two strings are equal ignoring case. */
  predicate SameIgnoringCase(s: string, kw: string) {
    |s| == |kw| && KeywordAt(s, 0, kw)
  }

  predicate WordAt(t: string, i: int) { 0 <= i < |t| && IsWordChar(t[i]) }

  /** `\b` between positions `i - 1` and `i`. */
  predicate Boundary(t: string, i: int) { WordAt(t, i - 1) != WordAt(t, i) }

  /** The character classes that appear under a greedy `+` or `*`. */
  datatype CharClass =
    | DigitOrComma     // [0-9,]
    | SpaceOrColon     // [\s:]
    | Whitespace       // \s
    | EngineModelChar  // [A-Za-z0-9\s]
    | TransRunChar     // [0-9\s\w\-]
    | SuspRunChar      // [A-Za-z0-9\-\s]

  /**
   * Membership of a character in a class under the `i` flag. Every class here
   * is closed under ASCII case, and no other character folds into it.
   */
  predicate InClass(k: CharClass, c: char) {
    match k
    case DigitOrComma => IsDigit(c) || c == ','
    case SpaceOrColon => IsSpace(c) || c == ':'
    case Whitespace => IsSpace(c)
    case EngineModelChar => IsAsciiLetter(c) || IsDigit(c) || IsSpace(c)
    case TransRunChar => IsDigit(c) || IsSpace(c) || IsWordChar(c) || c == '-'
    case SuspRunChar => IsAsciiLetter(c) || IsDigit(c) || c == '-' || IsSpace(c)
  }

  /** Where a greedy run of class `k` that starts at `i` stops: the longest run. */
  function RunEnd(k: CharClass, t: string, i: nat): (j: nat)
    requires i <= |t|
    ensures i <= j <= |t|
    ensures forall x {:trigger InClass(k, t[x])} :: i <= x < j ==> InClass(k, t[x])
    ensures j == |t| || !InClass(k, t[j])
    decreases |t| - i
  {
    if i < |t| && InClass(k, t[i]) then RunEnd(k, t, i + 1) else i
  }

  /** `.replace(/,/g, '')`. */
  function StripCommas(s: string): (r: string)
    ensures |r| <= |s|
    ensures forall i :: 0 <= i < |r| ==> r[i] != ','
    ensures (forall i :: 0 <= i < |s| ==> InClass(DigitOrComma, s[i])) ==> forall i :: 0 <= i < |r| ==> IsDigit(r[i])
    ensures (forall i :: 0 <= i < |s| ==> s[i] != ',') ==> r == s
    ensures |s| == 1 ==> r == if s[0] == ',' then [] else s
  {
    if s == [] then []
    else if s[0] == ',' then StripCommas(s[1..])
    else [s[0]] + StripCommas(s[1..])
  }

  /**
   * Removing commas works piece by piece; with the single-character case of
   * `StripCommas` this says every other character is kept, in order.
   */
  lemma {:induction false} StripCommasConcat(a: string, b: string)
    ensures StripCommas(a + b) == StripCommas(a) + StripCommas(b)
    decreases |a|
  {
    if a == [] {
      assert a + b == b;
    } else {
      assert (a + b)[0] == a[0] && (a + b)[1..] == a[1..] + b;
      StripCommasConcat(a[1..], b);
    }
  }

  /** The number a string of decimal digits denotes. */
  function DigitsValue(s: string): (n: nat)
    requires forall i :: 0 <= i < |s| ==> IsDigit(s[i])
  {
    if s == [] then 0
    else
      assert IsDigit(s[|s| - 1]);
      DigitsValue(s[..|s| - 1]) * 10 + (s[|s| - 1] as int - '0' as int)
  }
}
