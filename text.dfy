/**
 * Character classes of ECMAScript regular expressions and string methods,
 * shared by the validators, the review form and the avatar.
 */
module Text {

  predicate IsLower(c: char) { 'a' <= c <= 'z' }

  predicate IsUpper(c: char) { 'A' <= c <= 'Z' }

  /** `[a-zA-Z]` */
  predicate IsLetter(c: char) { IsLower(c) || IsUpper(c) }

  /** `\d`, which is `[0-9]` */
  predicate IsDigit(c: char) { '0' <= c <= '9' }

  /** The LineTerminator production: what `.` does not match. */
  predicate IsLineTerminator(c: char) {
    c == '\n' || c == '\r' || c == '\U{2028}' || c == '\U{2029}'
  }

  /**
   * WhiteSpace or LineTerminator: what `\s` matches and what `trim` removes.
   * The Zs category is spelled out: U+0020, U+00A0, U+1680, U+2000 to U+200A,
   * U+202F, U+205F and U+3000.
   */
  predicate IsWhitespace(c: char) {
    || IsLineTerminator(c)
    || c == '\t' || c == '\U{000B}' || c == '\U{000C}' || c == ' '
    || c == '\U{00A0}' || c == '\U{FEFF}' || c == '\U{1680}'
    || ('\U{2000}' <= c <= '\U{200A}')
    || c == '\U{202F}' || c == '\U{205F}' || c == '\U{3000}'
  }

  /** `toUpperCase` on one character, for the ASCII letters only. */
  function UpperChar(c: char): char {
    if IsLower(c) then (c as int - 32) as char else c
  }

  /** `toUpperCase` on a string, character by character. */
  function Upper(s: string): (u: string)
    ensures |u| == |s|
    ensures forall i :: 0 <= i < |s| ==> u[i] == UpperChar(s[i])
  {
    if s == [] then [] else [UpperChar(s[0])] + Upper(s[1..])
  }

  /** Every character of `s` is whitespace. */
  predicate AllWhitespace(s: string) {
    forall i :: 0 <= i < |s| ==> IsWhitespace(s[i])
  }

  /** Neither end of `s` is whitespace. */
  predicate Trimmed(s: string) {
    s == [] || (!IsWhitespace(s[0]) && !IsWhitespace(s[|s| - 1]))
  }

  /** The leading whitespace removed: a suffix of `s` whose first character is not whitespace. */
  function TrimStart(s: string): (t: string)
    ensures |t| <= |s| && t == s[|s| - |t|..]
    ensures AllWhitespace(s[..|s| - |t|])
    ensures t == [] || !IsWhitespace(t[0])
  {
    if s == [] || !IsWhitespace(s[0]) then s else TrimStart(s[1..])
  }

  /** The trailing whitespace removed: a prefix of `s` whose last character is not whitespace. */
  function TrimEnd(s: string): (t: string)
    ensures |t| <= |s| && t == s[..|t|]
    ensures AllWhitespace(s[|t|..])
    ensures t == [] || !IsWhitespace(t[|t| - 1])
  {
    if s == [] || !IsWhitespace(s[|s| - 1]) then s else TrimEnd(s[..|s| - 1])
  }

  /** `trim`: a run of `s` with neither end whitespace; empty exactly when `s` is all whitespace. */
  function Trim(s: string): (t: string)
    ensures |t| <= |s| && Trimmed(t)
    ensures t == [] <==> AllWhitespace(s)
  {
    TrimEnd(TrimStart(s))
  }

  /** Whitespace in front of a string that starts with something else is all TrimStart removes. */
  lemma {:induction false} TrimStartAfter(w: string, r: string)
    requires AllWhitespace(w) && (r == [] || !IsWhitespace(r[0]))
    ensures TrimStart(w + r) == r
    decreases |w|
  {
    if w != [] {
      assert (w + r)[0] == w[0];
      assert (w + r)[1..] == w[1..] + r;
      TrimStartAfter(w[1..], r);
    }
  }

  /** Whitespace behind a string that ends with something else is all TrimEnd removes. */
  lemma {:induction false} TrimEndBefore(r: string, w: string)
    requires AllWhitespace(w) && (r == [] || !IsWhitespace(r[|r| - 1]))
    ensures TrimEnd(r + w) == r
    decreases |w|
  {
    if w != [] {
      var n := |w| - 1;
      assert (r + w)[|r + w| - 1] == w[n];
      assert (r + w)[..|r + w| - 1] == r + w[..n];
      TrimEndBefore(r, w[..n]);
    }
  }

  /** `trim` removes exactly the whitespace around a non-empty trimmed core. */
  lemma TrimAround(w1: string, core: string, w2: string)
    requires AllWhitespace(w1) && AllWhitespace(w2)
    requires core != [] && Trimmed(core)
    ensures Trim(w1 + core + w2) == core
  {
    assert w1 + core + w2 == w1 + (core + w2);
    TrimStartAfter(w1, core + w2);
    TrimEndBefore(core, w2);
  }

  /** Trimming twice is trimming once. */
  lemma TrimIdempotent(s: string)
    ensures Trim(Trim(s)) == Trim(s)
  {
    var t := Trim(s);
    if t != [] {
      assert [] + t + [] == t;
      TrimAround([], t, []);
    }
  }
}
