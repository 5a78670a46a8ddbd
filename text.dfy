/**
 * The two string primitives the fallback generator is built from:
 * JavaScript's `String.prototype.includes` (a case-sensitive substring test)
 * and `String.prototype.trim` (removal of leading and trailing white space).
 * Strings are sequences of characters; no case folding, normalisation or
 * encoding is involved, as in the original.
 */
module Text {

  /** The characters ECMAScript's `trim` removes: the WhiteSpace and
      LineTerminator code points (tab, line tabulation, form feed, space,
      no-break space, byte order mark, the other Zs space separators, line
      feed, carriage return, line and paragraph separators). */
  predicate IsWhitespace(c: char) {
    c in {'\t', '\n', '\U{000B}', '\U{000C}', '\r', ' ', '\U{00A0}', '\U{1680}',
          '\U{2000}', '\U{2001}', '\U{2002}', '\U{2003}', '\U{2004}', '\U{2005}',
          '\U{2006}', '\U{2007}', '\U{2008}', '\U{2009}', '\U{200A}', '\U{2028}',
          '\U{2029}', '\U{202F}', '\U{205F}', '\U{3000}', '\U{FEFF}'}
  }

  /** Every character of `s` is white space. */
  predicate AllWhitespace(s: string) {
    forall k :: 0 <= k < |s| ==> IsWhitespace(s[k])
  }

  /** The reference meaning of "s includes sub": `sub` starts at some index of `s`. */
  ghost predicate Occurs(s: string, sub: string) {
    exists i :: 0 <= i <= |s| && sub <= s[i..]
  }

  /** `s.includes(sub)`, computed by trying each start position in turn. */
  function Contains(s: string, sub: string): (b: bool)
    ensures b <==> Occurs(s, sub)
    decreases |s|
  {
    if sub <= s then
      assert s[0..] == s;
      true
    else if |s| == 0 then
      false
    else
      var b := Contains(s[1..], sub);
      assert forall i :: 1 <= i <= |s| ==> s[1..][i - 1..] == s[i..];
      b
  }

  /** A string ending in `b` contains `b`. */
  lemma EndingOccurs(a: string, b: string)
    ensures Occurs(a + b, b)
  {
    assert (a + b)[|a|..] == b;
  }

  /** Dropping the white space at the front, as the first half of `trim`. */
  function TrimStart(s: string): (r: string)
    ensures |r| <= |s| && r == s[|s| - |r|..]
    ensures r == [] || !IsWhitespace(r[0])
    ensures AllWhitespace(s[..|s| - |r|])
    decreases |s|
  {
    if |s| > 0 && IsWhitespace(s[0]) then TrimStart(s[1..]) else s
  }

  /** Dropping the white space at the back, as the second half of `trim`. */
  function TrimEnd(s: string): (r: string)
    ensures |r| <= |s| && r == s[..|r|]
    ensures r == [] || !IsWhitespace(r[|r| - 1])
    ensures AllWhitespace(s[|r|..])
    decreases |s|
  {
    if |s| > 0 && IsWhitespace(s[|s| - 1]) then TrimEnd(s[..|s| - 1]) else s
  }

  /** `s.trim()`: the result is a slice of `s` that neither starts nor ends
      with white space, and everything cut off on either side is white space. */
  function Trim(s: string): (r: string)
    ensures r == [] || (!IsWhitespace(r[0]) && !IsWhitespace(r[|r| - 1]))
    ensures exists i :: 0 <= i <= |s| - |r| && r <= s[i..]
                        && AllWhitespace(s[..i]) && AllWhitespace(s[i + |r|..])
  {
    var front := TrimStart(s);
    var r := TrimEnd(front);
    var i := |s| - |front|;
    assert r <= s[i..];
    assert s[i + |r|..] == front[|r|..];
    r
  }

  /** White space appended to a string that ends in a visible character is
      exactly what `TrimEnd` removes. */
  lemma {:induction false} TrimEndPadded(x: string, w: string)
    requires |x| > 0 && !IsWhitespace(x[|x| - 1])
    requires AllWhitespace(w)
    ensures TrimEnd(x + w) == x
  {
    if w != [] {
      var w' := w[..|w| - 1];
      assert (x + w)[..|x + w| - 1] == x + w';
      TrimEndPadded(x, w');
    }
  }

  /** Trimming a string with visible first and last characters followed by
      white space gives back that string. */
  lemma TrimPadded(x: string, w: string)
    requires |x| > 0 && !IsWhitespace(x[0]) && !IsWhitespace(x[|x| - 1])
    requires AllWhitespace(w)
    ensures Trim(x + w) == x
  {
    assert TrimStart(x + w) == x + w;
    TrimEndPadded(x, w);
  }

  /** No character of `s` belongs to `bad`. */
  predicate Avoids(s: string, bad: set<char>) {
    forall i :: 0 <= i < |s| ==> s[i] !in bad
  }

  /** A substring can only occur where each of its characters occurs. */
  lemma AvoidedCharNotContained(s: string, bad: set<char>, sub: string, k: nat)
    requires Avoids(s, bad) && k < |sub| && sub[k] in bad
    ensures !Contains(s, sub)
  {
  }
}
