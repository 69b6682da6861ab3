/** The part of JavaScript's string library the profile manager relies on. */
module JsStrings {

  /** The single code points among the ECMAScript WhiteSpace and LineTerminator characters. */
  const WhitespaceChars: set<char> := {
    '\t', '\n', '\U{000B}', '\U{000C}', '\r', ' ', '\U{00A0}', '\U{1680}',
    '\U{2028}', '\U{2029}', '\U{202F}', '\U{205F}', '\U{3000}', '\U{FEFF}'
  }

  /**
   * The characters `String.prototype.trim` removes: tab, line feed, vertical
   * tab, form feed, carriage return, the byte order mark, the Unicode space
   * separators (including the range U+2000 to U+200A) and the line and
   * paragraph separators.
   */
  predicate IsWhitespace(c: char) {
    c in WhitespaceChars || '\U{2000}' <= c <= '\U{200A}'
  }

  /** `s` without its leading whitespace: a suffix of `s` that does not start with whitespace. */
  function TrimStart(s: string): (r: string)
    ensures |r| <= |s| && r == s[|s| - |r|..]
    ensures forall i :: 0 <= i < |s| - |r| ==> IsWhitespace(s[i])
    ensures r == [] || !IsWhitespace(r[0])
  {
    if |s| > 0 && IsWhitespace(s[0]) then TrimStart(s[1..]) else s
  }

  /** `s` without its trailing whitespace: a prefix of `s` that does not end with whitespace. */
  function TrimEnd(s: string): (r: string)
    ensures |r| <= |s| && r == s[..|r|]
    ensures forall i :: |r| <= i < |s| ==> IsWhitespace(s[i])
    ensures r == [] || !IsWhitespace(r[|r| - 1])
  {
    if |s| > 0 && IsWhitespace(s[|s| - 1]) then TrimEnd(s[..|s| - 1]) else s
  }

  /** A string made of whitespace only, the empty string included. */
  predicate IsBlank(s: string) {
    forall i :: 0 <= i < |s| ==> IsWhitespace(s[i])
  }

  /** How many whitespace characters `s` starts with. */
  function LeadingSpace(s: string): (n: nat)
    ensures n <= |s|
  {
    |s| - |TrimStart(s)|
  }

  /**
   * `s.trim()`: the slice of `s` that starts after its leading whitespace and
   * has only whitespace after it. Neither end of the result is whitespace,
   * and the result is empty exactly when `s` consists of whitespace only.
   */
  function Trim(s: string): (r: string)
    ensures |r| <= |s| - LeadingSpace(s)
    ensures forall k :: 0 <= k < |r| ==> r[k] == s[LeadingSpace(s) + k]
    ensures forall i :: 0 <= i < LeadingSpace(s) ==> IsWhitespace(s[i])
    ensures forall i :: LeadingSpace(s) + |r| <= i < |s| ==> IsWhitespace(s[i])
    ensures r == [] || (!IsWhitespace(r[0]) && !IsWhitespace(r[|r| - 1]))
    ensures r == [] <==> forall i :: 0 <= i < |s| ==> IsWhitespace(s[i])
  {
    var t := TrimStart(s);
    var r := TrimEnd(t);
    TrimBothEnds(s, t, r);
    assert LeadingSpace(s) == |s| - |t|;
    r
  }

  /**
   * Dropping a whitespace prefix of `s` (giving `t`, which does not start with
   * whitespace) and then a whitespace suffix of `t` (giving `r`) leaves the
   * slice of `s` starting at `|s| - |t|`, with only whitespace around it.
   */
  lemma TrimBothEnds(s: string, t: string, r: string)
    requires |t| <= |s| && t == s[|s| - |t|..]
    requires forall i :: 0 <= i < |s| - |t| ==> IsWhitespace(s[i])
    requires t == [] || !IsWhitespace(t[0])
    requires |r| <= |t| && r == t[..|r|]
    requires forall i :: |r| <= i < |t| ==> IsWhitespace(t[i])
    requires r == [] || !IsWhitespace(r[|r| - 1])
    ensures var a := |s| - |t|;
      && r == s[a..a + |r|]
      && (forall i :: a + |r| <= i < |s| ==> IsWhitespace(s[i]))
      && (r == [] || (!IsWhitespace(r[0]) && !IsWhitespace(r[|r| - 1])))
      && (r == [] <==> forall i :: 0 <= i < |s| ==> IsWhitespace(s[i]))
  {
    var a := |s| - |t|;
    var mid := s[a..a + |r|];
    forall k | 0 <= k < |r| ensures r[k] == mid[k] {
      assert r[k] == t[k] == s[a + k];
    }
    assert r == mid;
    forall i | a + |r| <= i < |s| ensures IsWhitespace(s[i]) {
      assert s[i] == t[i - a];
    }
    if r != [] {
      assert r[0] == t[0] == s[a];
    }
  }

  /** `s.trim() === ''` holds exactly for the blank strings. */
  lemma TrimEmptyIffBlank(s: string)
    ensures Trim(s) == "" <==> IsBlank(s)
  {
  }
}
