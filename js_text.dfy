/**
  * The part of JavaScript's string semantics the forms rely on:
  * `String.prototype.trim` and the white-space test it uses.
  * Strings are sequences of Unicode scalar values here (JavaScript strings are
  * UTF-16 code units; every white-space code point lies in the BMP, so the two
  * agree on which characters trim removes).
  */
module JsText {

  /** The WhiteSpace and LineTerminator code points of ECMA-262 (sections 12.2 and 12.3),
      which are exactly the characters `trim` strips. */
  const JsWhiteSpace: set<char> := {
    '\t', '\n', '\U{B}', '\U{C}', '\r', ' ', '\U{A0}', '\U{1680}',
    '\U{2000}', '\U{2001}', '\U{2002}', '\U{2003}', '\U{2004}', '\U{2005}',
    '\U{2006}', '\U{2007}', '\U{2008}', '\U{2009}', '\U{200A}',
    '\U{2028}', '\U{2029}', '\U{202F}', '\U{205F}', '\U{3000}', '\U{FEFF}'}

  predicate IsJsWhiteSpace(c: char) {
    c in JsWhiteSpace
  }

  /** Every character of `s` is white space (vacuously true of ""). */
  predicate IsBlank(s: string) {
    forall i :: 0 <= i < |s| ==> IsJsWhiteSpace(s[i])
  }

  /** Drops the leading white space: the result is the suffix of `s` that starts at its
      first non-white-space character. */
  function TrimStart(s: string): (r: string)
    ensures |r| <= |s| && r == s[|s| - |r|..]
    ensures IsBlank(s[..|s| - |r|])
    ensures r == [] || !IsJsWhiteSpace(r[0])
  {
    if s != [] && IsJsWhiteSpace(s[0]) then TrimStart(s[1..]) else s
  }

  /** Drops the trailing white space: the result is the prefix of `s` that ends at its
      last non-white-space character. */
  function TrimEnd(s: string): (r: string)
    ensures |r| <= |s| && r == s[..|r|]
    ensures IsBlank(s[|r|..])
    ensures r == [] || !IsJsWhiteSpace(r[|r| - 1])
  {
    if s != [] && IsJsWhiteSpace(s[|s| - 1]) then TrimEnd(s[..|s| - 1]) else s
  }

  /** `s.trim()`: white space removed from both ends, the middle kept as it is. */
  function Trim(s: string): (r: string)
    ensures var k := |s| - |TrimStart(s)|;
      && k + |r| <= |s| && r == s[k..k + |r|]
      && IsBlank(s[..k]) && IsBlank(s[k + |r|..])
    ensures r == [] || (!IsJsWhiteSpace(r[0]) && !IsJsWhiteSpace(r[|r| - 1]))
  {
    var t := TrimStart(s);
    TrimEndOfSuffix(s, t);
    TrimEnd(t)
  }

  /** Trimming the end of a suffix `t` of `s` that starts with a non-white-space character
      leaves a block of `s` that starts and ends with one and is followed by white space. */
  lemma TrimEndOfSuffix(s: string, t: string)
    requires |t| <= |s| && t == s[|s| - |t|..]
    requires t == [] || !IsJsWhiteSpace(t[0])
    ensures var k, r := |s| - |t|, TrimEnd(t);
      && k + |r| <= |s| && r == s[k..k + |r|]
      && IsBlank(s[k + |r|..])
      && (r == [] || (!IsJsWhiteSpace(r[0]) && !IsJsWhiteSpace(r[|r| - 1])))
  {
    var k, r := |s| - |t|, TrimEnd(t);
    assert r == t[..|r|];
    assert r != [] ==> r[0] == t[0];
    assert t[|r|..] == s[k + |r|..];
  }

  /** The emptiness guard used by the description form: `s.trim() !== ""` holds exactly
      when `s` has a character that is not white space. */
  lemma TrimEmptyIffBlank(s: string)
    ensures Trim(s) == "" <==> IsBlank(s)
  {
  }
}
