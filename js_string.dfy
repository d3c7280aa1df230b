/** The part of JavaScript's string library that page.tsx relies on:
    `String.prototype.trim`, which removes every ECMAScript WhiteSpace and
    LineTerminator code point from both ends of a string (section 22.1.3.32
    of ECMA-262). Each of the three functions is specified by what it keeps
    and what it removes, not by how it walks the string. */
module JsString {

  /** ECMA-262 WhiteSpace (TAB, VT, FF, ZWNBSP and the Zs category) or
      LineTerminator (LF, CR, LS, PS). */
  predicate IsTrimmable(c: char)
  {
    c == '\t' || c == '\U{B}' || c == '\U{C}' || c == '\U{FEFF}'
    || c == ' ' || c == '\U{A0}' || c == '\U{1680}' || ('\U{2000}' <= c <= '\U{200A}')
    || c == '\U{202F}' || c == '\U{205F}' || c == '\U{3000}'
    || c == '\n' || c == '\r' || c == '\U{2028}' || c == '\U{2029}'
  }

  /** The number of trimmable characters `s` starts with. */
  function LeadingTrimmable(s: string): (k: nat)
    ensures k <= |s|
    ensures forall i :: 0 <= i < k ==> IsTrimmable(s[i])
    ensures k == |s| || !IsTrimmable(s[k])
    decreases |s|
  {
    if |s| > 0 && IsTrimmable(s[0]) then 1 + LeadingTrimmable(s[1..]) else 0
  }

  /** `s.trimStart()`: `s` without its leading trimmable characters. */
  function TrimStart(s: string): (r: string)
    ensures r == s[LeadingTrimmable(s)..]
    decreases |s|
  {
    if |s| > 0 && IsTrimmable(s[0]) then TrimStart(s[1..]) else s
  }

  /** `s.trimEnd()`: the prefix of `s` left after dropping its trailing
      trimmable characters. */
  function TrimEnd(s: string): (r: string)
    ensures |r| <= |s| && r == s[..|r|]
    ensures forall i :: |r| <= i < |s| ==> IsTrimmable(s[i])
    ensures r == [] || !IsTrimmable(r[|r| - 1])
    decreases |s|
  {
    if |s| > 0 && IsTrimmable(s[|s| - 1]) then TrimEnd(s[..|s| - 1]) else s
  }

  /** `s.trim()`: the slice of `s` that starts after its leading trimmable
      characters and ends before its trailing ones. It neither starts nor
      ends with a trimmable character, and it is empty exactly when every
      character of `s` is trimmable. */
  function Trim(s: string): (r: string)
    ensures var k := LeadingTrimmable(s);
      k + |r| <= |s| && r == s[k..k + |r|]
      && forall i :: k + |r| <= i < |s| ==> IsTrimmable(s[i])
    ensures r != [] ==> !IsTrimmable(r[0]) && !IsTrimmable(r[|r| - 1])
    ensures r == [] <==> forall i :: 0 <= i < |s| ==> IsTrimmable(s[i])
  {
    var k := LeadingTrimmable(s);
    var t := TrimStart(s);
    var r := TrimEnd(t);
    assert forall i :: k <= i < |s| ==> s[i] == t[i - k];
    r
  }

  /** Trimming is idempotent: a trimmed string has nothing left to trim. */
  lemma TrimIdempotent(s: string)
    ensures Trim(Trim(s)) == Trim(s)
  {
    var r := Trim(s);
    if r != [] {
      assert TrimStart(r) == r;
      assert TrimEnd(r) == r;
    }
  }
}
