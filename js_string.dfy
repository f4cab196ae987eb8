/**
 * The JavaScript string operations the input components rely on:
 * `String.prototype.trim`, the `\s` class of regular expressions and the
 * `length` of a string, which counts UTF-16 code units.
 */
module JsString {

  /**
   * The code points ECMAScript counts as WhiteSpace or LineTerminator. These
   * are exactly what `trim` strips from both ends and what `\s` matches.
   */
  predicate IsJsWhitespace(c: char) {
    || c == '\t' || c == '\n' || c == '\U{B}' || c == '\U{C}' || c == '\r' || c == ' '
    || c == '\U{A0}' || c == '\U{1680}' || ('\U{2000}' <= c <= '\U{200A}')
    || c == '\U{2028}' || c == '\U{2029}' || c == '\U{202F}' || c == '\U{205F}'
    || c == '\U{3000}' || c == '\U{FEFF}'
  }

  predicate AllWhitespace(s: string) {
    forall i :: 0 <= i < |s| ==> IsJsWhitespace(s[i])
  }

  /** Neither end of `s` is whitespace. */
  predicate NoEdgeWhitespace(s: string) {
    s == [] || (!IsJsWhitespace(s[0]) && !IsJsWhitespace(s[|s| - 1]))
  }

  /** How many whitespace characters `s` starts with. */
  function LeadingWhitespace(s: string): (k: nat)
    ensures k <= |s|
    ensures forall i :: 0 <= i < k ==> IsJsWhitespace(s[i])
    ensures k == |s| || !IsJsWhitespace(s[k])
    decreases |s|
  {
    if |s| > 0 && IsJsWhitespace(s[0]) then 1 + LeadingWhitespace(s[1..]) else 0
  }

  /** Where the whitespace that `s` ends with begins. */
  function TrailingWhitespaceStart(s: string): (k: nat)
    ensures k <= |s|
    ensures forall i :: k <= i < |s| ==> IsJsWhitespace(s[i])
    ensures k == 0 || !IsJsWhitespace(s[k - 1])
    decreases |s|
  {
    if |s| > 0 && IsJsWhitespace(s[|s| - 1]) then TrailingWhitespaceStart(s[..|s| - 1]) else |s|
  }

  /** `String.prototype.trimStart`. */
  function TrimStart(s: string): string {
    s[LeadingWhitespace(s)..]
  }

  /** `String.prototype.trimEnd`. */
  function TrimEnd(s: string): string {
    s[..TrailingWhitespaceStart(s)]
  }

  /** `String.prototype.trim`: both ends' whitespace removed. */
  function Trim(s: string): (r: string)
    ensures |r| <= |s|
    ensures NoEdgeWhitespace(r)
  {
    var t := TrimStart(s);
    var r := TrimEnd(t);
    assert r != [] ==> r[0] == t[0];
    r
  }

  /** The leading whitespace count is the one index with only whitespace before it and none at it. */
  lemma LeadingWhitespaceUnique(s: string, k: nat)
    requires k <= |s| && (k == |s| || !IsJsWhitespace(s[k]))
    requires forall i :: 0 <= i < k ==> IsJsWhitespace(s[i])
    ensures LeadingWhitespace(s) == k
  {
  }

  /** The trailing whitespace start is the one index with only whitespace from it on and none just before it. */
  lemma TrailingWhitespaceUnique(s: string, k: nat)
    requires k <= |s| && (k == 0 || !IsJsWhitespace(s[k - 1]))
    requires forall i :: k <= i < |s| ==> IsJsWhitespace(s[i])
    ensures TrailingWhitespaceStart(s) == k
  {
  }

  /** A string trims to "" exactly when every character of it is whitespace. */
  lemma TrimEmptyIff(s: string)
    ensures Trim(s) == "" <==> AllWhitespace(s)
  {
    var k := LeadingWhitespace(s);
    var t := TrimStart(s);
    if Trim(s) == "" {
      // The whitespace at the end of `t` is all of `t`, and `t` cannot start with whitespace.
      assert TrailingWhitespaceStart(t) == 0;
      assert t == [];
      assert k == |s|;
    } else {
      assert k < |s|;
    }
  }

  /** Trimming twice is trimming once. */
  lemma TrimIdempotent(s: string)
    ensures Trim(Trim(s)) == Trim(s)
  {
    var r := Trim(s);
    assert LeadingWhitespace(r) == 0;
    assert TrimStart(r) == r;
    assert TrailingWhitespaceStart(r) == |r|;
  }

  /** What `trim` keeps is a contiguous part of the input with only whitespace around it. */
  lemma TrimIsInfix(s: string)
    ensures var lead := LeadingWhitespace(s);
      && lead + |Trim(s)| <= |s|
      && Trim(s) == s[lead..lead + |Trim(s)|]
      && forall i :: 0 <= i < |s| && !(lead <= i < lead + |Trim(s)|) ==> IsJsWhitespace(s[i])
  {
    var lead := LeadingWhitespace(s);
    var t := TrimStart(s);
    var e := TrailingWhitespaceStart(t);
    forall i | lead + e <= i < |s| ensures IsJsWhitespace(s[i]) {
      assert s[i] == t[i - lead];
    }
  }

  /** How many UTF-16 code units encode `c`: two for a code point beyond the Basic Multilingual Plane. */
  function CodeUnits(c: char): nat {
    if c as int > 0xFFFF then 2 else 1
  }

  /** JavaScript's `length` of `s`: its number of UTF-16 code units. */
  function Utf16Length(s: string): (n: nat)
    ensures |s| <= n <= 2 * |s|
    ensures n == |s| <==> forall i :: 0 <= i < |s| ==> s[i] as int <= 0xFFFF
  {
    if s == [] then 0 else CodeUnits(s[0]) + Utf16Length(s[1..])
  }
}
