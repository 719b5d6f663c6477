/** The two pieces of the JavaScript string library the components rely on:
    `String.prototype.trim` (the guard of every lookup submit) and
    `Array.prototype.join` (the `accept` attribute of the file input). */
module JsString {

  /** White space and line terminators in the sense of ECMAScript: TAB, VT, FF,
      SPACE, NBSP, ZWNBSP, every other space separator (Zs) and LF, CR, LS, PS. */
  predicate IsWhiteSpace(c: char) {
    var n := c as int;
    n == 0x09 || n == 0x0B || n == 0x0C || n == 0x20 || n == 0xA0 || n == 0xFEFF
    || n == 0x1680 || (0x2000 <= n <= 0x200A) || n == 0x202F || n == 0x205F || n == 0x3000
    || n == 0x0A || n == 0x0D || n == 0x2028 || n == 0x2029
  }

  predicate AllWhiteSpace(s: string) {
    forall i :: 0 <= i < |s| ==> IsWhiteSpace(s[i])
  }

  /** Length of the longest white-space prefix of `s`. */
  function LeadingWhiteSpace(s: string): (k: nat)
    ensures k <= |s|
    ensures AllWhiteSpace(s[..k])
    ensures k < |s| ==> !IsWhiteSpace(s[k])
  {
    if s != [] && IsWhiteSpace(s[0]) then
      var k' := LeadingWhiteSpace(s[1..]);
      assert s[1..][..k'] == s[1..k' + 1];
      k' + 1
    else 0
  }

  /** Length of the longest white-space suffix of `s`. */
  function TrailingWhiteSpace(s: string): (k: nat)
    ensures k <= |s|
    ensures AllWhiteSpace(s[|s| - k..])
    ensures k < |s| ==> !IsWhiteSpace(s[|s| - 1 - k])
  {
    if s != [] && IsWhiteSpace(s[|s| - 1]) then
      var k' := TrailingWhiteSpace(s[..|s| - 1]);
      assert s[..|s| - 1][|s| - 1 - k'..] + [s[|s| - 1]] == s[|s| - 1 - k'..];
      k' + 1
    else 0
  }

  /** `s.trim()`: drop leading and trailing white space. */
  function Trim(s: string): (r: string)
    ensures |r| <= |s|
    ensures r == [] || (!IsWhiteSpace(r[0]) && !IsWhiteSpace(r[|r| - 1]))
  {
    var t := s[LeadingWhiteSpace(s)..];
    t[..|t| - TrailingWhiteSpace(t)]
  }

  /** `!s.trim()`: the trimmed string is the empty, falsy string. */
  predicate IsBlank(s: string) {
    Trim(s) == []
  }

  /** Trimming removes only white space and keeps the inner text: the result is a
      contiguous piece of `s` with nothing but white space on either side. */
  lemma TrimIsInfix(s: string)
    ensures exists a: nat, b: nat :: a <= b <= |s| && Trim(s) == s[a..b]
              && AllWhiteSpace(s[..a]) && AllWhiteSpace(s[b..])
  {
    var a := LeadingWhiteSpace(s);
    var t := s[a..];
    var k := TrailingWhiteSpace(t);
    var b := a + |t| - k;
    assert t[..|t| - k] == s[a..b];
    assert t[|t| - k..] == s[b..];
  }

  /** The submit guard `!s.trim()` holds exactly for the strings made of white
      space only, the empty string included. */
  lemma BlankIffAllWhiteSpace(s: string)
    ensures IsBlank(s) <==> AllWhiteSpace(s)
  {
  }

  /** `xs.join(sep)`: the items in order with one separator between each two
      neighbours, so joining one more item appends the separator and that item. */
  function Join(xs: seq<string>, sep: string): (r: string)
    ensures xs == [] ==> r == []
    ensures |xs| == 1 ==> r == xs[0]
    ensures |xs| >= 2 ==> r == Join(xs[..|xs| - 1], sep) + sep + xs[|xs| - 1]
  {
    if xs == [] then []
    else if |xs| == 1 then xs[0]
    else
      var r := xs[0] + sep + Join(xs[1..], sep);
      assert xs[..|xs| - 1][1..] == xs[1..][..|xs| - 2];
      assert xs[1..][|xs| - 2] == xs[|xs| - 1];
      r
  }
}
