/**
 * The character classes and string operations of JavaScript that the extractor and the
 * certificate store check rely on: `\d`, `\s`, `String.prototype.trim`,
 * `String.prototype.includes`, and the case folding of a regular expression with the `i` flag.
 */
module Text {
  import opened Results

  /** `\d`: an ASCII decimal digit. */
  predicate IsDigit(c: char)
  {
    '0' <= c <= '9'
  }

  /**
   * `\s`, and the characters `trim` removes: the ECMAScript WhiteSpace and LineTerminator
   * characters (tab, vertical tab, form feed, space, no-break space, byte order mark,
   * the space separators of Unicode, line feed, carriage return, U+2028 and U+2029).
   */
  predicate IsSpace(c: char)
  {
    var n := c as int;
    n == 0x09 || n == 0x0A || n == 0x0B || n == 0x0C || n == 0x0D || n == 0x20
    || n == 0xA0 || n == 0x1680 || (0x2000 <= n <= 0x200A) || n == 0x2028 || n == 0x2029
    || n == 0x202F || n == 0x205F || n == 0x3000 || n == 0xFEFF
  }

  predicate AllSpace(s: string)
  {
    forall k :: 0 <= k < |s| ==> IsSpace(s[k])
  }

  /**
   * The canonical form a non-Unicode regular expression with the `i` flag compares: the
   * upper-case letter for the lower-case letters of ASCII and of Latin-1 (a-z, U+00E0 to U+00FE
   * except the division sign). Characters beyond Latin-1 are left as they are, which agrees with
   * JavaScript whenever they are compared with the letters of the field labels.
   */
  function Canon(c: char): (u: char)
    ensures 'A' <= u <= 'Z' ==> c == u || c == (u as int + 32) as char
    ensures u as int < 128 <==> c as int < 128
  {
    var n := c as int;
    if 'a' <= c <= 'z' then (n - 32) as char
    else if 0xE0 <= n <= 0xFE && n != 0xF7 then (n - 32) as char
    else c
  }

  /** The case-insensitive comparison of one text character with one pattern character. */
  predicate SameIgnoringCase(c: char, d: char)
  {
    Canon(c) == Canon(d)
  }

  /** Least index `k >= i` whose character is not `\s`, or `|s|`. */
  function SkipSpace(s: string, i: nat): (k: nat)
    requires i <= |s|
    ensures i <= k <= |s|
    ensures forall m :: i <= m < k ==> IsSpace(s[m])
    ensures k < |s| ==> !IsSpace(s[k])
    decreases |s| - i
  {
    if i < |s| && IsSpace(s[i]) then SkipSpace(s, i + 1) else i
  }

  /** Greatest index `k` in `[lo, j]` with `k == lo` or a non-space character just before it. */
  function TrimEndIndex(s: string, lo: nat, j: nat): (k: nat)
    requires lo <= j <= |s|
    ensures lo <= k <= j
    ensures forall m :: k <= m < j ==> IsSpace(s[m])
    ensures k > lo ==> !IsSpace(s[k - 1])
    decreases j - lo
  {
    if j > lo && IsSpace(s[j - 1]) then TrimEndIndex(s, lo, j - 1) else j
  }

  /** `String.prototype.trim`: the slice left after removing `\s` from both ends. */
  function Trim(s: string): (r: string)
    ensures |r| <= |s|
    ensures r != [] ==> !IsSpace(r[0]) && !IsSpace(r[|r| - 1])
    ensures r == [] <==> AllSpace(s)
    ensures forall c :: c in r ==> c in s
    ensures exists i, j :: 0 <= i <= j <= |s| && r == s[i..j] && AllSpace(s[..i]) && AllSpace(s[j..])
  {
    var i := SkipSpace(s, 0);
    var j := TrimEndIndex(s, i, |s|);
    assert AllSpace(s[..i]) && AllSpace(s[j..]);
    s[i..j]
  }

  /** `sub` occurs in `s` at index `i`. */
  predicate OccursAt(s: string, sub: string, i: nat)
  {
    i + |sub| <= |s| && s[i..i + |sub|] == sub
  }

  /** The leftmost index `>= from` at which `sub` occurs in `s` (`String.prototype.indexOf`). */
  function IndexOf(s: string, sub: string, from: nat): (r: Option<nat>)
    ensures r.Some? ==> from <= r.value && OccursAt(s, sub, r.value)
    ensures r.Some? ==> forall i :: from <= i < r.value ==> !OccursAt(s, sub, i)
    ensures r.None? ==> forall i :: from <= i ==> !OccursAt(s, sub, i)
    decreases |s| - from
  {
    if from + |sub| > |s| then None
    else if s[from..from + |sub|] == sub then Some(from)
    else IndexOf(s, sub, from + 1)
  }

  /** `String.prototype.includes`: whether `sub` occurs anywhere in `s`, case-sensitively. */
  function Includes(s: string, sub: string): (b: bool)
    ensures b <==> exists i :: OccursAt(s, sub, i)
  {
    IndexOf(s, sub, 0).Some?
  }
}
