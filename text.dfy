/**
 * String helpers shared by the components: JavaScript's rendering of
 * integers in template literals, lower-case hexadecimal digits, prefix and
 * suffix tests, and `String.prototype.trim`.
 */
module Text {

  predicate IsDecimalDigit(c: char) { '0' <= c <= '9' }

  predicate IsDecimal(s: string) { forall i :: 0 <= i < |s| ==> IsDecimalDigit(s[i]) }

  function DigitChar(d: int): (c: char)
    requires 0 <= d < 10
    ensures IsDecimalDigit(c) && c as int - '0' as int == d
  {
    (d + '0' as int) as char
  }

  /** `${n}` for a non-negative integer: its shortest decimal form. */
  function NatToString(n: nat): (s: string)
    ensures |s| >= 1 && IsDecimal(s)
    ensures s[0] == '0' ==> n == 0
    decreases n
  {
    if n < 10 then [DigitChar(n)] else NatToString(n / 10) + [DigitChar(n % 10)]
  }

  /** The value a string of decimal digits denotes; the inverse of NatToString. */
  function ParseNat(s: string): nat
    requires IsDecimal(s)
    decreases |s|
  {
    if s == [] then 0
    else ParseNat(s[..|s| - 1]) * 10 + (s[|s| - 1] as int - '0' as int)
  }

  lemma {:induction false} ParseNatToString(n: nat)
    ensures ParseNat(NatToString(n)) == n
    decreases n
  {
    var s := NatToString(n);
    if n >= 10 {
      ParseNatToString(n / 10);
      assert s[..|s| - 1] == NatToString(n / 10);
    }
  }

  /** `${i}` for any integer. */
  function IntToString(i: int): (s: string)
    ensures |s| >= 1
    ensures i < 0 <==> s[0] == '-'
    ensures i >= 0 ==> s == NatToString(i)
    ensures i < 0 ==> s[1..] == NatToString(-i)
  {
    if i < 0 then "-" + NatToString(-i) else NatToString(i)
  }

  predicate IsLowerHexDigit(c: char) { '0' <= c <= '9' || 'a' <= c <= 'f' }

  /** `v.toString(16)` for a single hexadecimal digit. */
  function HexDigit(v: int): (c: char)
    requires 0 <= v < 16
    ensures IsLowerHexDigit(c)
    ensures v < 10 ==> c as int == '0' as int + v
    ensures v >= 10 ==> c as int == 'a' as int + (v - 10)
  {
    if v < 10 then (v + '0' as int) as char else (v - 10 + 'a' as int) as char
  }

  predicate StartsWith(s: string, prefix: string)
  {
    |prefix| <= |s| && s[..|prefix|] == prefix
  }

  predicate EndsWith(s: string, suffix: string)
  {
    |suffix| <= |s| && s[|s| - |suffix|..] == suffix
  }

  /**
   * The characters `String.prototype.trim` removes: the ECMAScript
   * WhiteSpace code points (TAB, VT, FF, SP, NBSP, ZWNBSP and the Unicode
   * space separators) and the LineTerminator code points (LF, CR, LS, PS).
   */
  predicate IsJsWhitespace(c: char)
  {
    c == '\t' || c == '\n' || c == '\U{000B}' || c == '\U{000C}' || c == '\r' || c == ' '
    || c == '\U{00A0}' || c == '\U{1680}' || ('\U{2000}' <= c <= '\U{200A}')
    || c == '\U{2028}' || c == '\U{2029}' || c == '\U{202F}' || c == '\U{205F}'
    || c == '\U{3000}' || c == '\U{FEFF}'
  }

  predicate AllWhitespace(s: string) { forall i :: 0 <= i < |s| ==> IsJsWhitespace(s[i]) }

  /** Every character of `s` from `lo` up to `hi` is whitespace. */
  predicate BlankBetween(s: string, lo: int, hi: int)
  {
    forall k :: lo <= k < hi && 0 <= k < |s| ==> IsJsWhitespace(s[k])
  }

  /** The number of whitespace characters `s` starts with. */
  function LeadingBlanks(s: string): (n: nat)
    ensures n <= |s|
    ensures BlankBetween(s, 0, n)
    ensures n < |s| ==> !IsJsWhitespace(s[n])
    decreases |s|
  {
    if |s| > 0 && IsJsWhitespace(s[0]) then 1 + LeadingBlanks(s[1..]) else 0
  }

  /** The number of whitespace characters `s` ends with. */
  function TrailingBlanks(s: string): (n: nat)
    ensures n <= |s|
    ensures BlankBetween(s, |s| - n, |s|)
    ensures n < |s| ==> !IsJsWhitespace(s[|s| - 1 - n])
    decreases |s|
  {
    if |s| > 0 && IsJsWhitespace(s[|s| - 1]) then 1 + TrailingBlanks(s[..|s| - 1]) else 0
  }

  /**
   * `s.trim()`: the infix of `s` that neither starts nor ends with
   * whitespace, everything cut off on either side being whitespace.
   */
  function Trim(s: string): (t: string)
    ensures exists i :: && 0 <= i <= |s| - |t| && t == s[i..i + |t|]
                        && BlankBetween(s, 0, i) && BlankBetween(s, i + |t|, |s|)
    ensures |t| > 0 ==> !IsJsWhitespace(t[0]) && !IsJsWhitespace(t[|t| - 1])
  {
    var i := LeadingBlanks(s);
    var a := s[i..];
    var j := TrailingBlanks(a);
    var t := s[i..|s| - j];
    assert |t| > 0 ==> t[0] == s[i] && t[|t| - 1] == a[|a| - 1 - j];
    assert BlankBetween(s, i + |t|, |s|) by {
      forall k | i + |t| <= k < |s| ensures IsJsWhitespace(s[k]) {
        assert s[k] == a[k - i];
      }
    }
    assert t == s[i..i + |t|];
    t
  }

  /** A string trims to "" exactly when it is blank; this is what `!s.trim()` tests. */
  lemma TrimEmptyIffBlank(s: string)
    ensures Trim(s) == "" <==> AllWhitespace(s)
  {
  }

  /** A string that neither starts nor ends with whitespace is its own trim. */
  lemma TrimUnpadded(s: string)
    requires |s| > 0 ==> !IsJsWhitespace(s[0]) && !IsJsWhitespace(s[|s| - 1])
    ensures Trim(s) == s
  {
    assert LeadingBlanks(s) == 0;
    assert s[0..] == s;
    assert TrailingBlanks(s) == 0;
  }

  /** Trimming a trimmed string changes nothing. */
  lemma TrimIdempotent(s: string)
    ensures Trim(Trim(s)) == Trim(s)
  {
    TrimUnpadded(Trim(s));
  }
}
