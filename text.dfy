/** The string primitives of the .NET base library that the validator relies on. */
module Text {
  import opened Wrappers

  /** Char.IsWhiteSpace: the Unicode space, line and paragraph separators, and U+0009..U+000D, U+0085. */
  predicate IsWhiteSpace(c: char) {
    var n := c as int;
    (0x09 <= n <= 0x0D) || n == 0x20 || n == 0x85 || n == 0xA0 || n == 0x1680
    || (0x2000 <= n <= 0x200A) || n == 0x2028 || n == 0x2029 || n == 0x202F
    || n == 0x205F || n == 0x3000
  }

  /** string.IsNullOrWhiteSpace: null, empty, or white space only. */
  predicate IsNullOrWhiteSpace(s: Option<string>) {
    s.None? || forall i :: 0 <= i < |s.value| ==> IsWhiteSpace(s.value[i])
  }

  /** Removes the longest prefix of characters satisfying `strip`. */
  function TrimStart(s: string, strip: char -> bool): (r: string)
    ensures |r| <= |s| && r == s[|s| - |r|..]
    ensures r != [] ==> !strip(r[0])
    ensures forall k :: 0 <= k < |s| - |r| ==> strip(s[k])
  {
    if s != [] && strip(s[0]) then
      var r := TrimStart(s[1..], strip);
      assert forall k :: 1 <= k < |s| - |r| ==> s[k] == s[1..][k - 1];
      r
    else s
  }

  /** Removes the longest suffix of characters satisfying `strip`. */
  function TrimEnd(s: string, strip: char -> bool): (r: string)
    ensures |r| <= |s| && r == s[..|r|]
    ensures r != [] ==> !strip(r[|r| - 1])
    ensures forall k :: |r| <= k < |s| ==> strip(s[k])
  {
    if s != [] && strip(s[|s| - 1]) then
      var r := TrimEnd(s[..|s| - 1], strip);
      assert forall k :: |r| <= k < |s| - 1 ==> s[k] == s[..|s| - 1][k];
      r
    else s
  }

  /** Removes leading and trailing characters satisfying `strip`; a string that starts and ends
      with other characters is returned as it is. */
  function Trim(s: string, strip: char -> bool): (r: string)
    ensures r != [] ==> !strip(r[0]) && !strip(r[|r| - 1])
    ensures (s == [] || (!strip(s[0]) && !strip(s[|s| - 1]))) ==> r == s
  {
    TrimEnd(TrimStart(s, strip), strip)
  }

  /** Upper-case ASCII letters to lower case; every other character is left as it is. */
  function ToLowerAscii(c: char): char {
    if 'A' <= c <= 'Z' then (c as int + 32) as char else c
  }

  /** Equality under StringComparison.OrdinalIgnoreCase, restricted to ASCII letters. */
  predicate EqualsIgnoreCase(a: string, b: string) {
    |a| == |b| && forall i :: 0 <= i < |a| ==> ToLowerAscii(a[i]) == ToLowerAscii(b[i])
  }

  predicate IsDecimalDigit(c: char) {
    '0' <= c <= '9'
  }

  /** A non-empty run of the digits 0-9. */
  predicate IsDecimalDigits(s: string) {
    |s| > 0 && forall i :: 0 <= i < |s| ==> IsDecimalDigit(s[i])
  }

  function DigitValue(c: char): nat
    requires IsDecimalDigit(c)
  {
    c as int - '0' as int
  }

  function DigitChar(n: nat): (c: char)
    requires n < 10
    ensures IsDecimalDigit(c) && DigitValue(c) == n
  {
    ('0' as int + n) as char
  }

  /** The number a run of decimal digits denotes, read most significant digit first. */
  function DecimalValue(s: string): nat
    requires forall i :: 0 <= i < |s| ==> IsDecimalDigit(s[i])
  {
    if s == [] then 0 else DecimalValue(s[..|s| - 1]) * 10 + DigitValue(s[|s| - 1])
  }

  /** The shortest decimal spelling of `n`, as Int64.ToString gives it for a non-negative value. */
  function DecimalDigits(n: nat): (s: string)
    ensures IsDecimalDigits(s) && DecimalValue(s) == n
  {
    if n < 10 then
      [DigitChar(n)]
    else
      var init := DecimalDigits(n / 10);
      var s := init + [DigitChar(n % 10)];
      assert s[..|s| - 1] == init;
      s
  }
}
