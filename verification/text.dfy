/**
 * Character-level string operations used by both halves of the catalogue:
 * Java's `String.trim()`, `toLowerCase(Locale.ROOT)` restricted to ASCII,
 * `String.contains`, the decimal rendering of integers, and the digit and
 * whitespace classes Spring's number conversion reads.
 */
module Text {

  /** The characters `String.trim()` strips: every code unit up to U+0020. */
  predicate IsSpace(c: char) {
    c <= ' '
  }

  /** Number of leading characters that trimming removes. */
  function LeadingSpaces(s: string): (k: nat)
    ensures k <= |s|
    ensures forall i :: 0 <= i < k ==> IsSpace(s[i])
    ensures k < |s| ==> !IsSpace(s[k])
  {
    if s != [] && IsSpace(s[0]) then 1 + LeadingSpaces(s[1..]) else 0
  }

  /** Number of trailing characters that trimming removes. */
  function TrailingSpaces(s: string): (k: nat)
    ensures k <= |s|
    ensures forall i :: |s| - k <= i < |s| ==> IsSpace(s[i])
    ensures k < |s| ==> !IsSpace(s[|s| - 1 - k])
  {
    if s != [] && IsSpace(s[|s| - 1]) then 1 + TrailingSpaces(s[..|s| - 1]) else 0
  }

  /** Where the trimmed slice starts. */
  function TrimFrom(s: string): (a: nat)
    ensures a <= |s|
    ensures forall i :: 0 <= i < a ==> IsSpace(s[i])
  {
    LeadingSpaces(s)
  }

  /** Where the trimmed slice ends (exclusive). */
  function TrimTo(s: string): (e: nat)
    ensures TrimFrom(s) <= e <= |s|
    ensures forall i :: e <= i < |s| ==> IsSpace(s[i])
    ensures TrimFrom(s) < e ==> !IsSpace(s[TrimFrom(s)]) && !IsSpace(s[e - 1])
  {
    var a := TrimFrom(s);
    var k := TrailingSpaces(s[a..]);
    assert forall i :: |s| - k <= i < |s| ==> s[i] == s[a..][i - a];
    |s| - k
  }

  /** `s.trim()`: the slice between the first and the last non-space character. */
  function Trim(s: string): (r: string)
    ensures |r| <= |s|
    ensures r == [] || (!IsSpace(r[0]) && !IsSpace(r[|r| - 1]))
  {
    s[TrimFrom(s)..TrimTo(s)]
  }

  /** True when the string has no space at either end. */
  predicate IsTrimmed(s: string) {
    s == [] || (!IsSpace(s[0]) && !IsSpace(s[|s| - 1]))
  }

  lemma TrimOfTrimmed(s: string)
    requires IsTrimmed(s)
    ensures Trim(s) == s
  {
    assert LeadingSpaces(s) == 0;
    assert TrailingSpaces(s) == 0;
  }

  /** Blank means "only spaces", i.e. trimming leaves nothing. */
  predicate IsBlank(s: string) {
    Trim(s) == []
  }

  lemma BlankIffAllSpaces(s: string)
    ensures IsBlank(s) <==> forall i :: 0 <= i < |s| ==> IsSpace(s[i])
  {
    if !IsBlank(s) {
      assert s[TrimFrom(s)] == Trim(s)[0];
    }
  }

  /** ASCII lower-casing of one character. */
  function LowerChar(c: char): (d: char)
    ensures 'A' <= c <= 'Z' ==> d as int == c as int + 32
    ensures !('A' <= c <= 'Z') ==> d == c
  {
    if 'A' <= c <= 'Z' then (c as int + 32) as char else c
  }

  /** `s.toLowerCase(Locale.ROOT)` on ASCII letters. */
  function Lower(s: string): (r: string)
    ensures |r| == |s|
    ensures forall i :: 0 <= i < |s| ==> r[i] == LowerChar(s[i])
  {
    seq(|s|, i requires 0 <= i < |s| => LowerChar(s[i]))
  }

  predicate IsLower(s: string) {
    forall i :: 0 <= i < |s| ==> !('A' <= s[i] <= 'Z')
  }

  lemma LowerIsLower(s: string)
    ensures IsLower(Lower(s))
    ensures IsLower(s) ==> Lower(s) == s
  {
  }

  /** Lower-casing never turns a space into a letter nor a letter into a space. */
  lemma LowerKeepsTrimmed(s: string)
    requires IsTrimmed(s)
    ensures IsTrimmed(Lower(s))
  {
  }

  /** `needle` occurs in `haystack` starting at index `i`. */
  predicate OccursAt(haystack: string, needle: string, i: int) {
    0 <= i <= |haystack| - |needle| && haystack[i..i + |needle|] == needle
  }

  /** `haystack.contains(needle)`. */
  predicate Contains(haystack: string, needle: string) {
    exists i :: 0 <= i <= |haystack| - |needle| && OccursAt(haystack, needle, i)
  }

  /**
   * Trimming the haystack does not change which trimmed, non-empty needles it
   * contains: an occurrence cannot start or end inside the stripped spaces.
   */
  lemma ContainsTrimmed(haystack: string, needle: string)
    requires needle != [] && IsTrimmed(needle)
    ensures Contains(Trim(haystack), needle) <==> Contains(haystack, needle)
  {
    if Contains(Trim(haystack), needle) {
      OccurrenceInTrimmed(haystack, needle);
    }
    if Contains(haystack, needle) {
      OccurrenceSurvivesTrim(haystack, needle);
    }
  }

  /** An occurrence in the trimmed text is one in the original, shifted by the leading spaces. */
  lemma OccurrenceInTrimmed(haystack: string, needle: string)
    requires Contains(Trim(haystack), needle)
    ensures Contains(haystack, needle)
  {
    var r := Trim(haystack);
    var a := TrimFrom(haystack);
    var i :| 0 <= i <= |r| - |needle| && OccursAt(r, needle, i);
    assert r == haystack[a..TrimTo(haystack)];
    assert forall k :: 0 <= k < |needle| ==> haystack[a + i + k] == r[i + k] == needle[k];
    assert haystack[a + i..a + i + |needle|] == needle;
    assert OccursAt(haystack, needle, a + i);
  }

  /** A trimmed, non-empty needle cannot overlap the stripped spaces, so its occurrence survives trimming. */
  lemma OccurrenceSurvivesTrim(haystack: string, needle: string)
    requires needle != [] && IsTrimmed(needle)
    requires Contains(haystack, needle)
    ensures Contains(Trim(haystack), needle)
  {
    var r := Trim(haystack);
    var a, e := TrimFrom(haystack), TrimTo(haystack);
    var i :| 0 <= i <= |haystack| - |needle| && OccursAt(haystack, needle, i);
    assert haystack[i..i + |needle|] == needle;
    assert haystack[i] == needle[0];
    assert haystack[i + |needle| - 1] == needle[|needle| - 1];
    assert a <= i;
    assert i + |needle| <= e;
    assert r == haystack[a..e];
    assert forall k :: 0 <= k < |needle| ==> r[i - a + k] == haystack[i + k] == needle[k];
    assert r[i - a..i - a + |needle|] == needle;
    assert OccursAt(r, needle, i - a);
  }

  /** An occurrence in the first part is an occurrence in the whole. */
  lemma ContainsInPrefix(a: string, b: string, needle: string)
    ensures Contains(a, needle) ==> Contains(a + b, needle)
  {
    if Contains(a, needle) {
      var i :| 0 <= i <= |a| - |needle| && OccursAt(a, needle, i);
      assert (a + b)[i..i + |needle|] == a[i..i + |needle|];
      assert OccursAt(a + b, needle, i);
    }
  }

  /** An occurrence in the second part is an occurrence in the whole, shifted by the first part. */
  lemma ContainsInSuffix(a: string, b: string, needle: string)
    ensures Contains(b, needle) ==> Contains(a + b, needle)
  {
    if Contains(b, needle) {
      var i :| 0 <= i <= |b| - |needle| && OccursAt(b, needle, i);
      assert (a + b)[|a| + i..|a| + i + |needle|] == b[i..i + |needle|];
      assert OccursAt(a + b, needle, |a| + i);
    }
  }

  /** The decimal digit for 0..9. */
  function DigitChar(d: nat): (c: char)
    requires d < 10
    ensures '0' <= c <= '9'
  {
    ('0' as int + d) as char
  }

  /** `String(n)` for a non-negative integer. */
  function NatToString(n: nat): (r: string)
    ensures r != []
    ensures forall i :: 0 <= i < |r| ==> '0' <= r[i] <= '9'
    ensures n < 10 ==> |r| == 1
    ensures n >= 10 ==> |r| >= 2
  {
    if n < 10 then [DigitChar(n)] else NatToString(n / 10) + [DigitChar(n % 10)]
  }

  /** `String(n)` for any integer. */
  function IntToString(n: int): (r: string)
    ensures r != []
    ensures n >= 0 ==> r == NatToString(n)
    ensures n < 0 ==> r == "-" + NatToString(-n)
  {
    if n >= 0 then NatToString(n) else "-" + NatToString(-n)
  }

  predicate IsDigit(c: char) {
    '0' <= c <= '9'
  }

  predicate AllDigits(s: string) {
    forall i :: 0 <= i < |s| ==> IsDigit(s[i])
  }

  /** The value of a string of decimal digits, as `Number(d)` and `Integer.parseInt` read it; the empty string is 0. */
  function DecimalValue(d: string): nat
    requires AllDigits(d)
  {
    if d == [] then 0 else DecimalValue(d[..|d| - 1]) * 10 + (d[|d| - 1] as int - '0' as int)
  }

  /** `Character.isWhitespace` for a UTF-16 code unit: the space separators other than the no-break ones, and the ASCII layout controls. */
  predicate IsJavaWhitespace(c: char) {
    ('\t' <= c <= '\r') || ('\U{1C}' <= c <= ' ') || c == '\U{1680}'
    || ('\U{2000}' <= c <= '\U{2006}') || ('\U{2008}' <= c <= '\U{200A}')
    || c == '\U{2028}' || c == '\U{2029}' || c == '\U{205F}' || c == '\U{3000}'
  }

  /** Spring's `StringUtils.trimAllWhitespace`: every whitespace character removed, wherever it stands. */
  function RemoveWhitespace(s: string): (r: string)
    ensures |r| <= |s|
    ensures forall i :: 0 <= i < |r| ==> !IsJavaWhitespace(r[i])
  {
    if s == [] then []
    else if IsJavaWhitespace(s[0]) then RemoveWhitespace(s[1..])
    else [s[0]] + RemoveWhitespace(s[1..])
  }

  /** Removal works piece by piece: the result for a concatenation is the concatenation of the results. */
  lemma {:induction false} RemoveWhitespaceAppend(a: string, b: string)
    ensures RemoveWhitespace(a + b) == RemoveWhitespace(a) + RemoveWhitespace(b)
  {
    if a == [] {
      assert a + b == b;
    } else {
      assert (a + b)[0] == a[0] && (a + b)[1..] == a[1..] + b;
      RemoveWhitespaceAppend(a[1..], b);
    }
  }

  /** Text without whitespace is left as it is. */
  lemma {:induction false} RemoveWhitespaceKeeps(s: string)
    requires forall i :: 0 <= i < |s| ==> !IsJavaWhitespace(s[i])
    ensures RemoveWhitespace(s) == s
  {
    if s != [] {
      RemoveWhitespaceKeeps(s[1..]);
    }
  }

  /** A whitespace character inserted anywhere is removed again. */
  lemma RemoveWhitespaceDropsInserted(a: string, w: char, b: string)
    requires IsJavaWhitespace(w)
    ensures RemoveWhitespace(a + [w] + b) == RemoveWhitespace(a + b)
  {
    RemoveWhitespaceAppend(a + [w], b);
    RemoveWhitespaceAppend(a, [w]);
    assert RemoveWhitespace([w]) == [];
    RemoveWhitespaceAppend(a, b);
  }

  predicate IsHexDigit(c: char) {
    IsDigit(c) || 'a' <= c <= 'f' || 'A' <= c <= 'F'
  }

  predicate AllHexDigits(s: string) {
    forall i :: 0 <= i < |s| ==> IsHexDigit(s[i])
  }

  /** The value of one hexadecimal digit, either case. */
  function HexDigitValue(c: char): (v: nat)
    requires IsHexDigit(c)
    ensures v < 16
    ensures IsDigit(c) ==> v == c as int - '0' as int
  {
    if IsDigit(c) then c as int - '0' as int
    else if 'a' <= c <= 'f' then c as int - 'a' as int + 10
    else c as int - 'A' as int + 10
  }

  /** The value of a string of hexadecimal digits, as `Integer.valueOf(d, 16)` reads it; the empty string is 0. */
  function HexValue(d: string): nat
    requires AllHexDigits(d)
  {
    if d == [] then 0 else HexValue(d[..|d| - 1]) * 16 + HexDigitValue(d[|d| - 1])
  }

  /** Reading back the decimal rendering of a number gives the number. */
  lemma {:induction false} DecimalValueOfNatToString(n: nat)
    ensures AllDigits(NatToString(n))
    ensures DecimalValue(NatToString(n)) == n
  {
    var d := NatToString(n);
    if n >= 10 {
      DecimalValueOfNatToString(n / 10);
      assert d[..|d| - 1] == NatToString(n / 10);
    }
  }
}
