/**
 * The string operations the services rely on: Java's `trim`, `isBlank`, Spring's `hasText`,
 * JavaScript's `trim`, case mapping (ASCII letters only), substring tests, and the decimal
 * text of a `long` with its parser `Long.parseLong`.
 */
module Strings {
  import opened Wrappers
  import opened Numeric

  /** `Character.isWhitespace`: the Unicode space separators other than the no-break spaces, plus tab, line feed, vertical tab, form feed, carriage return and the four information separators. */
  predicate IsJavaWhitespace(c: char)
  {
    c == ' ' || ('\t' <= c <= '\r') || ('\U{1C}' <= c <= '\U{1F}')
    || c == '\U{1680}' || ('\U{2000}' <= c <= '\U{2006}') || ('\U{2008}' <= c <= '\U{200A}')
    || c == '\U{2028}' || c == '\U{2029}' || c == '\U{205F}' || c == '\U{3000}'
  }

  /** The characters JavaScript's `String.prototype.trim` removes. */
  predicate IsJsWhitespace(c: char)
  {
    c == ' ' || ('\t' <= c <= '\r') || c == '\U{A0}' || c == '\U{1680}'
    || ('\U{2000}' <= c <= '\U{200A}') || c == '\U{2028}' || c == '\U{2029}'
    || c == '\U{202F}' || c == '\U{205F}' || c == '\U{3000}' || c == '\U{FEFF}'
  }

  /** Spring's `StringUtils.hasText`: some character is not whitespace. */
  predicate HasText(s: string)
  {
    exists i :: 0 <= i < |s| && !IsJavaWhitespace(s[i])
  }

  /** Java's `String.isBlank`: every character is whitespace (the empty string included). */
  predicate IsBlank(s: string)
  {
    forall i :: 0 <= i < |s| ==> IsJavaWhitespace(s[i])
  }

  lemma BlankIffNoText(s: string)
    ensures IsBlank(s) <==> !HasText(s)
  {
  }

  /** The number of leading characters satisfying `drop`. */
  function LeadingCount(s: string, drop: char -> bool): (k: nat)
    ensures k <= |s|
    ensures forall i :: 0 <= i < k ==> drop(s[i])
    ensures k < |s| ==> !drop(s[k])
  {
    if |s| > 0 && drop(s[0]) then 1 + LeadingCount(s[1..], drop) else 0
  }

  /** The number of trailing characters satisfying `drop`. */
  function TrailingCount(s: string, drop: char -> bool): (k: nat)
    ensures k <= |s|
    ensures forall i :: |s| - k <= i < |s| ==> drop(s[i])
    ensures k < |s| ==> !drop(s[|s| - k - 1])
  {
    if |s| > 0 && drop(s[|s| - 1]) then 1 + TrailingCount(s[..|s| - 1], drop) else 0
  }

  /** Removes the leading characters satisfying `drop`. */
  function TrimStart(s: string, drop: char -> bool): string
  {
    s[LeadingCount(s, drop)..]
  }

  /** Removes the trailing characters satisfying `drop`. */
  function TrimEnd(s: string, drop: char -> bool): string
  {
    s[..|s| - TrailingCount(s, drop)]
  }

  function TrimWith(s: string, drop: char -> bool): string
  {
    TrimEnd(TrimStart(s, drop), drop)
  }

  /** Java's `String.trim`: strips characters at or below U+0020 from both ends. */
  function Trim(s: string): (r: string)
    ensures |r| <= |s|
    ensures |r| > 0 ==> r[0] > ' ' && r[|r| - 1] > ' '
  {
    TrimWith(s, c => c <= ' ')
  }

  /** JavaScript's `String.prototype.trim`. */
  function JsTrim(s: string): (r: string)
    ensures |r| <= |s|
    ensures |r| > 0 ==> !IsJsWhitespace(r[0]) && !IsJsWhitespace(r[|r| - 1])
  {
    TrimWith(s, IsJsWhitespace)
  }

  /** Trimming a string that does not start or end with a character to drop leaves it unchanged. */
  lemma TrimWithFixed(s: string, drop: char -> bool)
    requires |s| > 0 ==> !drop(s[0]) && !drop(s[|s| - 1])
    ensures TrimWith(s, drop) == s
  {
  }

  /** Trimming twice is trimming once. */
  lemma TrimIdempotent(s: string)
    ensures Trim(Trim(s)) == Trim(s)
  {
    TrimWithFixed(Trim(s), c => c <= ' ');
  }

  /** A blank string trims to a blank string. */
  lemma BlankTrimsToBlank(s: string)
    ensures IsBlank(s) ==> IsBlank(Trim(s))
  {
    var k := LeadingCount(s, c => c <= ' ');
    var rest := s[k..];
    var m := TrailingCount(rest, c => c <= ' ');
    var t := Trim(s);
    assert t == rest[..|rest| - m];
    if IsBlank(s) {
      forall i | 0 <= i < |t|
        ensures IsJavaWhitespace(t[i])
      {
        assert t[i] == s[k + i];
      }
    }
  }

  /** Trimming and lower-casing a blank string leaves a blank string. */
  lemma BlankLowerTrim(s: string)
    requires IsBlank(s)
    ensures IsBlank(Lower(Trim(s)))
  {
    BlankTrimsToBlank(s);
    var t := Trim(s);
    forall i | 0 <= i < |t|
      ensures IsJavaWhitespace(Lower(t)[i])
    {
      assert Lower(t)[i] == LowerChar(t[i]) == t[i];
    }
  }

  function LowerChar(c: char): char
  {
    if 'A' <= c <= 'Z' then (c as int + 32) as char else c
  }

  function UpperChar(c: char): char
  {
    if 'a' <= c <= 'z' then (c as int - 32) as char else c
  }

  /** `toLowerCase(Locale.ROOT)` / Python `str.lower` on ASCII letters; every other character is kept. */
  function Lower(s: string): (r: string)
    ensures |r| == |s|
    ensures forall i {:trigger r[i]} :: 0 <= i < |s| ==> r[i] == LowerChar(s[i])
  {
    if |s| == 0 then "" else [LowerChar(s[0])] + Lower(s[1..])
  }

  /** `toUpperCase(Locale.ROOT)` on ASCII letters; every other character is kept. */
  function Upper(s: string): (r: string)
    ensures |r| == |s|
    ensures forall i {:trigger r[i]} :: 0 <= i < |s| ==> r[i] == UpperChar(s[i])
  {
    if |s| == 0 then "" else [UpperChar(s[0])] + Upper(s[1..])
  }

  predicate StartsWith(s: string, prefix: string)
  {
    |prefix| <= |s| && s[..|prefix|] == prefix
  }

  predicate EndsWith(s: string, suffix: string)
  {
    |suffix| <= |s| && s[|s| - |suffix|..] == suffix
  }

  /** `s.contains(sub)` / `s.includes(sub)`, searched from the left. */
  predicate Contains(s: string, sub: string)
    decreases |s|
  {
    StartsWith(s, sub) || (|s| > 0 && Contains(s[1..], sub))
  }

  /** The search agrees with "some window of `s` equals `sub`". */
  lemma {:induction false} ContainsIff(s: string, sub: string)
    ensures Contains(s, sub) <==> exists i :: OccursAt(s, sub, i)
    decreases |s|
  {
    if StartsWith(s, sub) {
      assert OccursAt(s, sub, 0);
    } else if |s| > 0 {
      ContainsIff(s[1..], sub);
      if Contains(s[1..], sub) {
        var i :| OccursAt(s[1..], sub, i);
        assert s[i + 1..i + 1 + |sub|] == s[1..][i..i + |sub|];
        assert OccursAt(s, sub, i + 1);
      } else if exists i :: OccursAt(s, sub, i) {
        var i :| OccursAt(s, sub, i);
        assert i != 0;
        assert s[1..][i - 1..i - 1 + |sub|] == s[i..i + |sub|];
        assert OccursAt(s[1..], sub, i - 1);
      }
    } else {
      assert forall i :: !OccursAt(s, sub, i);
    }
  }

  /** `sub` occurs in `s` starting at index `i`. */
  predicate OccursAt(s: string, sub: string, i: int)
  {
    0 <= i <= |s| - |sub| && s[i..i + |sub|] == sub
  }

  /** `sub` does not occur in `s` when no two adjacent characters of `s` are the first two of `sub`. */
  lemma {:induction false} NoPairNoContains(s: string, sub: string)
    requires |sub| >= 2
    requires forall i :: 0 <= i < |s| - 1 ==> s[i] != sub[0] || s[i + 1] != sub[1]
    ensures !Contains(s, sub)
    decreases |s|
  {
    if |s| >= |sub| {
      assert s[..|sub|][0] == s[0] && s[..|sub|][1] == s[1];
    }
    if |s| > 0 {
      forall i | 0 <= i < |s[1..]| - 1
        ensures s[1..][i] != sub[0] || s[1..][i + 1] != sub[1]
      {
        assert s[1..][i] == s[i + 1] && s[1..][i + 1] == s[i + 2];
      }
      NoPairNoContains(s[1..], sub);
    }
  }

  /** A string of whitespace contains nothing that starts with another character. */
  lemma BlankContainsNoText(s: string, sub: string)
    requires IsBlank(s) && |sub| > 0 && !IsJavaWhitespace(sub[0])
    ensures !Contains(s, sub)
  {
    ContainsIff(s, sub);
  }

  /** A string contains each of its prefixes. */
  lemma ContainsPrefix(s: string, prefix: string)
    requires StartsWith(s, prefix)
    ensures Contains(s, prefix)
  {
  }

  /** Index of the last occurrence of `c`, or -1 (`String.lastIndexOf(char)`). */
  function LastIndexOf(s: string, c: char): (r: int)
    ensures -1 <= r < |s|
    ensures r >= 0 ==> s[r] == c
    ensures forall i :: r < i < |s| ==> s[i] != c
  {
    if |s| == 0 then -1 else if s[|s| - 1] == c then |s| - 1 else LastIndexOf(s[..|s| - 1], c)
  }

  /** Index of the first occurrence of `c`, or -1 (`String.indexOf(char)`). */
  function IndexOf(s: string, c: char): (r: int)
    ensures -1 <= r < |s|
    ensures r >= 0 ==> s[r] == c
    ensures forall i :: 0 <= i < |s| && (r < 0 || i < r) ==> s[i] != c
  {
    if |s| == 0 then -1
    else if s[0] == c then 0
    else var k := IndexOf(s[1..], c); if k < 0 then -1 else k + 1
  }

  predicate IsDigit(c: char) { '0' <= c <= '9' }

  /** A non-empty run of ASCII digits (Python's `str.isdigit` on ASCII text). */
  predicate AllDigits(s: string)
  {
    |s| > 0 && forall i :: 0 <= i < |s| ==> IsDigit(s[i])
  }

  function DigitChar(d: nat): (c: char)
    requires d < 10
    ensures IsDigit(c)
  {
    ('0' as int + d) as char
  }

  /** The decimal value of a run of digits (`int(s)` / `Long.parseLong` without a sign). */
  function DigitsValue(s: string): nat
    requires forall i :: 0 <= i < |s| ==> IsDigit(s[i])
  {
    if |s| == 0 then 0
    else
      assert IsDigit(s[|s| - 1]);
      DigitsValue(s[..|s| - 1]) * 10 + (s[|s| - 1] as int - '0' as int)
  }

  /** The decimal text of a natural number, without leading zeros (`Long.toString`, `str`). */
  function NatToString(n: nat): (s: string)
    ensures AllDigits(s)
    ensures s[0] != '0' || n == 0
  {
    if n < 10 then [DigitChar(n)] else NatToString(n / 10) + [DigitChar(n % 10)]
  }

  /** Reading back the decimal text of a number gives the number. */
  lemma {:induction false} DigitsRoundTrip(n: nat)
    ensures DigitsValue(NatToString(n)) == n
  {
    if n >= 10 {
      var s := NatToString(n);
      assert s[..|s| - 1] == NatToString(n / 10);
      DigitsRoundTrip(n / 10);
    }
  }

  /** `Long.toString(n)`. */
  function LongToString(n: int): (s: string)
    ensures |s| > 0
    ensures forall i :: 0 <= i < |s| ==> IsDigit(s[i]) || s[i] == '-'
  {
    if n < 0 then "-" + NatToString(-n) else NatToString(n)
  }

  /** `Long.parseLong(s)`: an optional sign, at least one digit, and a value within the `long` range; `None` where Java throws `NumberFormatException`. */
  function ParseLong(s: string): (r: Option<int>)
    ensures r.Some? ==> IsLong(r.value)
    ensures r.Some? ==> |s| > 0
  {
    if |s| == 0 then None
    else
      var negative := s[0] == '-';
      var digits := if s[0] == '-' || s[0] == '+' then s[1..] else s;
      if !AllDigits(digits) then None
      else
        var magnitude: int := DigitsValue(digits);
        var v := if negative then -magnitude else magnitude;
        if IsLong(v) then Some(v) else None
  }

  /** Parsing the text of a `long` gives it back. */
  lemma ParseLongRoundTrip(n: int)
    requires IsLong(n)
    ensures ParseLong(LongToString(n)) == Some(n)
  {
    if n < 0 {
      assert LongToString(n)[1..] == NatToString(-n);
      DigitsRoundTrip(-n);
    } else {
      DigitsRoundTrip(n);
    }
  }

  /** Python's and Java's string comparison: lexicographic by code point, a prefix first. */
  predicate LexLe(a: string, b: string)
    decreases |a|
  {
    |a| == 0 || (|b| > 0 && (a[0] < b[0] || (a[0] == b[0] && LexLe(a[1..], b[1..]))))
  }

  /** Any two strings are ordered one way or the other. */
  lemma {:induction false} LexLeTotal(a: string, b: string)
    ensures LexLe(a, b) || LexLe(b, a)
    decreases |a|
  {
    if |a| > 0 && |b| > 0 && a[0] == b[0] {
      LexLeTotal(a[1..], b[1..]);
    }
  }

  /** The order is transitive. */
  lemma {:induction false} LexLeTransitive(a: string, b: string, c: string)
    requires LexLe(a, b) && LexLe(b, c)
    ensures LexLe(a, c)
    decreases |a|
  {
    if |a| > 0 && a[0] == b[0] && b[0] == c[0] {
      LexLeTransitive(a[1..], b[1..], c[1..]);
    }
  }
}
