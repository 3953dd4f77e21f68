/**
 * The handful of Python string operations the sensors rely on: substring
 * tests, `str.replace`, ASCII case mapping, `str.split` on one character,
 * decimal rendering of integers, and the subset of `int()` / `float()`
 * parsing that the StokerCloud payloads and entity states use.
 */
module Text {
  import opened Wrappers

  // ---------------------------------------------------------------------
  // Substrings

  predicate StartsWith(s: string, prefix: string) {
    |prefix| <= |s| && s[..|prefix|] == prefix
  }

  /** Python's `s.endswith(suffix)`. */
  predicate EndsWith(s: string, suffix: string) {
    |suffix| <= |s| && s[|s| - |suffix|..] == suffix
  }

  /** Python's `sub in s`. */
  predicate Contains(s: string, sub: string)
    decreases |s|
  {
    StartsWith(s, sub) || (|s| > 0 && Contains(s[1..], sub))
  }

  /** Python's `s.replace(old, new)`: every non-overlapping occurrence, left to right. */
  function ReplaceAll(s: string, pattern: string, replacement: string): (r: string)
    requires |pattern| > 0
    ensures !Contains(s, pattern) ==> r == s
    decreases |s|
  {
    if |s| < |pattern| then s
    else if s[..|pattern|] == pattern then replacement + ReplaceAll(s[|pattern|..], pattern, replacement)
    else [s[0]] + ReplaceAll(s[1..], pattern, replacement)
  }

  /** A pattern whose first character never occurs in `s` does not occur in it. */
  lemma {:induction false} FirstCharAbsentNotContained(s: string, pattern: string)
    requires |pattern| > 0
    requires forall i :: 0 <= i < |s| ==> s[i] != pattern[0]
    ensures !Contains(s, pattern)
    decreases |s|
  {
    if |s| > 0 {
      assert s[0] != pattern[0];
      FirstCharAbsentNotContained(s[1..], pattern);
    }
  }

  /** A leading occurrence is replaced and the rest is processed on its own. */
  lemma ReplaceAllLeading(pattern: string, rest: string, replacement: string)
    requires |pattern| > 0
    ensures ReplaceAll(pattern + rest, pattern, replacement) == replacement + ReplaceAll(rest, pattern, replacement)
  {
    assert (pattern + rest)[..|pattern|] == pattern;
    assert (pattern + rest)[|pattern|..] == rest;
  }

  // ---------------------------------------------------------------------
  // ASCII case mapping (the compared literals are all ASCII)

  function UpperChar(c: char): char {
    if 'a' <= c <= 'z' then (c as int - 32) as char else c
  }

  function LowerChar(c: char): char {
    if 'A' <= c <= 'Z' then (c as int + 32) as char else c
  }

  function Upper(s: string): (r: string)
    ensures |r| == |s|
    ensures forall i :: 0 <= i < |s| ==> r[i] == UpperChar(s[i])
  {
    seq(|s|, i requires 0 <= i < |s| => UpperChar(s[i]))
  }

  function Lower(s: string): (r: string)
    ensures |r| == |s|
    ensures forall i :: 0 <= i < |s| ==> r[i] == LowerChar(s[i])
  {
    seq(|s|, i requires 0 <= i < |s| => LowerChar(s[i]))
  }

  // ---------------------------------------------------------------------
  // Splitting on one separator character and joining back

  function IndexOf(s: string, c: char): (r: Option<nat>)
    ensures r.None? ==> forall i :: 0 <= i < |s| ==> s[i] != c
    ensures r.Some? ==> r.value < |s| && s[r.value] == c && forall i :: 0 <= i < r.value ==> s[i] != c
  {
    if |s| == 0 then None
    else if s[0] == c then Some(0)
    else match IndexOf(s[1..], c)
      case None => None
      case Some(k) => Some(k + 1)
  }

  /** Python's `s.split(sep)` for a one-character separator. */
  function Split(s: string, sep: char): (parts: seq<string>)
    ensures |parts| >= 1
    ensures forall p :: p in parts ==> sep !in p
    decreases |s|
  {
    match IndexOf(s, sep)
    case None => [s]
    case Some(k) => [s[..k]] + Split(s[k + 1..], sep)
  }

  /** Python's `sep.join(parts)`. */
  function Join(parts: seq<string>, sep: char): string
    requires |parts| >= 1
  {
    if |parts| == 1 then parts[0] else parts[0] + [sep] + Join(parts[1..], sep)
  }

  /** Splitting and joining on the same separator gives the original text back. */
  lemma {:induction false} JoinSplit(s: string, sep: char)
    ensures Join(Split(s, sep), sep) == s
    decreases |s|
  {
    match IndexOf(s, sep)
    case None =>
    case Some(k) =>
      var rest := Split(s[k + 1..], sep);
      JoinSplit(s[k + 1..], sep);
      assert Split(s, sep) == [s[..k]] + rest;
      assert ([s[..k]] + rest)[1..] == rest;
      assert s == s[..k] + [sep] + s[k + 1..];
  }

  /** Splitting a text with no separator in it gives that text alone. */
  lemma SplitNoSeparator(s: string, sep: char)
    requires sep !in s
    ensures Split(s, sep) == [s]
  {
  }

  /** Splitting `a + sep + b` where `a` has no separator peels `a` off first. */
  lemma SplitCons(a: string, b: string, sep: char)
    requires sep !in a
    ensures Split(a + [sep] + b, sep) == [a] + Split(b, sep)
  {
    var s := a + [sep] + b;
    assert s[|a|] == sep;
    assert forall i :: 0 <= i < |a| ==> s[i] == a[i];
    assert IndexOf(s, sep) == Some(|a|);
    assert s[..|a|] == a;
    assert s[|a| + 1..] == b;
  }

  // ---------------------------------------------------------------------
  // Decimal digits

  predicate IsDigit(c: char) {
    '0' <= c <= '9'
  }

  predicate AllDigits(s: string) {
    forall i :: 0 <= i < |s| ==> IsDigit(s[i])
  }

  function DigitValue(c: char): nat
    requires IsDigit(c)
  {
    c as int - '0' as int
  }

  function DigitChar(d: nat): (c: char)
    requires d < 10
    ensures IsDigit(c) && DigitValue(c) == d
  {
    ('0' as int + d) as char
  }

  /** The number written by a string of decimal digits (the empty string is 0). */
  function DigitsValue(s: string): nat
    requires AllDigits(s)
    decreases |s|
  {
    if |s| == 0 then 0 else DigitsValue(s[..|s| - 1]) * 10 + DigitValue(s[|s| - 1])
  }

  /** The value of the digits after a decimal point: "25" is 0.25. */
  function FractionValue(s: string): (r: real)
    requires AllDigits(s)
    ensures 0.0 <= r <= 1.0
    decreases |s|
  {
    if |s| == 0 then 0.0 else (DigitValue(s[0]) as real + FractionValue(s[1..])) / 10.0
  }

  /** Python's `str(n)` for a non-negative integer. */
  function NatToString(n: nat): (s: string)
    ensures |s| >= 1 && AllDigits(s)
    ensures DigitsValue(s) == n
    ensures n > 0 ==> s[0] != '0'
  {
    if n < 10 then [DigitChar(n)]
    else
      var front := NatToString(n / 10);
      var s := front + [DigitChar(n % 10)];
      assert s[..|s| - 1] == front;
      s
  }

  /** Python's `str(i)` for an integer. */
  function IntToString(i: int): (s: string)
    ensures |s| >= 1
    ensures i >= 0 ==> AllDigits(s)
    ensures i < 0 ==> s[0] == '-' && AllDigits(s[1..])
  {
    if i < 0 then "-" + NatToString(-i) else NatToString(i)
  }

  // ---------------------------------------------------------------------
  // Parsing: the subset of `int(text)` and `float(text)` used here.
  // Accepted: an optional sign, then digits with at most one decimal point
  // (for `float`). Not accepted: surrounding blanks, `_` separators,
  // exponents, "inf" and "nan".

  function ParseUnsignedInt(s: string): (r: Option<int>)
    ensures r.Some? <==> |s| > 0 && AllDigits(s)
    ensures r.Some? ==> r.value >= 0
  {
    if |s| > 0 && AllDigits(s) then Some(DigitsValue(s)) else None
  }

  /** `int(text)` for a text of the form `[+-]digits`. */
  function ParseInt(s: string): Option<int> {
    if |s| > 0 && s[0] == '-' then
      match ParseUnsignedInt(s[1..])
      case Some(n) => Some(-n)
      case None => None
    else if |s| > 0 && s[0] == '+' then ParseUnsignedInt(s[1..])
    else ParseUnsignedInt(s)
  }

  function ParseUnsignedDecimal(s: string): (r: Option<real>)
    ensures r.Some? ==> r.value >= 0.0
  {
    match IndexOf(s, '.')
    case None =>
      if |s| > 0 && AllDigits(s) then Some(DigitsValue(s) as real) else None
    case Some(k) =>
      var whole := s[..k];
      var frac := s[k + 1..];
      if AllDigits(whole) && AllDigits(frac) && (|whole| > 0 || |frac| > 0) then
        Some(DigitsValue(whole) as real + FractionValue(frac))
      else None
  }

  /** `float(text)` for a text of the form `[+-]digits[.digits]`. */
  function ParseDecimal(s: string): Option<real> {
    if |s| > 0 && s[0] == '-' then
      match ParseUnsignedDecimal(s[1..])
      case Some(v) => Some(-v)
      case None => None
    else if |s| > 0 && s[0] == '+' then ParseUnsignedDecimal(s[1..])
    else ParseUnsignedDecimal(s)
  }

  /** A text that parses as a number starts with a sign, a digit or a point. */
  lemma ParseDecimalHead(s: string)
    requires ParseDecimal(s).Some?
    ensures |s| > 0 && (s[0] == '-' || s[0] == '+' || s[0] == '.' || IsDigit(s[0]))
  {
    var body := if |s| > 0 && (s[0] == '-' || s[0] == '+') then s[1..] else s;
    assert ParseUnsignedDecimal(body).Some?;
    if |s| > 0 && (s[0] == '-' || s[0] == '+') {
    } else {
      match IndexOf(s, '.')
      case None =>
      case Some(k) =>
        if k > 0 {
          assert s[..k][0] == s[0];
        }
    }
  }

  /** The host's placeholder states are not numbers: `float("unknown")` raises. */
  lemma PlaceholdersDoNotParse()
    ensures ParseDecimal("unknown").None?
    ensures ParseDecimal("unavailable").None?
    ensures ParseDecimal("on").None?
    ensures ParseDecimal("off").None?
  {
    if ParseDecimal("unknown").Some? { ParseDecimalHead("unknown"); }
    if ParseDecimal("unavailable").Some? { ParseDecimalHead("unavailable"); }
    if ParseDecimal("on").Some? { ParseDecimalHead("on"); }
    if ParseDecimal("off").Some? { ParseDecimalHead("off"); }
  }

  /** `int(str(i)) == i`: rendering an integer and parsing it back is the identity. */
  lemma IntRoundTrip(i: int)
    ensures ParseInt(IntToString(i)) == Some(i)
  {
    if i < 0 {
      assert IntToString(i)[1..] == NatToString(-i);
    } else {
      var s := NatToString(i);
      assert s[0] != '-' && s[0] != '+' by {
        assert IsDigit(s[0]);
      }
    }
  }

  /** `float(str(i)) == i` for an integer rendered without a decimal point. */
  lemma DecimalRoundTrip(i: int)
    ensures ParseDecimal(IntToString(i)) == Some(i as real)
  {
    var n: nat := if i < 0 then -i else i;
    var digits := NatToString(n);
    assert '.' !in digits;
    if i < 0 {
      assert IntToString(i)[1..] == digits;
    } else {
      assert digits[0] != '-' && digits[0] != '+' by {
        assert IsDigit(digits[0]);
      }
    }
  }
}
