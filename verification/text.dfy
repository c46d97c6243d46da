/**
 * String helpers shared by the server and client models: prefix and
 * suffix tests, substring search, PHP's `str_replace` for one needle,
 * decimal rendering of naturals (PHP string interpolation of an int,
 * JavaScript `String(n)`), ASCII lower-casing and the code-unit order
 * JavaScript's default `Array.prototype.sort` uses on strings.
 */
module Text {

  import opened Wrappers

  predicate IsDigit(c: char) {
    '0' <= c <= '9'
  }

  predicate AllDigits(s: string) {
    forall i :: 0 <= i < |s| ==> IsDigit(s[i])
  }

  /** Lower-case hexadecimal digit, the alphabet of an md5 digest. */
  predicate IsHexDigit(c: char) {
    IsDigit(c) || 'a' <= c <= 'f'
  }

  predicate StartsWith(s: string, prefix: string) {
    |prefix| <= |s| && s[..|prefix|] == prefix
  }

  predicate EndsWith(s: string, suffix: string) {
    |suffix| <= |s| && s[|s| - |suffix|..] == suffix
  }

  /** True iff `sub` occurs in `s` at some position. */
  predicate Contains(s: string, sub: string)
    decreases |s|
  {
    StartsWith(s, sub) || (|s| > 0 && Contains(s[1..], sub))
  }

  /** An occurrence at position `i` makes `Contains` true. */
  lemma {:induction false} ContainsAt(s: string, sub: string, i: nat)
    requires i + |sub| <= |s| && s[i..i + |sub|] == sub
    ensures Contains(s, sub)
    decreases i
  {
    if i == 0 {
      assert s[..|sub|] == sub;
    } else {
      assert s[1..][i - 1..i - 1 + |sub|] == s[i..i + |sub|];
      ContainsAt(s[1..], sub, i - 1);
    }
  }

  /** Every occurrence found by `Contains` sits at some position. */
  lemma {:induction false} ContainsWitness(s: string, sub: string) returns (i: nat)
    requires Contains(s, sub)
    ensures i + |sub| <= |s| && s[i..i + |sub|] == sub
    decreases |s|
  {
    if StartsWith(s, sub) {
      i := 0;
    } else {
      var j := ContainsWitness(s[1..], sub);
      assert s[1..][j..j + |sub|] == s[j + 1..j + 1 + |sub|];
      i := j + 1;
    }
  }

  /** A string found in another is no longer than it. */
  lemma ContainsFits(s: string, sub: string)
    requires Contains(s, sub)
    ensures |sub| <= |s|
  {
    var i := ContainsWitness(s, sub);
  }

  /**
   * PHP `str_replace($pattern, $replacement, $s)` for a single needle:
   * scans left to right and replaces every non-overlapping occurrence.
   * An empty needle leaves the subject unchanged.
   */
  function ReplaceAll(s: string, pattern: string, replacement: string): string
    decreases |s|
  {
    if pattern == [] || |s| < |pattern| then s
    else if s[..|pattern|] == pattern then replacement + ReplaceAll(s[|pattern|..], pattern, replacement)
    else [s[0]] + ReplaceAll(s[1..], pattern, replacement)
  }

  /** A subject without the needle comes back unchanged. */
  lemma {:induction false} ReplaceAllAbsent(s: string, pattern: string, replacement: string)
    requires !Contains(s, pattern)
    ensures ReplaceAll(s, pattern, replacement) == s
    decreases |s|
  {
    if pattern == [] || |s| < |pattern| {
    } else {
      assert s[..|pattern|] != pattern;
      assert !Contains(s[1..], pattern);
      ReplaceAllAbsent(s[1..], pattern, replacement);
      assert [s[0]] + s[1..] == s;
    }
  }

  /** Removing a leading needle and the rest: `str_replace` on `pattern + rest`. */
  lemma StripLeading(pattern: string, rest: string)
    requires pattern != [] && !Contains(rest, pattern)
    ensures ReplaceAll(pattern + rest, pattern, "") == rest
  {
    var s := pattern + rest;
    assert s[..|pattern|] == pattern;
    assert s[|pattern|..] == rest;
    ReplaceAllAbsent(rest, pattern, "");
  }

  function DigitChar(d: nat): (c: char)
    requires d < 10
    ensures IsDigit(c)
  {
    ('0' as int + d) as char
  }

  function DigitValue(c: char): nat
    requires IsDigit(c)
  {
    (c as int - '0' as int) as nat
  }

  /** Decimal rendering of a natural number, without leading zeros. */
  function NatToString(n: nat): (s: string)
    ensures |s| > 0 && AllDigits(s)
    decreases n
  {
    if n < 10 then [DigitChar(n)] else NatToString(n / 10) + [DigitChar(n % 10)]
  }

  /** Decimal rendering of an integer, with a leading `-` when negative. */
  function IntToString(i: int): string {
    if i < 0 then "-" + NatToString(-i) else NatToString(i)
  }

  /** The value of a string of decimal digits, read left to right. */
  function DigitsValue(s: string): nat
    requires AllDigits(s)
    decreases |s|
  {
    if s == [] then 0 else DigitsValue(s[..|s| - 1]) * 10 + DigitValue(s[|s| - 1])
  }

  /** Reading back a rendered natural gives the natural. */
  lemma {:induction false} NatToStringRoundTrip(n: nat)
    ensures DigitsValue(NatToString(n)) == n
    decreases n
  {
    if n >= 10 {
      var s := NatToString(n);
      assert s[..|s| - 1] == NatToString(n / 10);
      NatToStringRoundTrip(n / 10);
    }
  }

  /** Distinct naturals render to distinct strings. */
  lemma NatToStringInjective(a: nat, b: nat)
    requires NatToString(a) == NatToString(b)
    ensures a == b
  {
    NatToStringRoundTrip(a);
    NatToStringRoundTrip(b);
  }

  function Pow10(k: nat): (p: nat)
    ensures p >= 1
  {
    if k == 0 then 1 else 10 * Pow10(k - 1)
  }

  /** A natural below `10^k` renders in at most `k` digits. */
  lemma {:induction false} NatToStringFits(n: nat, k: nat)
    requires 1 <= k && n < Pow10(k)
    ensures |NatToString(n)| <= k
    decreases n
  {
    if n >= 10 {
      NatToStringFits(n / 10, k - 1);
    }
  }

  /** A string of `k` digits is worth less than `10^k`. */
  lemma {:induction false} DigitsBelowPow10(s: string)
    requires AllDigits(s)
    ensures DigitsValue(s) < Pow10(|s|)
    decreases |s|
  {
    if s != [] {
      DigitsBelowPow10(s[..|s| - 1]);
    }
  }

  /** The value of the digits after a decimal point: `0.f`. */
  function Fraction(f: string): (r: real)
    requires AllDigits(f)
    ensures 0.0 <= r < 1.0
  {
    DigitsBelowPow10(f);
    ProperQuotient(DigitsValue(f) as real, Pow10(|f|) as real);
    DigitsValue(f) as real / Pow10(|f|) as real
  }

  /** A quotient of a non-negative number by a larger one lies in [0, 1). */
  lemma ProperQuotient(a: real, b: real)
    requires 0.0 <= a < b
    ensures 0.0 <= a / b < 1.0
  {
    assert a / b * b == a;
  }

  /**
   * The number a decimal prefix of `s` spells: its leading digits, then,
   * after a `.`, the digits that follow as a fraction; 0 when there are none.
   */
  function DecimalValue(s: string): (r: real)
    ensures DigitsValue(LeadingDigits(s)) as real <= r < DigitsValue(LeadingDigits(s)) as real + 1.0
  {
    var whole := LeadingDigits(s);
    var rest := s[|whole|..];
    var frac := if rest != [] && rest[0] == '.' then LeadingDigits(rest[1..]) else [];
    DigitsValue(whole) as real + Fraction(frac)
  }

  /** The leading digits of a digit string followed by a non-digit are that string. */
  lemma {:induction false} LeadingDigitsStop(d: string, rest: string)
    requires AllDigits(d) && (rest == [] || !IsDigit(rest[0]))
    ensures LeadingDigits(d + rest) == d
    decreases |d|
  {
    if d != [] {
      assert (d + rest)[1..] == d[1..] + rest;
      LeadingDigitsStop(d[1..], rest);
    } else {
      assert d + rest == rest;
    }
  }

  /** Digits, a point and digits read as the whole part plus the fraction. */
  lemma DecimalOfPoint(whole: string, frac: string)
    requires AllDigits(whole) && AllDigits(frac)
    ensures DecimalValue(whole + "." + frac) == DigitsValue(whole) as real + Fraction(frac)
  {
    var s := whole + "." + frac;
    LeadingDigitsStop(whole, "." + frac);
    assert s == whole + ("." + frac);
    assert s[|whole|..] == "." + frac;
    assert ("." + frac)[1..] == frac + "";
    LeadingDigitsStop(frac, "");
  }

  /** The longest run of decimal digits at the start of `s`. */
  function LeadingDigits(s: string): (d: string)
    ensures AllDigits(d) && |d| <= |s| && d == s[..|d|]
    decreases |s|
  {
    if s != [] && IsDigit(s[0]) then [s[0]] + LeadingDigits(s[1..]) else []
  }

  /** A string of digits is its own run of leading digits. */
  lemma {:induction false} LeadingDigitsOfDigits(s: string)
    requires AllDigits(s)
    ensures LeadingDigits(s) == s
    decreases |s|
  {
    if s != [] {
      LeadingDigitsOfDigits(s[1..]);
      assert s == [s[0]] + s[1..];
    }
  }

  /**
   * A PHP "empty" optional string: absent (null), `""` or `"0"`.  Both
   * `if ( $date )` and `empty( $date )` treat exactly these as no value.
   */
  predicate EmptyString(s: Option<string>) {
    s.None? || s.value == "" || s.value == "0"
  }

  /** `s` left-padded with `c` to at least `width` characters. */
  function PadLeft(s: string, width: nat, c: char): (r: string)
    ensures |r| == if |s| < width then width else |s|
    ensures r[|r| - |s|..] == s
    ensures forall i :: 0 <= i < |r| - |s| ==> r[i] == c
  {
    if |s| < width then seq(width - |s|, _ => c) + s else s
  }

  /** Padding a string that is still short is padding it after one more fill character. */
  lemma PadStep(s: string, width: nat, c: char)
    requires |s| < width
    ensures PadLeft(s, width, c) == PadLeft([c] + s, width, c)
  {
    var n := width - |s|;
    var fill: string := seq(n - 1, _ => c);
    assert seq(n, _ => c) == fill + [c];
    assert fill + ([c] + s) == (fill + [c]) + s;
    if n == 1 {
      assert fill == [];
    }
  }

  /** A string of digits padded with zeros keeps its value. */
  lemma {:induction false} PadZerosValue(s: string, width: nat)
    requires AllDigits(s)
    ensures AllDigits(PadLeft(s, width, '0'))
    ensures DigitsValue(PadLeft(s, width, '0')) == DigitsValue(s)
    decreases width - |s|
  {
    if |s| < width {
      PadStep(s, width, '0');
      LeadingZeroValue(s);
      PadZerosValue(['0'] + s, width);
    }
  }

  lemma {:induction false} LeadingZeroValue(s: string)
    requires AllDigits(s)
    ensures AllDigits(['0'] + s) && DigitsValue(['0'] + s) == DigitsValue(s)
    decreases |s|
  {
    if s != [] {
      var t := ['0'] + s;
      assert t[..|t| - 1] == ['0'] + s[..|s| - 1];
      LeadingZeroValue(s[..|s| - 1]);
    }
  }

  function LowerChar(c: char): char {
    if 'A' <= c <= 'Z' then (c as int + 32) as char else c
  }

  /** Lower-casing of the ASCII letters; every other character is kept. */
  function ToLowerAscii(s: string): (r: string)
    ensures |r| == |s|
    ensures forall i :: 0 <= i < |s| ==> r[i] == LowerChar(s[i])
  {
    seq(|s|, i requires 0 <= i < |s| => LowerChar(s[i]))
  }

  /** Lexicographic order on character codes, as JavaScript's default sort compares strings. */
  predicate StrLt(a: string, b: string)
    decreases |a|
  {
    if a == [] then b != []
    else if b == [] then false
    else a[0] < b[0] || (a[0] == b[0] && StrLt(a[1..], b[1..]))
  }

  lemma {:induction false} StrLtIrreflexive(a: string)
    ensures !StrLt(a, a)
    decreases |a|
  {
    if a != [] {
      StrLtIrreflexive(a[1..]);
    }
  }

  lemma {:induction false} StrLtTransitive(a: string, b: string, c: string)
    requires StrLt(a, b) && StrLt(b, c)
    ensures StrLt(a, c)
    decreases |a|
  {
    if a != [] && b != [] && c != [] && a[0] == b[0] == c[0] {
      StrLtTransitive(a[1..], b[1..], c[1..]);
    }
  }

  lemma {:induction false} StrLtTotal(a: string, b: string)
    requires a != b
    ensures StrLt(a, b) || StrLt(b, a)
    decreases |a|
  {
    if a != [] && b != [] && a[0] == b[0] {
      assert a == [a[0]] + a[1..] && b == [b[0]] + b[1..];
      StrLtTotal(a[1..], b[1..]);
    }
  }
}
