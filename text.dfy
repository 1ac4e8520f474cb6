/** The string primitives the storefront relies on: JavaScript's
    `String.prototype.trim` and the decimal rendering of a price inside
    a template literal (`${value}`). */
module Text {

  /** The characters `trim()` removes: ECMAScript WhiteSpace and LineTerminator. */
  predicate IsWhitespace(c: char) {
    || c == ' ' || c == '\t' || c == '\n' || c == '\r'
    || c == '\U{000B}' || c == '\U{000C}' || c == '\U{00A0}' || c == '\U{1680}'
    || ('\U{2000}' <= c <= '\U{200A}')
    || c == '\U{2028}' || c == '\U{2029}' || c == '\U{202F}' || c == '\U{205F}'
    || c == '\U{3000}' || c == '\U{FEFF}'
  }

  /** `s.trim().length === 0` */
  predicate IsBlank(s: string) {
    forall i :: 0 <= i < |s| ==> IsWhitespace(s[i])
  }

  /** Number of whitespace characters at the start of `s`. */
  function LeadingBlanks(s: string): (k: nat)
    ensures k <= |s|
    ensures IsBlank(s[..k])
    ensures k < |s| ==> !IsWhitespace(s[k])
  {
    if |s| > 0 && IsWhitespace(s[0]) then
      var k' := LeadingBlanks(s[1..]);
      assert s[..k' + 1] == [s[0]] + s[1..][..k'];
      k' + 1
    else
      0
  }

  /** Number of whitespace characters at the end of `s`. */
  function TrailingBlanks(s: string): (k: nat)
    ensures k <= |s|
    ensures IsBlank(s[|s| - k..])
    ensures k < |s| ==> !IsWhitespace(s[|s| - 1 - k])
  {
    if |s| > 0 && IsWhitespace(s[|s| - 1]) then
      var k' := TrailingBlanks(s[..|s| - 1]);
      TrailingStep(s, k');
      k' + 1
    else
      0
  }

  /** One more whitespace character at the end extends the blank suffix. */
  lemma TrailingStep(s: string, k: nat)
    requires |s| > 0 && IsWhitespace(s[|s| - 1]) && k <= |s| - 1
    requires IsBlank(s[..|s| - 1][|s| - 1 - k..])
    requires k < |s| - 1 ==> !IsWhitespace(s[..|s| - 1][|s| - 2 - k])
    ensures IsBlank(s[|s| - (k + 1)..])
    ensures k + 1 < |s| ==> !IsWhitespace(s[|s| - 2 - k])
  {
    var p := s[..|s| - 1];
    var suffix := s[|s| - (k + 1)..];
    forall i | 0 <= i < k + 1 ensures IsWhitespace(suffix[i]) {
      if i < k {
        assert suffix[i] == p[|s| - 1 - k..][i];
      }
    }
    if k + 1 < |s| {
      assert s[|s| - 2 - k] == p[|s| - 2 - k];
    }
  }

  /** `s.trim()`: `s` without its leading and trailing whitespace. */
  function Trim(s: string): (r: string)
    ensures exists i, j :: 0 <= i <= j <= |s| && r == s[i..j] && IsBlank(s[..i]) && IsBlank(s[j..])
    ensures r != [] ==> !IsWhitespace(r[0]) && !IsWhitespace(r[|r| - 1])
    ensures r == [] <==> IsBlank(s)
  {
    var i := LeadingBlanks(s);
    if i == |s| then
      assert s[..i] == s;
      s[i..i]
    else
      var k := TrailingBlanks(s[i..]);
      assert k < |s| - i by {
        assert !IsWhitespace(s[i..][0]);
      }
      var j := |s| - k;
      assert s[i..][|s[i..]| - k..] == s[j..];
      assert !IsBlank(s) by {
        assert !IsWhitespace(s[i]);
      }
      s[i..j]
  }

  /** `'0'` … `'9'` */
  predicate IsDigit(c: char) {
    '0' <= c <= '9'
  }

  function DigitChar(d: nat): (c: char)
    requires d < 10
    ensures IsDigit(c) && c as int - '0' as int == d
  {
    ('0' as int + d) as char
  }

  /** Value of a digit character (0 for any other character). */
  function DigitValue(c: char): nat {
    if IsDigit(c) then c as int - '0' as int else 0
  }

  /** Reads a string of decimal digits, most significant digit first. */
  function ParseNat(s: string): nat {
    if s == [] then 0 else 10 * ParseNat(s[..|s| - 1]) + DigitValue(s[|s| - 1])
  }

  /** Reads an optionally `-`-signed decimal integer. */
  function ParseInt(s: string): int {
    if |s| > 0 && s[0] == '-' then -(ParseNat(s[1..]) as int) else ParseNat(s)
  }

  /** Decimal rendering of a natural number without leading zeros. */
  function NatToDecimal(n: nat): (r: string)
    ensures |r| >= 1 && forall i :: 0 <= i < |r| ==> IsDigit(r[i])
    ensures r[0] == '0' <==> n == 0
    ensures n == 0 ==> r == "0"
    ensures IsCanonicalDecimal(r)
    ensures ParseNat(r) == n
    decreases n
  {
    if n < 10 then
      var r := [DigitChar(n)];
      assert r[..0] == [];
      r
    else
      var p := NatToDecimal(n / 10);
      var r := p + [DigitChar(n % 10)];
      assert r[..|r| - 1] == p;
      r
  }

  /** A digit string in canonical form: at least one digit, and no leading
      zero unless it is the single digit `0`. */
  predicate IsCanonicalDecimal(s: string) {
    |s| >= 1 && (forall i :: 0 <= i < |s| ==> IsDigit(s[i])) && (s[0] == '0' ==> |s| == 1)
  }

  /** A digit string with a non-zero first digit reads as a positive number. */
  lemma {:induction false} ParseNatPositive(s: string)
    requires |s| >= 1 && (forall i :: 0 <= i < |s| ==> IsDigit(s[i])) && s[0] != '0'
    ensures ParseNat(s) >= 1
  {
    if |s| > 1 {
      var p := s[..|s| - 1];
      assert p[0] == s[0];
      ParseNatPositive(p);
    }
  }

  /** The rendering of `n` is the one canonical digit string that reads as
      `n`: `NatToDecimal` writes exactly the usual decimal numeral. */
  lemma {:induction false} CanonicalDecimalIsRendering(s: string)
    requires IsCanonicalDecimal(s)
    ensures s == NatToDecimal(ParseNat(s))
  {
    var n := ParseNat(s);
    if |s| == 1 {
      assert s[..0] == [];
      assert n == DigitValue(s[0]);
      assert [DigitChar(n)] == s;
    } else {
      var p := s[..|s| - 1];
      assert p[0] == s[0];
      ParseNatPositive(p);
      var m := ParseNat(p);
      var d := DigitValue(s[|s| - 1]);
      assert n == 10 * m + d && d < 10;
      assert n / 10 == m && n % 10 == d;
      CanonicalDecimalIsRendering(p);
      assert DigitChar(d) == s[|s| - 1];
      assert s == p + [s[|s| - 1]];
    }
  }

  /** `${i}` for an integer `i`: a minus sign for negative values, then the
      canonical digits of its magnitude. */
  function IntToDecimal(i: int): (r: string)
    ensures |r| >= 1
    ensures r[0] == '-' <==> i < 0
    ensures i >= 0 ==> r == NatToDecimal(i)
    ensures i < 0 ==> r == "-" + NatToDecimal(-i)
    ensures ParseInt(r) == i
  {
    if i < 0 then
      var d := NatToDecimal(-i);
      assert ("-" + d)[1..] == d;
      "-" + d
    else
      NatToDecimal(i)
  }

  /** Distinct integers render differently. */
  lemma IntToDecimalInjective(a: int, b: int)
    ensures IntToDecimal(a) == IntToDecimal(b) ==> a == b
  {
  }
}
