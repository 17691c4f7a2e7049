/** Integer-to-text and text-to-integer conversions as JavaScript performs
    them: the decimal rendering of an integral Number (a template literal or
    `JSON.stringify`) and `parseInt(s)` called without a radix. Numbers are
    unbounded integers here; `NaN` is `None`. */
module JsNumber {
  import opened Js

  predicate IsDecimalDigit(c: char) {
    '0' <= c <= '9'
  }

  /** A digit of radix 10, or of radix 16 when `hex` (after a `0x` prefix). */
  predicate IsDigit(c: char, hex: bool) {
    IsDecimalDigit(c) || (hex && (('a' <= c <= 'f') || ('A' <= c <= 'F')))
  }

  function DigitChar(d: nat): (c: char)
    requires d < 10
    ensures IsDecimalDigit(c)
  {
    (('0' as int) + d) as char
  }

  function DigitValue(c: char): (d: nat)
    requires IsDigit(c, true)
    ensures d < 16
    ensures IsDecimalDigit(c) ==> d < 10
  {
    if IsDecimalDigit(c) then (c as int) - ('0' as int)
    else if 'a' <= c <= 'f' then (c as int) - ('a' as int) + 10
    else (c as int) - ('A' as int) + 10
  }

  /** The decimal rendering of a natural number. */
  function NatToString(n: nat): (s: string)
    ensures |s| > 0
    ensures forall i :: 0 <= i < |s| ==> IsDecimalDigit(s[i])
    decreases n
  {
    if n < 10 then [DigitChar(n)] else NatToString(n / 10) + [DigitChar(n % 10)]
  }

  /** `${i}` for an integral Number. */
  function IntToString(i: int): (s: string)
    ensures |s| > 0 && (s[0] == '-' || IsDecimalDigit(s[0]))
    ensures forall k :: 0 < k < |s| ==> IsDecimalDigit(s[k])
    ensures IsDecimalDigit(s[|s| - 1])
  {
    if i < 0 then "-" + NatToString(-i) else NatToString(i)
  }

  /** The longest prefix of `s` made of digits of the radix. */
  function LeadingDigits(s: string, hex: bool): (d: string)
    ensures d <= s
    ensures forall i :: 0 <= i < |d| ==> IsDigit(d[i], hex)
    ensures |d| == |s| || !IsDigit(s[|d|], hex)
  {
    if |s| > 0 && IsDigit(s[0], hex) then [s[0]] + LeadingDigits(s[1..], hex) else []
  }

  /** The value of a digit string, read most significant digit first. */
  function DigitsValue(d: string, hex: bool): nat
    requires forall i :: 0 <= i < |d| ==> IsDigit(d[i], hex)
  {
    if d == [] then 0
    else
      assert IsDigit(d[|d| - 1], hex);
      DigitsValue(d[..|d| - 1], hex) * (if hex then 16 else 10) + DigitValue(d[|d| - 1])
  }

  /** `parseInt(s)` with no radix argument: leading white space is skipped, an
      optional sign is read, a `0x`/`0X` prefix switches to radix 16, and the
      longest run of digits that follows is converted; no digits gives NaN. */
  function ParseInt(s: string): Option<int> {
    var t := TrimStart(s);
    var negative := |t| > 0 && t[0] == '-';
    var u := if |t| > 0 && (t[0] == '-' || t[0] == '+') then t[1..] else t;
    var magnitude := ParseMagnitude(u);
    if magnitude.None? then None
    else if negative then Some(-(magnitude.value as int))
    else Some(magnitude.value as int)
  }

  predicate HasHexPrefix(u: string) {
    |u| >= 2 && u[0] == '0' && (u[1] == 'x' || u[1] == 'X')
  }

  /** The unsigned part of `parseInt`: radix prefix, then leading digits. */
  function ParseMagnitude(u: string): Option<nat> {
    var hex := HasHexPrefix(u);
    var digits := LeadingDigits(if hex then u[2..] else u, hex);
    if digits == [] then None else Some(DigitsValue(digits, hex))
  }

  /** A non-empty run of decimal digits is read in radix 10 as a whole. */
  lemma MagnitudeOfDecimalDigits(u: string)
    requires |u| > 0 && forall i :: 0 <= i < |u| ==> IsDecimalDigit(u[i])
    ensures ParseMagnitude(u) == Some(DigitsValue(u, false))
  {
    assert |u| >= 2 ==> IsDecimalDigit(u[1]);
    assert !HasHexPrefix(u);
    LeadingDigitsOfDigits(u, false);
  }

  lemma {:induction false} LeadingDigitsOfDigits(s: string, hex: bool)
    requires forall i :: 0 <= i < |s| ==> IsDigit(s[i], hex)
    ensures LeadingDigits(s, hex) == s
  {
    if |s| > 0 {
      LeadingDigitsOfDigits(s[1..], hex);
      assert [s[0]] + s[1..] == s;
    }
  }

  lemma DigitValueOfDigitChar(d: nat)
    requires d < 10
    ensures DigitValue(DigitChar(d)) == d
  {
  }

  /** Reading back the decimal rendering of `n` gives `n`. */
  lemma {:induction false} NatToStringValue(n: nat)
    ensures DigitsValue(NatToString(n), false) == n
    decreases n
  {
    var s := NatToString(n);
    if n < 10 {
      DigitValueOfDigitChar(n);
      assert s[..|s| - 1] == [];
    } else {
      assert s[..|s| - 1] == NatToString(n / 10);
      NatToStringValue(n / 10);
      DigitValueOfDigitChar(n % 10);
    }
  }

  /** A non-empty string of decimal digits parses to the number it spells;
      `x` is not a decimal digit, so the hexadecimal prefix never applies. */
  lemma ParseDecimalDigits(s: string)
    requires |s| > 0 && forall i :: 0 <= i < |s| ==> IsDecimalDigit(s[i])
    ensures ParseInt(s) == Some(DigitsValue(s, false) as int)
  {
    TrimStartKeeps(s);
    assert !(s[0] == '-' || s[0] == '+');
    MagnitudeOfDecimalDigits(s);
  }

  /** `parseInt(String(i)) == i` for every integer. */
  lemma ParseIntToString(i: int)
    ensures ParseInt(IntToString(i)) == Some(i)
  {
    var s := IntToString(i);
    TrimStartKeeps(s);
    var n: nat := if i < 0 then -i else i;
    var u := NatToString(n);
    assert i < 0 ==> s[1..] == u;
    assert i >= 0 ==> s == u;
    MagnitudeOfDecimalDigits(u);
    NatToStringValue(n);
  }

  /** A string that starts with neither white space nor a sign is read as
      a magnitude from its first character. */
  lemma ParseUnsigned(s: string)
    requires |s| > 0 && !IsWhiteSpace(s[0]) && s[0] != '-' && s[0] != '+'
    ensures ParseMagnitude(s).None? ==> ParseInt(s).None?
    ensures ParseMagnitude(s).Some? ==> ParseInt(s) == Some(ParseMagnitude(s).value as int)
  {
    TrimStartKeeps(s);
  }

  /** The radix prefix: `parseInt("0x1f")` is 31, not 0. */
  lemma HexPrefixExample()
    ensures ParseInt("0x1f") == Some(31)
  {
    ParseUnsigned("0x1f");
    HexMagnitude();
  }

  lemma HexMagnitude()
    ensures ParseMagnitude("0x1f") == Some(31)
  {
    assert HasHexPrefix("0x1f");
    assert "0x1f"[2..] == "1f";
    LeadingDigitsOfDigits("1f", true);
    HexDigitsValue();
  }

  lemma HexDigitsValue()
    ensures DigitsValue("1f", true) == 31
  {
    assert "1f"[..1] == "1";
    assert "1"[..0] == "";
  }

  /** Only the leading digits count: `parseInt("12ab")` is 12. */
  lemma TrailingGarbageExample()
    ensures ParseInt("12ab") == Some(12)
  {
    ParseUnsigned("12ab");
    DecimalMagnitude();
  }

  lemma DecimalMagnitude()
    ensures ParseMagnitude("12ab") == Some(12)
  {
    assert !HasHexPrefix("12ab");
    assert "12ab"[1..][1..] == "ab";
    assert LeadingDigits("ab", false) == "";
    assert LeadingDigits("12ab", false) == "12";
    DecimalDigitsValue();
  }

  lemma DecimalDigitsValue()
    ensures DigitsValue("12", false) == 12
  {
    assert "12"[..1] == "1";
    assert "1"[..0] == "";
  }
}
