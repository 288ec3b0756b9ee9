/** Decimal and hexadecimal text, as the filter literals and the stored parameters use it. */
module Text {
  import opened Domain

  // ---- Decimal ----

  predicate IsDigit(c: char) {
    '0' <= c <= '9'
  }

  predicate IsDigits(s: string) {
    forall i :: 0 <= i < |s| ==> IsDigit(s[i])
  }

  function DigitValue(c: char): (r: nat)
    requires IsDigit(c)
    ensures r < 10
  {
    (c as int) - ('0' as int)
  }

  function Digit(n: nat): (c: char)
    requires n < 10
    ensures IsDigit(c) && DigitValue(c) == n
  {
    ((('0' as int) + n) as char)
  }

  function ParseNat(s: string): nat
    requires IsDigits(s)
  {
    if s == "" then 0 else ParseNat(s[..|s| - 1]) * 10 + DigitValue(s[|s| - 1])
  }

  function PrintNat(n: nat): (s: string)
    ensures s != "" && IsDigits(s)
  {
    if n < 10 then [Digit(n)] else PrintNat(n / 10) + [Digit(n % 10)]
  }

  lemma {:induction false} ParsePrintNat(n: nat)
    ensures ParseNat(PrintNat(n)) == n
  {
    if n < 10 {
      assert PrintNat(n)[..0] == "";
    } else {
      ParsePrintNat(n / 10);
      assert PrintNat(n)[..|PrintNat(n)| - 1] == PrintNat(n / 10);
    }
  }

  const DECIMAL := "0123456789"

  /** A digit's value is its place among the digits. */
  lemma DigitTable(c: char)
    ensures IsDigit(c) <==> c in DECIMAL
    ensures IsDigit(c) ==> DigitValue(c) < |DECIMAL| && DECIMAL[DigitValue(c)] == c
  {
    assert DECIMAL[0] == '0' && DECIMAL[1] == '1' && DECIMAL[2] == '2' && DECIMAL[3] == '3' && DECIMAL[4] == '4';
    assert DECIMAL[5] == '5' && DECIMAL[6] == '6' && DECIMAL[7] == '7' && DECIMAL[8] == '8' && DECIMAL[9] == '9';
  }

  function Pow10(n: nat): nat {
    if n == 0 then 1 else 10 * Pow10(n - 1)
  }

  lemma OneDigit(c: char)
    requires IsDigit(c)
    ensures ParseNat([c]) < 10 && DECIMAL[ParseNat([c])] == c
  {
    DigitTable(c);
    assert [c][..0] == "";
    assert ParseNat([c]) == ParseNat("") * 10 + DigitValue(c);
  }

  lemma ShiftOne(high: nat, scale: nat, low: nat, digit: nat)
    ensures (high * scale + low) * 10 + digit == high * (10 * scale) + (low * 10 + digit)
  {
  }

  /** Decimal text is positional: what stands before `b` counts a power of ten for each digit of `b`. */
  lemma {:induction false} ParsePositional(a: string, b: string)
    requires IsDigits(a) && IsDigits(b)
    ensures IsDigits(a + b) && ParseNat(a + b) == ParseNat(a) * Pow10(|b|) + ParseNat(b)
    decreases |b|
  {
    if b == "" {
      assert a + b == a;
    } else {
      var init, last := b[..|b| - 1], DigitValue(b[|b| - 1]);
      ParsePositional(a, init);
      assert (a + b)[..|a + b| - 1] == a + init;
      assert (a + b)[|a + b| - 1] == b[|b| - 1];
      ShiftOne(ParseNat(a), Pow10(|init|), ParseNat(init), last);
    }
  }

  lemma PrintNatInjective(a: nat, b: nat)
    requires PrintNat(a) == PrintNat(b)
    ensures a == b
  {
    ParsePrintNat(a);
    ParsePrintNat(b);
  }

  /** Printing drops leading zeros and nothing else. */
  lemma {:induction false} PrintParseShorter(s: string)
    requires IsDigits(s) && s != ""
    ensures |PrintNat(ParseNat(s))| <= |s|
  {
    var init := s[..|s| - 1];
    if init != "" && ParseNat(s) >= 10 {
      PrintParseShorter(init);
      assert ParseNat(s) / 10 == ParseNat(init);
    }
  }

  function PrintInt(i: int): (s: string)
    ensures s != ""
  {
    if i < 0 then "-" + PrintNat(-i) else PrintNat(i)
  }

  function SignedDigits(s: string): string {
    if s != "" && s[0] == '-' then s[1..] else s
  }

  predicate IsSigned(s: string) {
    SignedDigits(s) != "" && IsDigits(SignedDigits(s))
  }

  function ParseInt(s: string): int
    requires IsSigned(s)
  {
    if s[0] == '-' then 0 - ParseNat(s[1..]) else ParseNat(s)
  }

  lemma ParsePrintInt(i: int)
    ensures IsSigned(PrintInt(i)) && ParseInt(PrintInt(i)) == i
  {
    if i < 0 {
      assert PrintInt(i)[1..] == PrintNat(-i);
      ParsePrintNat(-i);
    } else {
      assert IsDigit(PrintNat(i)[0]);
      ParsePrintNat(i);
    }
  }

  lemma PrintParseIntShorter(s: string)
    requires IsSigned(s)
    ensures |PrintInt(ParseInt(s))| <= |s|
  {
    PrintParseShorter(SignedDigits(s));
  }

  // ---- Hexadecimal ----

  predicate IsHexDigit(c: char) {
    '0' <= c <= '9' || 'a' <= c <= 'f' || 'A' <= c <= 'F'
  }

  predicate IsHex(s: string) {
    forall i :: 0 <= i < |s| ==> IsHexDigit(s[i])
  }

  function HexValue(c: char): (r: nat)
    requires IsHexDigit(c)
    ensures r < 16
  {
    if c <= '9' then (c as int) - ('0' as int)
    else if c <= 'F' then (c as int) - ('A' as int) + 10
    else (c as int) - ('a' as int) + 10
  }

  /** Lower-case, as every printer in the source is. */
  function HexDigit(n: nat): (c: char)
    requires n < 16
    ensures IsHexDigit(c) && HexValue(c) == n
  {
    if n < 10 then ((('0' as int) + n) as char) else ((('a' as int) + n - 10) as char)
  }

  function HexEncode(b: Bytes): (s: string)
    ensures |s| == 2 * |b| && IsHex(s)
  {
    if b == [] then "" else [HexDigit(b[0] / 16), HexDigit(b[0] % 16)] + HexEncode(b[1..])
  }

  function HexDecode(s: string): (b: Bytes)
    requires |s| % 2 == 0 && IsHex(s)
    ensures |b| * 2 == |s|
  {
    if s == "" then [] else [HexValue(s[0]) * 16 + HexValue(s[1])] + HexDecode(s[2..])
  }

  lemma {:induction false} DecodeEncode(b: Bytes)
    ensures HexDecode(HexEncode(b)) == b
  {
    if b == [] {
    } else {
      DecodeEncode(b[1..]);
      assert HexEncode(b)[2..] == HexEncode(b[1..]);
    }
  }

  const HEXADECIMAL := "0123456789abcdef"

  predicate HexTableRow(n: nat)
    requires n < 16
  {
    HEXADECIMAL[n] == HexDigit(n) && HexValue(HEXADECIMAL[n]) == n
  }

  /** A digit's value is its place among the digits, and printing uses the lower-case ones. */
  lemma HexTable(n: nat)
    requires n < 16
    ensures HexTableRow(n)
  {
    assert HexTableRow(0) && HexTableRow(1) && HexTableRow(2) && HexTableRow(3) && HexTableRow(4) && HexTableRow(5);
    assert HexTableRow(6) && HexTableRow(7) && HexTableRow(8) && HexTableRow(9) && HexTableRow(10) && HexTableRow(11);
    assert HexTableRow(12) && HexTableRow(13) && HexTableRow(14) && HexTableRow(15);
  }

  /** Upper-case digits count as their lower-case ones. */
  function Lower(c: char): char {
    if 'A' <= c <= 'F' then ((c as int) + 32) as char else c
  }

  lemma HexOfChar(c: char)
    requires IsHexDigit(c)
    ensures HEXADECIMAL[HexValue(c)] == Lower(c)
  {
    HexTable(HexValue(c));
    assert HexDigit(HexValue(c)) == Lower(c);
  }

  predicate ShowsByte(byte: Byte, high: char, low: char) {
    HEXADECIMAL[byte / 16] == Lower(high) && HEXADECIMAL[byte % 16] == Lower(low)
  }

  lemma OneByte(high: char, low: char)
    requires IsHexDigit(high) && IsHexDigit(low)
    ensures ShowsByte(HexValue(high) * 16 + HexValue(low), high, low)
  {
    HexOfChar(high);
    HexOfChar(low);
    var h, l := HexValue(high), HexValue(low);
    assert (h * 16 + l) / 16 == h && (h * 16 + l) % 16 == l;
  }

  /** Hexadecimal text is two digits a byte, high digit first; any case is read. */
  lemma {:induction false} HexPositional(s: string, i: nat)
    requires |s| % 2 == 0 && IsHex(s) && 2 * i < |s|
    ensures ShowsByte(HexDecode(s)[i], s[2 * i], s[2 * i + 1])
    decreases |s|
  {
    OneByte(s[0], s[1]);
    if i == 0 {
    } else {
      var rest := s[2..];
      HexPositional(rest, i - 1);
      assert rest[2 * i - 2] == s[2 * i] && rest[2 * i - 1] == s[2 * i + 1];
      assert HexDecode(s)[i] == HexDecode(rest)[i - 1];
    }
  }

  /** Printing uses lower-case digits. */
  lemma {:induction false} HexPrints(b: Bytes, i: nat)
    requires i < |b|
    ensures HexEncode(b)[2 * i] == HEXADECIMAL[b[i] / 16] && HexEncode(b)[2 * i + 1] == HEXADECIMAL[b[i] % 16]
    decreases |b|
  {
    if i == 0 {
      HexTable(b[0] / 16);
      HexTable(b[0] % 16);
    } else {
      HexPrints(b[1..], i - 1);
      assert HexEncode(b) == HexEncode(b)[..2] + HexEncode(b[1..]);
    }
  }

  predicate Prefixed(s: string) {
    |s| >= 2 && s[..2] == "0x"
  }

  function HexText(b: Bytes): (s: string)
    ensures Prefixed(s) && s[2..] == HexEncode(b)
  {
    "0x" + HexEncode(b)
  }
}
