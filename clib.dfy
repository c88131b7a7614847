/**
 * The parts of the C library the interpreter core relies on: the `<ctype.h>`
 * classifications in the "C" locale, `atoi`, the `"%d"` conversion of `sprintf`,
 * and the range of a 32-bit `int`.
 */
module CLib {

  const INT_MIN: int := -0x8000_0000
  const INT_MAX: int := 0x7FFF_FFFF

  predicate IsInt32(x: int) {
    INT_MIN <= x <= INT_MAX
  }

  // ---------------------------------------------------------------- <ctype.h>

  /** `isspace`: space, tab, newline, vertical tab, form feed, carriage return. */
  predicate IsSpace(c: char) {
    c == ' ' || c == '\t' || c == '\n' || c == '\U{000B}' || c == '\U{000C}' || c == '\r'
  }

  predicate IsDigit(c: char) {
    '0' <= c <= '9'
  }

  predicate IsAlpha(c: char) {
    ('A' <= c <= 'Z') || ('a' <= c <= 'z')
  }

  predicate IsAlnum(c: char) {
    IsAlpha(c) || IsDigit(c)
  }

  predicate AllDigits(s: string) {
    forall k :: 0 <= k < |s| ==> IsDigit(s[k])
  }

  function DigitValue(c: char): (d: nat)
    requires IsDigit(c)
    ensures d < 10
  {
    (c as int) - ('0' as int)
  }

  function DigitChar(d: nat): (c: char)
    requires d < 10
    ensures IsDigit(c) && DigitValue(c) == d
  {
    (('0' as int) + d) as char
  }

  // ---------------------------------------------------------------- atoi

  /** Length of the longest prefix of `s` whose characters all satisfy `isspace`. */
  function LeadingSpaces(s: string): (n: nat)
    ensures n <= |s|
    ensures forall k :: 0 <= k < n ==> IsSpace(s[k])
    ensures n < |s| ==> !IsSpace(s[n])
  {
    if s != [] && IsSpace(s[0]) then 1 + LeadingSpaces(s[1..]) else 0
  }

  /** Length of the longest prefix of `s` made of decimal digits. */
  function LeadingDigits(s: string): (n: nat)
    ensures n <= |s| && AllDigits(s[..n])
    ensures n < |s| ==> !IsDigit(s[n])
  {
    if s != [] && IsDigit(s[0]) then 1 + LeadingDigits(s[1..]) else 0
  }

  /** The number written by a string of decimal digits, most significant first. */
  function DecimalValue(digits: string): nat
    requires AllDigits(digits)
  {
    if digits == [] then 0
    else 10 * DecimalValue(digits[..|digits| - 1]) + DigitValue(digits[|digits| - 1])
  }

  /** The magnitude `atoi` reads after the optional sign: the leading digits' value. */
  function UnsignedPrefixValue(s: string): nat {
    var n := LeadingDigits(s);
    DecimalValue(s[..n])
  }

  /**
   * `atoi(s)`: skip leading white space, read an optional `+` or `-`, then the
   * longest run of digits; anything after the digits is ignored, and text with no
   * digits reads as 0. The result is not reduced to 32 bits (C leaves an
   * out-of-range `atoi` undefined); callers check the range themselves.
   */
  function Atoi(s: string): (n: int)
    ensures s == [] ==> n == 0
  {
    var t := s[LeadingSpaces(s)..];
    if t != [] && t[0] == '-' then -(UnsignedPrefixValue(t[1..]) as int)
    else if t != [] && t[0] == '+' then UnsignedPrefixValue(t[1..])
    else UnsignedPrefixValue(t)
  }

  // ---------------------------------------------------------------- sprintf("%d")

  /** Decimal digits of a natural number, without leading zeros. */
  function NatToDecimal(n: nat): (s: string)
    ensures s != [] && AllDigits(s)
    ensures |s| > 1 ==> s[0] != '0'
  {
    if n < 10 then [DigitChar(n)] else NatToDecimal(n / 10) + [DigitChar(n % 10)]
  }

  /** The text `sprintf(buf, "%d", n)` writes: a minus sign for negatives, then the digits. */
  function IntToDecimal(n: int): (s: string)
    ensures s != []
    ensures n < 0 <==> s[0] == '-'
    ensures var digits := if n < 0 then s[1..] else s;
            digits != [] && AllDigits(digits) && (|digits| > 1 ==> digits[0] != '0')
  {
    if n < 0 then "-" + NatToDecimal(-n) else NatToDecimal(n)
  }

  lemma {:induction false} DecimalValueOfNatToDecimal(n: nat)
    ensures DecimalValue(NatToDecimal(n)) == n
    decreases n
  {
    var s := NatToDecimal(n);
    if n >= 10 {
      DecimalValueOfNatToDecimal(n / 10);
      assert s[..|s| - 1] == NatToDecimal(n / 10);
    }
  }

  lemma {:induction false} LeadingDigitsOfAllDigits(s: string)
    requires AllDigits(s)
    ensures LeadingDigits(s) == |s|
    decreases |s|
  {
    if s != [] {
      LeadingDigitsOfAllDigits(s[1..]);
    }
  }

  /** Text that starts with a letter has no leading digits, so `atoi` reads it as 0. */
  lemma AtoiOfLetterName(s: string)
    requires s != [] && IsAlpha(s[0])
    ensures Atoi(s) == 0
  {
    assert LeadingSpaces(s) == 0;
    assert s[0..] == s;
    assert LeadingDigits(s) == 0;
  }

  /** `atoi` of a string of digits alone is the number they write. */
  lemma AtoiOfDigits(s: string)
    requires AllDigits(s)
    ensures Atoi(s) == DecimalValue(s)
  {
    LeadingDigitsOfAllDigits(s);
    if s != [] {
      assert !IsSpace(s[0]) && LeadingSpaces(s) == 0;
      assert s[0..] == s;
    }
    assert s[..|s|] == s;
  }

  /** Round trip: `atoi` reads back exactly the number `"%d"` wrote. */
  lemma AtoiOfIntToDecimal(n: int)
    ensures Atoi(IntToDecimal(n)) == n
  {
    var s := IntToDecimal(n);
    var m: nat := if n < 0 then -n else n;
    var digits := NatToDecimal(m);
    assert !IsSpace(s[0]);
    assert LeadingSpaces(s) == 0;
    assert s[LeadingSpaces(s)..] == s;
    LeadingDigitsOfAllDigits(digits);
    DecimalValueOfNatToDecimal(m);
    assert digits[..|digits|] == digits;
    if n < 0 {
      assert s[1..] == digits;
    } else {
      assert s == digits;
      assert IsDigit(s[0]);
    }
  }
}
