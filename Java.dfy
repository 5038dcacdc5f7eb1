/**
 * The few pieces of Java's runtime semantics that the plugin relies on:
 * String.toLowerCase and toUpperCase (on ASCII letters), 32-bit and 16-bit integer wrap-around,
 * Math.round, the narrowing cast from double to int, and the decimal text of a long.
 */
module JavaLang {

  /** The Java exceptions that the modelled code can raise. */
  datatype Exception = ClassCast | NullPointer | IllegalArgument | StackOverflow

  const INT_MIN: int := -0x8000_0000
  const INT_MAX: int := 0x7fff_ffff

  /** Java `int` values. */
  type Int32 = x: int | INT_MIN <= x <= INT_MAX

  predicate IsUpper(c: char) { 'A' <= c <= 'Z' }

  function LowerChar(c: char): (r: char)
    ensures !IsUpper(r)
    ensures IsUpper(c) ==> r as int == c as int + 32
    ensures !IsUpper(c) ==> r == c
  {
    if IsUpper(c) then (c as int + 32) as char else c
  }

  /** String.toLowerCase, restricted to the ASCII letters. */
  function Lower(s: string): (r: string)
    ensures |r| == |s|
    ensures forall i :: 0 <= i < |s| ==> r[i] == LowerChar(s[i])
  {
    seq(|s|, i requires 0 <= i < |s| => LowerChar(s[i]))
  }

  predicate IsLower(c: char) { 'a' <= c <= 'z' }

  function UpperChar(c: char): (r: char)
    ensures !IsLower(r)
    ensures IsLower(c) ==> r as int == c as int - 32
    ensures !IsLower(c) ==> r == c
  {
    if IsLower(c) then (c as int - 32) as char else c
  }

  /** String.toUpperCase, restricted to the ASCII letters. */
  function Upper(s: string): (r: string)
    ensures |r| == |s|
    ensures forall i :: 0 <= i < |s| ==> r[i] == UpperChar(s[i])
  {
    seq(|s|, i requires 0 <= i < |s| => UpperChar(s[i]))
  }

  /** Lower-casing twice is lower-casing once: table keys are stable. */
  lemma LowerIdempotent(s: string)
    ensures Lower(Lower(s)) == Lower(s)
  {
    assert forall i :: 0 <= i < |s| ==> LowerChar(LowerChar(s[i])) == LowerChar(s[i]);
  }

  /** Two's-complement wrap-around of an int computation (Java `int` overflow). */
  function Wrap32(x: int): (r: Int32)
    ensures (r - x) % 0x1_0000_0000 == 0
    ensures INT_MIN <= x <= INT_MAX ==> r == x
  {
    ((x - INT_MIN) % 0x1_0000_0000) + INT_MIN
  }

  /** The narrowing cast `(short) x` of an int. */
  function ToShort(x: int): (r: int)
    ensures -0x8000 <= r < 0x8000
    ensures (r - x) % 0x1_0000 == 0
    ensures -0x8000 <= x < 0x8000 ==> r == x
  {
    ((x + 0x8000) % 0x1_0000) - 0x8000
  }

  /** Math.round(double): the nearest integer, halves rounded up. */
  function Round(x: real): (r: int)
    ensures x - 1.0 / 2.0 < r as real <= x + 1.0 / 2.0
  {
    (x + 1.0 / 2.0).Floor
  }

  /** The narrowing cast `(int) d` of a double: truncation toward zero, saturating at the int range. */
  function DoubleToInt(d: real): (r: Int32)
    ensures INT_MIN as real <= d <= INT_MAX as real && 0.0 <= d ==> r == d.Floor
    ensures INT_MIN as real <= d <= INT_MAX as real && d < 0.0 ==> r == -((-d).Floor)
    ensures d >= INT_MAX as real ==> r == INT_MAX
    ensures d <= INT_MIN as real ==> r == INT_MIN
  {
    var t := if d >= 0.0 then d.Floor else -((-d).Floor);
    if t > INT_MAX then INT_MAX else if t < INT_MIN then INT_MIN else t
  }

  const LONG_MIN: int := -0x8000_0000_0000_0000
  const LONG_MAX: int := 0x7fff_ffff_ffff_ffff

  function DigitChar(d: int): char
    requires 0 <= d < 10
  {
    ('0' as int + d) as char
  }

  /** The decimal digits of n, most significant first. */
  function Digits(n: nat): string
    decreases n
  {
    if n < 10 then [DigitChar(n)] else Digits(n / 10) + [DigitChar(n % 10)]
  }

  /** String.valueOf(long): a minus sign for a negative value, then the digits of its magnitude. */
  function LongToString(i: int): string
  {
    if i < 0 then "-" + Digits(-i) else Digits(i)
  }

  /** The number a string of decimal digits spells. */
  function DigitsValue(s: string): int
    decreases |s|
  {
    if s == [] then 0 else DigitsValue(s[..|s| - 1]) * 10 + (s[|s| - 1] as int - '0' as int)
  }

  /** Long.parseLong on the text String.valueOf gives: an optional minus sign, then digits. */
  function ParseLong(s: string): int
  {
    if |s| > 0 && s[0] == '-' then -DigitsValue(s[1..]) else DigitsValue(s)
  }

  /** The digits are non-empty decimal digits, with no leading zero, that spell n. */
  lemma {:induction false} DigitsSpell(n: nat)
    ensures |Digits(n)| > 0 && DigitsValue(Digits(n)) == n
    ensures forall k :: 0 <= k < |Digits(n)| ==> '0' <= Digits(n)[k] <= '9'
    ensures Digits(n)[0] != '0' || n == 0
    decreases n
  {
    if n >= 10 {
      DigitsSpell(n / 10);
      var s := Digits(n);
      assert s[..|s| - 1] == Digits(n / 10);
      assert s[0] == Digits(n / 10)[0];
    }
  }

  /** The text of a long reads back as that long, so distinct numbers have distinct texts. */
  lemma LongToStringRoundTrip(i: int)
    ensures ParseLong(LongToString(i)) == i
  {
    if i < 0 {
      DigitsSpell(-i);
      assert LongToString(i)[1..] == Digits(-i);
    } else {
      DigitsSpell(i);
    }
  }
}
