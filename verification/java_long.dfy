/**
 * Java's 64-bit `long`: its range, the two's-complement wrap-around of its
 * arithmetic, and `Long.parseLong(String)` with radix 10, which the keep-alive
 * strategy uses to read the `timeout` parameter of a Keep-Alive header.
 */
module JavaLong {
  import opened Wrappers

  const MinLong: int := -0x8000_0000_0000_0000
  const MaxLong: int := 0x7FFF_FFFF_FFFF_FFFF
  const LongModulus: int := 0x1_0000_0000_0000_0000

  predicate InLongRange(x: int) {
    MinLong <= x <= MaxLong
  }

  /** The value a Java `long` holds after an arithmetic result `x` wraps around. */
  function WrapLong(x: int): (r: int)
    ensures InLongRange(r)
    ensures (r - x) % LongModulus == 0
    ensures InLongRange(x) ==> r == x
  {
    (x - MinLong) % LongModulus + MinLong
  }

  function Pow10(n: nat): (p: nat)
    ensures p >= 1
  {
    if n == 0 then 1 else 10 * Pow10(n - 1)
  }

  predicate IsDigit(c: char) {
    '0' <= c <= '9'
  }

  predicate AllDigits(s: string) {
    forall i :: 0 <= i < |s| ==> IsDigit(s[i])
  }

  function DigitValue(c: char): (d: nat)
    requires IsDigit(c)
    ensures d < 10
  {
    c as int - '0' as int
  }

  function DigitChar(d: nat): (c: char)
    requires d < 10
    ensures IsDigit(c) && DigitValue(c) == d
  {
    (d + '0' as int) as char
  }

  /** The number a string of decimal digits denotes, most significant digit first. */
  function DigitsValue(ds: string): (v: nat)
    requires AllDigits(ds)
    ensures v < Pow10(|ds|)
  {
    if |ds| == 0 then 0
    else DigitsValue(ds[..|ds| - 1]) * 10 + DigitValue(ds[|ds| - 1])
  }

  /** The part of `s` after one optional leading sign character. */
  function Magnitude(s: string): string {
    if |s| > 0 && (s[0] == '-' || s[0] == '+') then s[1..] else s
  }

  function SignedValue(negative: bool, magnitude: nat): int {
    if negative then -(magnitude as int) else magnitude
  }

  /**
   * `Long.parseLong(s)`: an optional `+` or `-`, then one or more decimal
   * digits, whose signed value must fit in a `long`; `None` stands for the
   * `NumberFormatException` thrown otherwise (empty string, lone sign, any
   * other character, out of range).
   */
  function ParseLong(s: string): (r: Option<int>)
    ensures r.Some? ==> InLongRange(r.value)
    ensures r.Some? ==> |Magnitude(s)| > 0 && AllDigits(Magnitude(s))
    ensures r.Some? ==> r.value == SignedValue(s[0] == '-', DigitsValue(Magnitude(s)))
    ensures r.Some? && |s| > 0 && s[0] == '-' ==> r.value <= 0
    ensures r.Some? && !(|s| > 0 && s[0] == '-') ==> r.value >= 0
  {
    var digits := Magnitude(s);
    if |digits| == 0 || !AllDigits(digits) then None
    else
      var v := SignedValue(s[0] == '-', DigitsValue(digits));
      if InLongRange(v) then Some(v) else None
  }

  /** Decimal digits of a natural number, without leading zeros. */
  function NatToDigits(n: nat): (ds: string)
    ensures |ds| > 0 && AllDigits(ds)
  {
    (if n < 10 then [] else NatToDigits(n / 10)) + [DigitChar(n % 10)]
  }

  /** `Long.toString(n)`: the canonical decimal form, the partner of `ParseLong`. */
  function LongToString(n: int): (s: string)
    ensures |s| > 0
  {
    if n < 0 then "-" + NatToDigits(-n) else NatToDigits(n)
  }

  lemma {:induction false} DigitsValueOfNatToDigits(n: nat)
    ensures DigitsValue(NatToDigits(n)) == n
  {
    var ds := NatToDigits(n);
    var prefix := if n < 10 then [] else NatToDigits(n / 10);
    var last := n % 10;
    assert ds == prefix + [DigitChar(last)];
    assert ds[..|ds| - 1] == prefix;
    assert DigitValue(ds[|ds| - 1]) == last;
    var q := n / 10;
    assert n == q * 10 + last;
    if n >= 10 {
      DigitsValueOfNatToDigits(q);
      assert DigitsValue(prefix) == q;
    } else {
      assert q == 0;
    }
  }

  lemma {:induction false} Pow10Monotone(m: nat, n: nat)
    requires m <= n
    ensures Pow10(m) <= Pow10(n)
  {
    if m < n {
      Pow10Monotone(m, n - 1);
    }
  }

  /** Any string of at most eighteen digits, with or without a sign, is a valid `long`. */
  lemma ShortNumeralsParse(s: string)
    requires 0 < |Magnitude(s)| <= 18 && AllDigits(Magnitude(s))
    ensures ParseLong(s).Some?
    ensures ParseLong(s).value == SignedValue(s[0] == '-', DigitsValue(Magnitude(s)))
  {
    Pow10Monotone(|Magnitude(s)|, 18);
    assert Pow10(6) == 1_000_000;
    assert Pow10(12) == 1_000_000_000_000;
    assert Pow10(18) == 1_000_000_000_000_000_000;
  }

  /** `ParseLong` on a well-formed numeral whose value fits yields that value. */
  lemma ParseLongOfNumeral(s: string)
    requires 0 < |Magnitude(s)| && AllDigits(Magnitude(s))
    requires InLongRange(SignedValue(s[0] == '-', DigitsValue(Magnitude(s))))
    ensures ParseLong(s) == Some(SignedValue(s[0] == '-', DigitsValue(Magnitude(s))))
  {
  }

  function Abs(n: int): nat {
    if n < 0 then -n else n
  }

  /** The decimal form of `n` is a minus sign exactly for negative `n`, then the digits of `|n|`. */
  lemma LongToStringShape(n: int)
    ensures Magnitude(LongToString(n)) == NatToDigits(Abs(n))
    ensures (LongToString(n)[0] == '-') == (n < 0)
  {
  }

  /** Every `long` survives a round trip through its decimal form. */
  lemma {:induction false} ParseLongToString(n: int)
    requires InLongRange(n)
    ensures ParseLong(LongToString(n)) == Some(n)
  {
    LongToStringShape(n);
    DigitsValueOfNatToDigits(Abs(n));
    ParseLongOfNumeral(LongToString(n));
  }

  /**
   * A numeral whose value does not fit in a `long` is rejected, however it
   * is written: the decimal form of any integer outside the range fails to parse.
   */
  lemma {:induction false} OutOfRangeRejected(n: int)
    requires !InLongRange(n)
    ensures ParseLong(LongToString(n)) == None
  {
    LongToStringShape(n);
    DigitsValueOfNatToDigits(Abs(n));
  }

  /** `Long.parseLong` on sample inputs: signs, leading zeros, and the strings it rejects. */
  lemma ParseLongSamples()
    ensures ParseLong("") == None && ParseLong("-") == None && ParseLong("+") == None
    ensures ParseLong("+7") == Some(7) && ParseLong("007") == Some(7) && ParseLong("-0") == Some(0)
    ensures ParseLong("1 ") == None && ParseLong(" 1") == None && ParseLong("--1") == None
  {
    assert "007"[..2] == "00" && "00"[..1] == "0";
  }
}
