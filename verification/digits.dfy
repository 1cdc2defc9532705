/**
 The integer-part digit count used by the coordinate gate: the length of
 Python's `str(int(abs(v)))` for a finite float `v`.
 */
module Digits {

  predicate IsDigit(c: char) {
    '0' <= c <= '9'
  }

  /** The character of a single decimal digit. */
  function DigitChar(d: nat): (c: char)
    requires d < 10
    ensures IsDigit(c) && DigitValue(c) == d
  {
    ('0' as int + d) as char
  }

  /** The value of a decimal digit character. */
  function DigitValue(c: char): (d: nat)
    requires IsDigit(c)
    ensures d < 10
  {
    c as int - '0' as int
  }

  /** Decimal rendering of a natural number, as Python's `str` writes a non-negative int:
      digits only, no sign and no leading zero. */
  function DecimalString(n: nat): (s: string)
    ensures |s| >= 1
    ensures forall i :: 0 <= i < |s| ==> IsDigit(s[i])
    ensures n > 0 ==> s[0] != '0'
    ensures n == 0 ==> s == "0"
    decreases n
  {
    if n < 10 then [DigitChar(n)] else DecimalString(n / 10) + [DigitChar(n % 10)]
  }

  /** Reads a string of decimal digits back as a number (most significant digit first). */
  function ValueOf(s: string): nat
    requires forall i :: 0 <= i < |s| ==> IsDigit(s[i])
    decreases |s|
  {
    if s == [] then 0 else ValueOf(s[..|s| - 1]) * 10 + DigitValue(s[|s| - 1])
  }

  /** Reading the decimal rendering back gives the number it renders. */
  lemma {:induction false} ValueOfDecimalString(n: nat)
    ensures ValueOf(DecimalString(n)) == n
    decreases n
  {
    if n >= 10 {
      var s := DecimalString(n);
      assert s[..|s| - 1] == DecimalString(n / 10);
      ValueOfDecimalString(n / 10);
    }
  }

  function Pow10(k: nat): (p: nat)
    ensures p >= 1
  {
    if k == 0 then 1 else 10 * Pow10(k - 1)
  }

  lemma {:induction false} Pow10Monotone(i: nat, j: nat)
    requires i <= j
    ensures Pow10(i) <= Pow10(j)
    decreases j - i
  {
    if i < j {
      Pow10Monotone(i, j - 1);
    }
  }

  /** `k` is the number of decimal digits of `n` (zero is written with one digit). */
  ghost predicate HasDigitCount(n: nat, k: nat) {
    && k >= 1
    && n < Pow10(k)
    && (k == 1 || Pow10(k - 1) <= n)
  }

  /** Each natural number has exactly one digit count. */
  lemma DigitCountUnique(n: nat, k1: nat, k2: nat)
    requires HasDigitCount(n, k1) && HasDigitCount(n, k2)
    ensures k1 == k2
  {
    if k1 < k2 {
      Pow10Monotone(k1, k2 - 1);
    } else if k2 < k1 {
      Pow10Monotone(k2, k1 - 1);
    }
  }

  /** The decimal rendering of `n` is exactly as long as `n` has digits. */
  lemma {:induction false} DecimalStringLength(n: nat)
    ensures HasDigitCount(n, |DecimalString(n)|)
    decreases n
  {
    if n >= 10 {
      var q := n / 10;
      DecimalStringLength(q);
      var k := |DecimalString(q)|;
      assert |DecimalString(n)| == k + 1;
      assert n < 10 * Pow10(k) by {
        assert q + 1 <= Pow10(k);
        assert n < 10 * (q + 1);
      }
      assert Pow10(k) <= n by {
        if k > 1 {
          assert Pow10(k - 1) <= q;
        }
        assert 10 * q <= n;
      }
    }
  }

  /** The integer part of `|v|`: Python's `int(abs(v))`, which truncates toward zero,
      that is floors a non-negative value. */
  function IntegerPart(v: real): (n: nat)
    ensures n as real <= (if v < 0.0 then -v else v) < n as real + 1.0
  {
    (if v < 0.0 then -v else v).Floor
  }

  /** Python's `len(str(int(abs(float(v)))))`: the number of decimal digits in the
      integer part of `|v|`, never less than one. */
  function IntegerDigits(v: real): (k: nat)
    ensures k >= 1
    ensures HasDigitCount(IntegerPart(v), k)
  {
    DecimalStringLength(IntegerPart(v));
    |DecimalString(IntegerPart(v))|
  }

  /** The digit count ignores the sign. */
  lemma IntegerDigitsIgnoresSign(v: real)
    ensures IntegerDigits(-v) == IntegerDigits(v)
  {
  }

  /** The digit count ignores the fractional part. */
  lemma IntegerDigitsIgnoresFraction(v: real)
    ensures IntegerDigits(v) == IntegerDigits(IntegerPart(v) as real)
  {
  }

  /** The digit count is exactly the power-of-ten band the integer part lies in. */
  lemma IntegerDigitsBand(v: real, k: nat)
    ensures IntegerDigits(v) == k <==> HasDigitCount(IntegerPart(v), k)
  {
    if HasDigitCount(IntegerPart(v), k) {
      DigitCountUnique(IntegerPart(v), k, IntegerDigits(v));
    }
  }

  /** Worked values: 0.7 has one digit, 12.9 and 12.0 both have two, -100.1 has three. */
  lemma IntegerDigitsExamples()
    ensures IntegerDigits(0.7) == 1
    ensures IntegerDigits(12.9) == 2 && IntegerDigits(12.0) == 2
    ensures IntegerDigits(-100.1) == 3
  {
  }
}
