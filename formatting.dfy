/**
 * What `snprintf` with `%d` and `%04x` prints for a non-negative integer,
 * what a fixed-size buffer keeps of it, and the digit parser that inverts it.
 */
module Formatting {

  /** The lower-case digit printf uses for `d` (`%d` and `%x`). */
  function DigitChar(d: nat): char
    requires d < 16
  {
    if d < 10 then ('0' as int + d) as char else ('a' as int + d - 10) as char
  }

  /** The value of a lower-case digit; anything else reads as zero. */
  function DigitValue(c: char): nat
  {
    if '0' <= c <= '9' then c as int - '0' as int
    else if 'a' <= c <= 'f' then c as int - 'a' as int + 10
    else 0
  }

  /** The digits of `n` in `base`, most significant first, with no leading zeros. */
  function Digits(n: nat, base: nat): string
    requires 2 <= base <= 16
    decreases n
  {
    if n < base then [DigitChar(n)] else Digits(n / base, base) + [DigitChar(n % base)]
  }

  /** The number a string of digits in `base` denotes (the reference for `Digits`). */
  function Parse(s: string, base: nat): nat
  {
    if s == [] then 0 else Parse(s[..|s| - 1], base) * base + DigitValue(s[|s| - 1])
  }

  function Pow(b: nat, k: nat): nat
  {
    if k == 0 then 1 else b * Pow(b, k - 1)
  }

  function Zeros(k: nat): string
  {
    seq(k, _ => '0')
  }

  /** The `0` flag with a field width: zeros in front up to `width` characters. */
  function PadLeft(s: string, width: nat): string
  {
    if |s| >= width then s else Zeros(width - |s|) + s
  }

  /** `%d` of a non-negative value: decimal digits, no leading zero, denoting `n`. */
  function Decimal(n: nat): (r: string)
    ensures |r| >= 1 && forall i :: 0 <= i < |r| ==> '0' <= r[i] <= '9'
    ensures |r| > 1 ==> r[0] != '0'
    ensures Parse(r, 10) == n
  {
    DigitsRoundTrip(n, 10);
    DigitsShape(n, 10);
    Digits(n, 10)
  }

  /** `%04x`: at least four lower-case hex digits, zero-padded, denoting `n`. */
  function Hex04(n: nat): (r: string)
    ensures |r| >= 4 && forall i :: 0 <= i < |r| ==> '0' <= r[i] <= '9' || 'a' <= r[i] <= 'f'
    ensures Parse(r, 16) == n
  {
    var d := Digits(n, 16);
    DigitsRoundTrip(n, 16);
    DigitsShape(n, 16);
    if |d| < 4 then
      ParseLeadingZeros(4 - |d|, d, 16);
      PadLeft(d, 4)
    else
      PadLeft(d, 4)
  }

  /**
   * What `snprintf(buf, size, ...)` leaves in a `size`-byte buffer, read back as a
   * C string: at most `size - 1` characters, the last byte being the terminating NUL.
   */
  function Truncated(text: string, size: nat): (r: string)
    requires size >= 1
    ensures |r| <= size - 1
    ensures r <= text
    ensures |text| < size ==> r == text
    ensures |text| >= size ==> |r| == size - 1
  {
    if |text| < size then text else text[..size - 1]
  }

  lemma DigitValueOfChar(d: nat)
    requires d < 16
    ensures DigitValue(DigitChar(d)) == d
  {
  }

  lemma ParseSnoc(s: string, c: char, base: nat)
    ensures Parse(s + [c], base) == Parse(s, base) * base + DigitValue(c)
  {
    assert (s + [c])[..|s|] == s;
  }

  lemma {:induction false} DigitsRoundTrip(n: nat, base: nat)
    requires 2 <= base <= 16
    ensures Parse(Digits(n, base), base) == n
    decreases n
  {
    if n < base {
      DigitValueOfChar(n);
    } else {
      var q, r := DigitsStep(n, base);
      DigitsRoundTrip(q, base);
      StepParse(Digits(q, base), DigitChar(r), base, q, r);
    }
  }

  /** The last digit of `n` and the digits before it. */
  lemma DigitsStep(n: nat, base: nat) returns (q: nat, r: nat)
    requires 2 <= base <= 16 && n >= base
    ensures q < n && r < base && n == q * base + r
    ensures Digits(n, base) == Digits(q, base) + [DigitChar(r)]
    ensures DigitValue(DigitChar(r)) == r
  {
    q, r := n / base, n % base;
    DivModFacts(n, base);
    DigitValueOfChar(r);
  }

  lemma DivModFacts(n: nat, d: nat)
    requires 2 <= d && n >= d
    ensures n / d < n && n % d < d && n == (n / d) * d + n % d
  {
  }

  lemma StepParse(s: string, c: char, base: nat, q: nat, r: nat)
    requires Parse(s, base) == q && DigitValue(c) == r
    ensures Parse(s + [c], base) == q * base + r
  {
    ParseSnoc(s, c, base);
  }

  /** A digit of `base` in printf's alphabet: `0`-`9`, then `a`-`f`. */
  predicate IsDigit(c: char, base: nat)
  {
    DigitValue(c) < base && DigitValue(c) < 16 && DigitChar(DigitValue(c)) == c
  }

  /** The printed digits are digits of the base, and a positive number has no leading zero. */
  lemma {:induction false} DigitsShape(n: nat, base: nat)
    requires 2 <= base <= 16
    ensures forall i :: 0 <= i < |Digits(n, base)| ==> IsDigit(Digits(n, base)[i], base)
    ensures |Digits(n, base)| > 1 ==> n >= base
    ensures n > 0 ==> Digits(n, base)[0] != '0'
    decreases n
  {
    if n < base {
      DigitValueOfChar(n);
    } else {
      var q, r := DigitsStep(n, base);
      DigitsShape(q, base);
      assert q > 0;
      var s := Digits(n, base);
      forall i | 0 <= i < |s|
        ensures IsDigit(s[i], base)
      {
        if i == |s| - 1 {
          assert s[i] == DigitChar(r);
        } else {
          assert s[i] == Digits(q, base)[i];
        }
      }
      assert s[0] == Digits(q, base)[0];
    }
  }

  lemma DivBelow(n: nat, b: nat, p: nat)
    requires b > 0 && n < b * p
    ensures n / b < p
  {
  }

  /** `n` below `base` to the `k`th needs at most `k` digits. */
  lemma {:induction false} DigitsLength(n: nat, base: nat, k: nat)
    requires 2 <= base <= 16 && k >= 1 && n < Pow(base, k)
    ensures |Digits(n, base)| <= k
    decreases n
  {
    if n >= base {
      assert k != 1;
      DivBelow(n, base, Pow(base, k - 1));
      DigitsLength(n / base, base, k - 1);
    }
  }

  lemma {:induction false} ParseZeros(k: nat, base: nat)
    ensures Parse(Zeros(k), base) == 0
  {
    if k > 0 {
      assert Zeros(k)[..k - 1] == Zeros(k - 1);
      ParseZeros(k - 1, base);
    }
  }

  /** Leading zeros do not change the value. */
  lemma {:induction false} ParseLeadingZeros(k: nat, s: string, base: nat)
    ensures Parse(Zeros(k) + s, base) == Parse(s, base)
    decreases |s|
  {
    if s == [] {
      assert Zeros(k) + s == Zeros(k);
      ParseZeros(k, base);
    } else {
      var t := Zeros(k) + s;
      assert t[..|t| - 1] == Zeros(k) + s[..|s| - 1];
      assert t[|t| - 1] == s[|s| - 1];
      ParseLeadingZeros(k, s[..|s| - 1], base);
    }
  }

  /**
   * Every 16-bit value prints in one to five decimal digits with no leading
   * zero, and they read back as the value.
   */
  lemma DecimalOfUint16(n: nat)
    requires n < 0x1_0000
    ensures 1 <= |Decimal(n)| <= 5
    ensures forall i :: 0 <= i < |Decimal(n)| ==> '0' <= Decimal(n)[i] <= '9'
    ensures |Decimal(n)| > 1 ==> Decimal(n)[0] != '0'
    ensures Parse(Decimal(n), 10) == n
  {
    assert Pow(10, 5) == 100000;
    DigitsLength(n, 10, 5);
    DigitsRoundTrip(n, 10);
  }

  /**
   * Every 16-bit value prints as exactly four lower-case hex digits, and they
   * read back as the value.
   */
  lemma Hex04OfUint16(n: nat)
    requires n < 0x1_0000
    ensures |Hex04(n)| == 4
    ensures forall i :: 0 <= i < 4 ==> '0' <= Hex04(n)[i] <= '9' || 'a' <= Hex04(n)[i] <= 'f'
    ensures Parse(Hex04(n), 16) == n
  {
    assert Pow(16, 4) == 0x1_0000;
    DigitsLength(n, 16, 4);
    DigitsRoundTrip(n, 16);
    var d := Digits(n, 16);
    if |d| < 4 {
      ParseLeadingZeros(4 - |d|, d, 16);
    }
  }
}
