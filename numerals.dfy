/** Rendering of natural numbers as digit strings in a radix between 2 and 16, as
    Rust's `format!("{}", n)` does for radix 10 and JavaScript's `n.toString(16)` for
    radix 16: lower-case digits, no leading zeros, "0" for zero. The inverse reads
    such a string back and also accepts upper-case letters, as JavaScript's
    `parseInt` does. */
module Numerals {

  /** The digit character for a digit value below 16: '0'..'9' then 'a'..'f'. */
  function DigitChar(d: nat): (c: char)
    requires d < 16
    ensures '0' <= c <= '9' || 'a' <= c <= 'f'
  {
    if d < 10 then (48 + d) as char else (87 + d) as char
  }

  /** The value of a digit character, case-insensitive; -1 for a non-digit. */
  function DigitValue(c: char): (v: int)
    ensures -1 <= v < 36
  {
    if '0' <= c <= '9' then c as int - 48
    else if 'a' <= c <= 'z' then c as int - 87
    else if 'A' <= c <= 'Z' then c as int - 55
    else -1
  }

  /** A character that is a digit of `base`. */
  predicate IsDigit(c: char, base: nat)
  {
    0 <= DigitValue(c) < base
  }

  /** A character that `DigitChar` can produce in radix 16. */
  predicate IsLowerHexChar(c: char)
  {
    '0' <= c <= '9' || 'a' <= c <= 'f'
  }

  /** A non-empty string of digits of `base` without a superfluous leading zero. */
  predicate IsCanonical(s: string, base: nat)
  {
    && |s| >= 1
    && (forall i :: 0 <= i < |s| ==> IsDigit(s[i], base) && IsLowerHexChar(s[i]))
    && (|s| > 1 ==> s[0] != '0')
  }

  lemma DigitRoundTrip(d: nat)
    requires d < 16
    ensures DigitValue(DigitChar(d)) == d
  {
  }

  /** Euclidean division of `n` by a radix at most `n`: a smaller, non-zero quotient. */
  lemma DivideByRadix(n: nat, base: nat)
    requires 2 <= base <= n
    ensures n == n / base * base + n % base
    ensures 0 <= n % base < base
    ensures 1 <= n / base < n
  {
    var q, r := n / base, n % base;
    assert n == q * base + r && 0 <= r < base;
    assert q != 0;
    assert q * base == q * 2 + q * (base - 2);
    assert q * (base - 2) >= 0;
  }

  /** The digits of `n` in radix `base`, most significant first. */
  function ToRadix(n: nat, base: nat): (s: string)
    requires 2 <= base <= 16
    ensures IsCanonical(s, base)
    ensures |s| == 1 <==> n < base
    decreases n
  {
    if n < base then [DigitChar(n)]
    else
      DivideByRadix(n, base);
      ToRadix(n / base, base) + [DigitChar(n % base)]
  }

  /** The number denoted by a string of digits of `base`. */
  function FromRadix(s: string, base: nat): nat
    requires forall i :: 0 <= i < |s| ==> IsDigit(s[i], base)
  {
    if s == [] then 0
    else
      assert IsDigit(s[|s| - 1], base);
      FromRadix(s[..|s| - 1], base) * base + DigitValue(s[|s| - 1]) as nat
  }

  /** Reading back the digits of `n` gives `n`. */
  lemma {:induction false} FromToRadix(n: nat, base: nat)
    requires 2 <= base <= 16
    ensures FromRadix(ToRadix(n, base), base) == n
    decreases n
  {
    var s := ToRadix(n, base);
    if n < base {
      assert s[..0] == [];
      DigitRoundTrip(n);
    } else {
      DivideByRadix(n, base);
      FromToRadix(n / base, base);
      assert s[..|s| - 1] == ToRadix(n / base, base);
      DigitRoundTrip(n % base);
    }
  }

  /** Distinct numbers have distinct renderings. */
  lemma ToRadixInjective(a: nat, b: nat, base: nat)
    requires 2 <= base <= 16
    requires ToRadix(a, base) == ToRadix(b, base)
    ensures a == b
  {
    FromToRadix(a, base);
    FromToRadix(b, base);
  }

  /** A number below `base * base` has at most two digits: the quotient and remainder by `base`. */
  lemma TwoDigits(n: nat, base: nat)
    requires 2 <= base <= 16
    requires base <= n < base * base
    ensures ToRadix(n, base) == [DigitChar(n / base), DigitChar(n % base)]
  {
    assert n / base < base;
  }
}
