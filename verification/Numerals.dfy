/** Digit strings and the numbers they denote. */
module Numerals {

  import opened Arith

  const U64_LIMIT: nat := 0x1_0000_0000_0000_0000

  // 2^256, the range of the wide products
  const U256_LIMIT: nat := U64_LIMIT * U64_LIMIT * U64_LIMIT * U64_LIMIT

  function Pow10(k: nat): (p: nat)
    ensures p >= 1
  {
    if k == 0 then 1 else 10 * Pow10(k - 1)
  }

  predicate IsDigit(c: char) {
    '0' <= c <= '9'
  }

  function DigitOf(c: char): (d: nat)
    requires IsDigit(c)
    ensures d < 10
  {
    c as int - '0' as int
  }

  function DigitChar(d: nat): (c: char)
    requires d < 10
    ensures IsDigit(c) && DigitOf(c) == d
  {
    ('0' as int + d) as char
  }

  predicate AllDigits(s: string) {
    forall i :: 0 <= i < |s| ==> IsDigit(s[i])
  }

  /** The number a digit string denotes, most significant digit first. */
  function Value(s: string): nat
    requires AllDigits(s)
  {
    if s == [] then 0 else 10 * Value(s[..|s| - 1]) + DigitOf(s[|s| - 1])
  }

  /** The shortest decimal text of a number. */
  function ToDec(n: nat): (s: string)
    ensures AllDigits(s) && s != [] && Value(s) == n
    ensures n > 0 ==> s[0] != '0'
  {
    if n < 10 then [DigitChar(n)]
    else
      var front := ToDec(n / 10);
      assert (front + [DigitChar(n % 10)])[..|front|] == front;
      front + [DigitChar(n % 10)]
  }

  lemma PowAdd(a: nat, b: nat)
    ensures Pow10(a + b) == Pow10(a) * Pow10(b)
  {
    if a > 0 {
      PowAdd(a - 1, b);
      Reassociate(10, Pow10(a - 1), Pow10(b));
    }
  }

  lemma {:induction false} PowMonotone(a: nat, b: nat)
    requires a <= b
    ensures Pow10(a) <= Pow10(b)
  {
    if a < b { PowMonotone(a, b - 1); }
  }

  /** Appending digits shifts the number to the left. */
  lemma {:induction false} ValueConcat(a: string, b: string)
    requires AllDigits(a) && AllDigits(b)
    ensures AllDigits(a + b)
    ensures Value(a + b) == Value(a) * Pow10(|b|) + Value(b)
  {
    if b == [] {
      assert a + b == a;
    } else {
      var front := b[..|b| - 1];
      var last := b[|b| - 1];
      ValueConcat(a, front);
      assert (a + b)[..|a + b| - 1] == a + front;
      assert (a + b)[|a + b| - 1] == last;
      Reassociate(Value(a), Pow10(|front|), 10);
    }
  }

  lemma {:induction false} ValueBound(s: string)
    requires AllDigits(s)
    ensures Value(s) < Pow10(|s|)
  {
    if s != [] { ValueBound(s[..|s| - 1]); }
  }

  lemma {:induction false} ValueSingle(s: string)
    requires AllDigits(s) && |s| == 1
    ensures Value(s) == DigitOf(s[0])
  {
    assert s[..0] == [];
    assert Value(s[..0]) == 0;
  }

  /** A leading digit other than zero fixes the magnitude from below. */
  lemma {:induction false} ValueLower(s: string)
    requires AllDigits(s) && s != [] && s[0] != '0'
    ensures Value(s) >= Pow10(|s| - 1)
  {
    assert s == s[..1] + s[1..];
    ValueConcat(s[..1], s[1..]);
    ValueSingle(s[..1]);
    MulOrder(1, DigitOf(s[0]), Pow10(|s| - 1));
  }

  predicate AllZeros(s: string) {
    forall i :: 0 <= i < |s| ==> s[i] == '0'
  }

  lemma {:induction false} ValueZeros(s: string)
    requires AllDigits(s)
    ensures Value(s) == 0 <==> AllZeros(s)
  {
    if s != [] {
      ValueZeros(s[..|s| - 1]);
      if AllZeros(s[..|s| - 1]) && s[|s| - 1] == '0' {
        assert forall i :: 0 <= i < |s| ==> s[i] == '0';
      } else if s[|s| - 1] == '0' {
        assert s[..|s| - 1] <= s;
      } else {
        assert DigitOf(s[|s| - 1]) > 0;
      }
    }
  }

  /** Dropping leading zeros keeps the number. */
  lemma {:induction false} DropLeadingZeros(s: string, k: nat)
    requires AllDigits(s) && k <= |s| && AllZeros(s[..k])
    ensures Value(s[k..]) == Value(s)
  {
    assert s == s[..k] + s[k..];
    ValueConcat(s[..k], s[k..]);
    ValueZeros(s[..k]);
  }

  /** Appending k zeros multiplies by 10^k. */
  lemma {:induction false} AppendZeros(s: string, z: string)
    requires AllDigits(s) && AllDigits(z) && AllZeros(z)
    ensures AllDigits(s + z) && Value(s + z) == Value(s) * Pow10(|z|)
  {
    ValueConcat(s, z);
    ValueZeros(z);
  }
}
