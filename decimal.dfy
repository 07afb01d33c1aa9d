/**
 * Decimal text of integers, as JavaScript prints an integral number in a
 * template literal (`${n}`): no leading zeros, a '-' for negatives. The
 * parsers are the inverses used to state round trips.
 */
module Decimal {

  predicate IsDigit(c: char) {
    '0' <= c <= '9'
  }

  predicate AllDigits(s: string) {
    forall i :: 0 <= i < |s| ==> IsDigit(s[i])
  }

  function DigitValue(c: char): (d: nat)
    requires IsDigit(c)
    ensures d < 10
  {
    c as int - '0' as int
  }

  function DigitChar(d: nat): (c: char)
    requires d < 10
    ensures IsDigit(c) && DigitValue(c) == d
  {
    ('0' as int + d) as char
  }

  /** 10 to the power k: a helper of the digit arithmetic. */
  function Pow10(k: nat): (p: nat)
    ensures p >= 1
  {
    if k == 0 then 1 else 10 * Pow10(k - 1)
  }

  /** The decimal text of n; its first digit is '0' only for n == 0. */
  function NatToString(n: nat): (s: string)
    ensures |s| >= 1 && AllDigits(s)
    ensures s[0] == '0' <==> n == 0
    decreases n
  {
    if n < 10 then [DigitChar(n)] else NatToString(n / 10) + [DigitChar(n % 10)]
  }

  /** The value of a string of digits, most significant first. */
  function ParseNat(s: string): nat
    requires AllDigits(s)
    decreases |s|
  {
    if s == [] then 0 else 10 * ParseNat(s[..|s| - 1]) + DigitValue(s[|s| - 1])
  }

  lemma {:induction false} ParseNatOfNatToString(n: nat)
    ensures ParseNat(NatToString(n)) == n
    decreases n
  {
    if n >= 10 {
      var s := NatToString(n / 10);
      ParseNatOfNatToString(n / 10);
      assert (s + [DigitChar(n % 10)])[..|s|] == s;
    }
  }

  lemma NatToStringInjective(a: nat, b: nat)
    ensures NatToString(a) == NatToString(b) ==> a == b
  {
    ParseNatOfNatToString(a);
    ParseNatOfNatToString(b);
  }

  /** `${i}` for an integral number i. */
  function IntToString(i: int): (s: string)
    ensures |s| >= 1
    ensures s[0] == '-' <==> i < 0
  {
    if i < 0 then "-" + NatToString(-i) else NatToString(i)
  }

  predicate IsIntText(s: string) {
    (|s| >= 2 && s[0] == '-' && AllDigits(s[1..])) || (|s| >= 1 && AllDigits(s))
  }

  function ParseInt(s: string): int
    requires IsIntText(s)
  {
    if s[0] == '-' then -(ParseNat(s[1..]) as int) else ParseNat(s)
  }

  lemma IntToStringRoundTrip(i: int)
    ensures IsIntText(IntToString(i)) && ParseInt(IntToString(i)) == i
  {
    if i < 0 {
      assert IntToString(i)[1..] == NatToString(-i);
      ParseNatOfNatToString(-i);
    } else {
      ParseNatOfNatToString(i);
    }
  }

  lemma {:induction false} ParseNatBound(s: string)
    requires AllDigits(s)
    ensures ParseNat(s) < Pow10(|s|)
    decreases |s|
  {
    if s != [] {
      ParseNatBound(s[..|s| - 1]);
    }
  }

  /** ParseNat read from the most significant digit. */
  lemma {:induction false} ParseNatFront(s: string)
    requires AllDigits(s) && |s| > 0
    ensures ParseNat(s) == DigitValue(s[0]) * Pow10(|s| - 1) + ParseNat(s[1..])
    decreases |s|
  {
    var n := |s|;
    if n > 1 {
      var p := s[..n - 1];
      ParseNatFront(p);
      assert s[1..][..n - 2] == p[1..];
      var d0, P := DigitValue(s[0]), Pow10(n - 2);
      calc {
        ParseNat(s);
        10 * ParseNat(p) + DigitValue(s[n - 1]);
        10 * (d0 * P + ParseNat(p[1..])) + DigitValue(s[n - 1]);
        { assert 10 * (d0 * P) == d0 * (10 * P); }
        d0 * Pow10(n - 1) + (10 * ParseNat(p[1..]) + DigitValue(s[n - 1]));
        d0 * Pow10(n - 1) + ParseNat(s[1..]);
      }
    } else {
      assert s[..0] == [] && s[1..] == [];
    }
  }
}
