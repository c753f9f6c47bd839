/**
 * Decimal digit strings: the ASCII digits that Python's int(), str(int) and
 * Decimal text use. Non-ASCII Unicode digits are not part of this model.
 */
module Digits {
  import opened Wrappers

  predicate IsDigit(c: char) { '0' <= c <= '9' }

  predicate AllDigits(s: string) { forall i :: 0 <= i < |s| ==> IsDigit(s[i]) }

  function DigitValue(c: char): nat
    requires IsDigit(c)
  {
    c as int - '0' as int
  }

  function DigitChar(d: nat): char
    requires d < 10
  {
    ('0' as int + d) as char
  }

  function Pow10(n: nat): (r: nat)
    ensures r >= 1
  {
    if n == 0 then 1 else 10 * Pow10(n - 1)
  }

  lemma {:induction false} Pow10Add(a: nat, b: nat)
    ensures Pow10(a + b) == Pow10(a) * Pow10(b)
  {
    if b > 0 {
      Pow10Add(a, b - 1);
      calc {
        Pow10(a + b);
        10 * Pow10(a + b - 1);
        10 * (Pow10(a) * Pow10(b - 1));
        Pow10(a) * (10 * Pow10(b - 1));
      }
    }
  }

  /** A run of `n` zero digits. */
  function Zeros(n: nat): (s: string)
    ensures |s| == n && forall i :: 0 <= i < n ==> s[i] == '0'
  {
    if n == 0 then "" else Zeros(n - 1) + "0"
  }

  /** The number a string of digits denotes, most significant digit first. */
  function DigitsToNat(s: string): nat
    requires AllDigits(s)
  {
    if s == [] then 0 else DigitsToNat(s[..|s| - 1]) * 10 + DigitValue(s[|s| - 1])
  }

  /** str(n) for a natural number: the shortest digit string, "0" for zero. */
  function NatToDigits(n: nat): (s: string)
    ensures |s| >= 1 && AllDigits(s)
    ensures s[0] == '0' ==> n == 0
  {
    if n < 10 then [DigitChar(n)] else NatToDigits(n / 10) + [DigitChar(n % 10)]
  }

  lemma {:induction false} NatToDigitsRoundTrip(n: nat)
    ensures DigitsToNat(NatToDigits(n)) == n
  {
    if n >= 10 {
      var s := NatToDigits(n);
      assert s[..|s| - 1] == NatToDigits(n / 10);
      NatToDigitsRoundTrip(n / 10);
    }
  }

  lemma AllDigitsConcat(a: string, b: string)
    requires AllDigits(a) && AllDigits(b)
    ensures AllDigits(a + b)
  {
    forall i | 0 <= i < |a + b| ensures IsDigit((a + b)[i]) {
      if i < |a| { assert (a + b)[i] == a[i]; } else { assert (a + b)[i] == b[i - |a|]; }
    }
  }

  lemma ShiftStep(x: int, p: int, y: int, d: int)
    ensures (x * p + y) * 10 + d == x * (10 * p) + (y * 10 + d)
  {
  }

  /** Concatenating digit strings shifts the left part by the length of the right part. */
  lemma {:induction false} DigitsToNatAppend(a: string, b: string)
    requires AllDigits(a) && AllDigits(b)
    ensures AllDigits(a + b)
    ensures DigitsToNat(a + b) == DigitsToNat(a) * Pow10(|b|) + DigitsToNat(b)
  {
    AllDigitsConcat(a, b);
    if b == [] {
      assert a + b == a;
    } else {
      var b' := b[..|b| - 1];
      var d := DigitValue(b[|b| - 1]);
      assert (a + b)[..|a + b| - 1] == a + b';
      assert (a + b)[|a + b| - 1] == b[|b| - 1];
      DigitsToNatAppend(a, b');
      assert DigitsToNat(a + b) == DigitsToNat(a + b') * 10 + d;
      assert DigitsToNat(b) == DigitsToNat(b') * 10 + d;
      ShiftStep(DigitsToNat(a), Pow10(|b'|), DigitsToNat(b'), d);
    }
  }

  lemma {:induction false} ZerosValue(n: nat)
    ensures AllDigits(Zeros(n)) && DigitsToNat(Zeros(n)) == 0
  {
    if n > 0 {
      ZerosValue(n - 1);
      assert Zeros(n)[..n - 1] == Zeros(n - 1);
    }
  }

  /** Leading zeros do not change the value of a digit string. */
  lemma LeadingZeros(n: nat, s: string)
    requires AllDigits(s)
    ensures AllDigits(Zeros(n) + s) && DigitsToNat(Zeros(n) + s) == DigitsToNat(s)
  {
    ZerosValue(n);
    DigitsToNatAppend(Zeros(n), s);
  }

  /** The digits of `|n|` behind a sign, as Python's "%+d" prints an exponent. */
  function SignedInt(n: int): string
  {
    if n < 0 then "-" + NatToDigits(-n) else "+" + NatToDigits(n)
  }

  /** An exponent as Decimal's grammar reads it: an optional sign, then at least one digit. */
  function ParseSignedInt(s: string): Option<int>
  {
    if |s| > 0 && (s[0] == '+' || s[0] == '-') then
      (if |s| > 1 && AllDigits(s[1..]) then
         Some(if s[0] == '-' then -(DigitsToNat(s[1..]) as int) else DigitsToNat(s[1..]) as int)
       else None)
    else if |s| > 0 && AllDigits(s) then Some(DigitsToNat(s) as int)
    else None
  }

  lemma SignedIntRoundTrip(n: int)
    ensures ParseSignedInt(SignedInt(n)) == Some(n)
  {
    var a := if n < 0 then -n else n;
    NatToDigitsRoundTrip(a);
    assert SignedInt(n)[1..] == NatToDigits(a);
  }

}
