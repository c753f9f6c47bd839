/**
 * Python's decimal.Decimal for finite values: a signed integer coefficient
 * and a power-of-ten exponent. Two decimals with the same value but a different
 * exponent (19 and 19.00) are different Decimal values here, exactly as in
 * Python, while comparisons, dictionary keys and arithmetic go through Value.
 */
module Decimals {
  import opened Wrappers
  import opened Digits

  datatype Decimal = Decimal(coef: int, exp: int)

  function Abs(x: int): nat { if x < 0 then -x else x }

  /** 10 raised to a possibly negative exponent. */
  function Scale(e: int): real
  {
    if e >= 0 then Pow10(e) as real else 1.0 / Pow10(-e) as real
  }

  /** The number a Decimal denotes. */
  function Value(d: Decimal): real
  {
    d.coef as real * Scale(d.exp)
  }

  /** Decimal("0"): what the source substitutes for a missing or empty number. */
  const Zero := Decimal(0, 0)

  /** Where str() puts the decimal point (Python's `dotplace`). */
  function DotPlace(exp: int, len: nat): int
  {
    var leftdigits := exp + len;
    if exp <= 0 && leftdigits > -6 then leftdigits else 1
  }

  /** The digits with the point placed at `dotplace`. */
  function PointedDigits(digits: string, dotplace: int): string
  {
    if dotplace <= 0 then "0." + Zeros(-dotplace) + digits
    else if dotplace >= |digits| then digits + Zeros(dotplace - |digits|)
    else digits[..dotplace] + "." + digits[dotplace..]
  }

  /** The exponent part str() appends after the digits, empty in plain notation. */
  function ExpTail(exp: int, len: nat): string
  {
    var leftdigits := exp + len;
    if leftdigits == DotPlace(exp, len) then "" else "E" + SignedInt(leftdigits - DotPlace(exp, len))
  }

  /** The unsigned text of a coefficient with digits `digits` and exponent `exp`. */
  function UnsignedText(digits: string, exp: int): string
  {
    PointedDigits(digits, DotPlace(exp, |digits|)) + ExpTail(exp, |digits|)
  }

  /**
   * str(d): plain notation when the exponent is not positive and the number
   * has fewer than six leading zeros after the point, scientific notation
   * with a capital E otherwise.
   */
  function ToString(d: Decimal): string
  {
    (if d.coef < 0 then "-" else "") + UnsignedText(NatToDigits(Abs(d.coef)), d.exp)
  }

  /** Index of the first exponent indicator ('e' or 'E'), or |s| when there is none. */
  function ExpIndex(s: string): (k: nat)
    ensures k <= |s|
  {
    if s == [] then 0 else if s[0] == 'e' || s[0] == 'E' then 0 else 1 + ExpIndex(s[1..])
  }

  /** Index of the first '.', or |s| when there is none. */
  function DotIndex(s: string): (k: nat)
    ensures k <= |s|
  {
    if s == [] then 0 else if s[0] == '.' then 0 else 1 + DotIndex(s[1..])
  }

  /** The mantissa: digits, an optional point with optional digits, at least one digit. */
  function ParseMantissa(mant: string, expo: int): Option<Decimal>
  {
    var dot := DotIndex(mant);
    var intPart := mant[..dot];
    var fracPart := if dot < |mant| then mant[dot + 1..] else "";
    if AllDigits(intPart) && AllDigits(fracPart) && |intPart| + |fracPart| > 0 then
      Some(Decimal(DigitsToNat(intPart + fracPart), expo - |fracPart|))
    else
      None
  }

  /** An unsigned numeric string: a mantissa and an optional exponent part. */
  function ParseUnsigned(s: string): Option<Decimal>
  {
    var e := ExpIndex(s);
    var expo := if e < |s| then ParseSignedInt(s[e + 1..]) else Some(0);
    if expo.Some? then ParseMantissa(s[..e], expo.value) else None
  }

  /**
   * Decimal(s) for a finite numeric string: an optional sign, then ParseUnsigned.
   * None is the InvalidOperation the constructor raises.
   */
  function Parse(s: string): Option<Decimal>
  {
    if |s| > 0 && (s[0] == '+' || s[0] == '-') then
      match ParseUnsigned(s[1..])
      case None => None
      case Some(d) => Some(if s[0] == '-' then Decimal(-d.coef, d.exp) else d)
    else
      ParseUnsigned(s)
  }

  // ---------------------------------------------------------------------------
  // Round trip: Decimal(str(d)) == d
  // ---------------------------------------------------------------------------

  predicate NoExpIndicator(s: string) { forall i :: 0 <= i < |s| ==> s[i] != 'e' && s[i] != 'E' }
  predicate NoDot(s: string) { forall i :: 0 <= i < |s| ==> s[i] != '.' }

  lemma {:induction false} ExpIndexConcat(a: string, b: string)
    requires NoExpIndicator(a)
    requires b == [] || b[0] == 'E'
    ensures ExpIndex(a + b) == |a|
  {
    if a == [] {
      assert a + b == b;
    } else {
      assert (a + b)[1..] == a[1..] + b;
      ExpIndexConcat(a[1..], b);
    }
  }

  lemma {:induction false} DotIndexConcat(a: string, b: string)
    requires NoDot(a)
    requires b == [] || b[0] == '.'
    ensures DotIndex(a + b) == |a|
  {
    if a == [] {
      assert a + b == b;
    } else {
      assert (a + b)[1..] == a[1..] + b;
      DotIndexConcat(a[1..], b);
    }
  }

  lemma DigitsHaveNoMarks(s: string)
    requires AllDigits(s)
    ensures NoExpIndicator(s) && NoDot(s)
  {
  }

  /** Parsing a body followed by an exponent part separates the two. */
  lemma ParseBodyExp(body: string, tail: string, expo: int)
    requires NoExpIndicator(body)
    requires tail == "" || tail == "E" + SignedInt(expo)
    requires tail == "" ==> expo == 0
    ensures ParseUnsigned(body + tail) == ParseMantissa(body, expo)
  {
    var s := body + tail;
    ExpIndexConcat(body, tail);
    assert s[..|body|] == body;
    if tail != "" {
      assert s[|body| + 1..] == SignedInt(expo);
      SignedIntRoundTrip(expo);
    }
  }

  /** The parse result holds exactly the decimal d. */
  lemma ParsedAs(r: Option<Decimal>, d: Decimal)
    requires r.Some? && r.value.coef == d.coef && r.value.exp == d.exp
    ensures r == Some(d)
  {
  }

  lemma SplitDigits(s: string, p: nat)
    requires AllDigits(s) && p <= |s|
    ensures AllDigits(s[..p]) && AllDigits(s[p..]) && s[..p] + s[p..] == s
  {
    assert forall k :: 0 <= k < |s| - p ==> s[p..][k] == s[p + k];
  }

  /**
   * A mantissa with a point: the digits on both sides, read together as
   * `whole`, form the coefficient; those after the point lower the exponent.
   */
  lemma {:induction false} MantissaParts(mant: string, hi: string, lo: string, whole: string, expo: int)
    requires AllDigits(hi) && AllDigits(lo) && |hi| + |lo| > 0
    requires mant == hi + "." + lo && whole == hi + lo
    ensures AllDigits(whole)
    ensures var r := ParseMantissa(mant, expo);
      r.Some? && r.value.coef == DigitsToNat(whole) && r.value.exp == expo - |lo|
  {
    assert DotIndex(mant) == |hi| by {
      DigitsHaveNoMarks(hi);
      assert mant == hi + ("." + lo);
      DotIndexConcat(hi, "." + lo);
    }
    assert mant[..|hi|] == hi;
    assert mant[|hi| + 1..] == lo;
    AllDigitsConcat(hi, lo);
  }

  /** A mantissa without a point is an integer coefficient. */
  lemma MantissaDigits(digits: string, expo: int)
    requires AllDigits(digits) && |digits| > 0
    ensures var r := ParseMantissa(digits, expo);
      r.Some? && r.value.coef == DigitsToNat(digits) && r.value.exp == expo
  {
    assert DotIndex(digits) == |digits| by {
      DigitsHaveNoMarks(digits);
      assert digits + "" == digits;
      DotIndexConcat(digits, "");
    }
    assert digits[..|digits|] == digits;
    assert digits + "" == digits;
  }

  /** "0." then k zeros is the one-digit integer part "0", a point, and the zeros. */
  lemma BelowOneParts(k: nat, D: string)
    ensures "0." + Zeros(k) + D == Zeros(1) + "." + (Zeros(k) + D)
  {
    assert Zeros(1) == "0";
  }

  /** The text of a number below one: "0." then zeros then the digits. */
  lemma MantissaBelowOne(D: string, k: nat, expo: int)
    requires AllDigits(D) && |D| > 0
    ensures var r := ParseMantissa("0." + Zeros(k) + D, expo);
      r.Some? && r.value.coef == DigitsToNat(D) && r.value.exp == expo - k - |D|
  {
    var frac := Zeros(k) + D;
    LeadingZeros(k, D);
    LeadingZeros(1, frac);
    BelowOneParts(k, D);
    MantissaParts("0." + Zeros(k) + D, Zeros(1), frac, Zeros(1) + frac, expo);
  }

  /** The text of a number with a point inside its digits. */
  lemma MantissaSplit(D: string, p: nat, expo: int)
    requires AllDigits(D) && 0 < p < |D|
    ensures var r := ParseMantissa(D[..p] + "." + D[p..], expo);
      r.Some? && r.value.coef == DigitsToNat(D) && r.value.exp == expo - (|D| - p)
  {
    SplitDigits(D, p);
    MantissaParts(D[..p] + "." + D[p..], D[..p], D[p..], D, expo);
  }

  lemma NoMarksBelowOne(k: nat, D: string)
    requires AllDigits(D)
    ensures NoExpIndicator("0." + Zeros(k) + D)
  {
    var body := "0." + Zeros(k) + D;
    forall i | 0 <= i < |body| ensures body[i] != 'e' && body[i] != 'E' {
      if 2 <= i < 2 + k { assert body[i] == Zeros(k)[i - 2]; }
      else if i >= 2 + k { assert body[i] == D[i - 2 - k]; }
    }
  }

  lemma NoMarksSplit(D: string, p: nat)
    requires AllDigits(D) && p <= |D|
    ensures NoExpIndicator(D[..p] + "." + D[p..])
  {
    var body := D[..p] + "." + D[p..];
    forall i | 0 <= i < |body| ensures body[i] != 'e' && body[i] != 'E' {
      if i < p { assert body[i] == D[i]; }
      else if i > p { assert body[i] == D[i - 1]; }
    }
  }

  /** The exponent part is empty exactly when no exponent is needed, else "E" and the exponent. */
  lemma ExpTailShape(exp: int, len: nat)
    ensures var tail, expo := ExpTail(exp, len), exp + len - DotPlace(exp, len);
      (tail == "" || tail == "E" + SignedInt(expo)) && (tail == "" ==> expo == 0)
  {
  }

  /** Digits whose point lies before them read back as those digits and exponent. */
  lemma DigitsRoundTripBelowOne(D: string, exp: int)
    requires AllDigits(D) && |D| > 0 && DotPlace(exp, |D|) <= 0
    ensures var r := ParseUnsigned(UnsignedText(D, exp));
      r.Some? && r.value.coef == DigitsToNat(D) && r.value.exp == exp
  {
    var k := -DotPlace(exp, |D|);
    assert UnsignedText(D, exp) == "0." + Zeros(k) + D + "" by {
      assert ExpTail(exp, |D|) == "";
    }
    NoMarksBelowOne(k, D);
    ParseBodyExp("0." + Zeros(k) + D, "", 0);
    MantissaBelowOne(D, k, 0);
  }

  /** Digits whose point lies at or after their end read back as those digits and exponent. */
  lemma DigitsRoundTripInteger(D: string, exp: int)
    requires AllDigits(D) && |D| > 0 && DotPlace(exp, |D|) >= |D|
    ensures var r := ParseUnsigned(UnsignedText(D, exp));
      r.Some? && r.value.coef == DigitsToNat(D) && r.value.exp == exp
  {
    assert UnsignedText(D, exp) == D + ExpTail(exp, |D|) by {
      assert D + Zeros(0) == D;
    }
    ExpTailShape(exp, |D|);
    DigitsHaveNoMarks(D);
    ParseBodyExp(D, ExpTail(exp, |D|), exp);
    MantissaDigits(D, exp);
  }

  /** Digits whose point falls inside them read back as those digits and exponent. */
  lemma DigitsRoundTripSplit(D: string, exp: int)
    requires AllDigits(D) && 0 < DotPlace(exp, |D|) < |D|
    ensures var r := ParseUnsigned(UnsignedText(D, exp));
      r.Some? && r.value.coef == DigitsToNat(D) && r.value.exp == exp
  {
    var dp := DotPlace(exp, |D|);
    var expo := exp + |D| - dp;
    assert UnsignedText(D, exp) == D[..dp] + "." + D[dp..] + ExpTail(exp, |D|);
    ExpTailShape(exp, |D|);
    NoMarksSplit(D, dp);
    ParseBodyExp(D[..dp] + "." + D[dp..], ExpTail(exp, |D|), expo);
    MantissaSplit(D, dp, expo);
  }

  /** ParseUnsigned undoes UnsignedText. */
  lemma UnsignedRoundTrip(n: nat, exp: int)
    ensures ParseUnsigned(UnsignedText(NatToDigits(n), exp)) == Some(Decimal(n, exp))
  {
    var D := NatToDigits(n);
    var dp := DotPlace(exp, |D|);
    NatToDigitsRoundTrip(n);
    if dp <= 0 {
      DigitsRoundTripBelowOne(D, exp);
    } else if dp >= |D| {
      DigitsRoundTripInteger(D, exp);
    } else {
      DigitsRoundTripSplit(D, exp);
    }
    ParsedAs(ParseUnsigned(UnsignedText(D, exp)), Decimal(n, exp));
  }

  /** str() then Decimal() gives back the same coefficient and exponent. */
  lemma ParseToString(d: Decimal)
    ensures Parse(ToString(d)) == Some(d)
  {
    var D := NatToDigits(Abs(d.coef));
    var u := UnsignedText(D, d.exp);
    UnsignedRoundTrip(Abs(d.coef), d.exp);
    assert u[0] != '+' && u[0] != '-' by {
      var dp := DotPlace(d.exp, |D|);
      var p := PointedDigits(D, dp);
      assert u == p + ExpTail(d.exp, |D|);
      if dp <= 0 {
        assert p[0] == '0';
      } else if dp >= |D| {
        assert p[0] == D[0];
      } else {
        assert p[0] == D[0];
      }
    }
    if d.coef < 0 {
      assert ToString(d) == "-" + u;
      assert ToString(d)[1..] == u;
    } else {
      assert ToString(d) == u;
    }
  }
}
