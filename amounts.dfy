/**
 * Amount texts: what `f"{x.quantize(...)}"` writes into the trade document,
 * and what `format_currency` writes into the visual table.
 */
module Amounts {
  import opened Wrappers
  import opened Digits
  import opened Decimals
  import opened Rounding
  import opened Text

  /** The digits of n, left-padded with zeros so that at least one digit stands before the last `places`. */
  function Padded(n: nat, places: nat): (s: string)
    ensures |s| > places && AllDigits(s)
  {
    var d := NatToDigits(n);
    if |d| > places then d else Zeros(places + 1 - |d|) + d
  }

  /** The digits before the point ("0" when there are none). */
  function IntDigits(n: nat, places: nat): (s: string)
    ensures |s| >= 1 && AllDigits(s)
  {
    var p := Padded(n, places);
    p[..|p| - places]
  }

  /** Exactly `places` digits after the point. */
  function FracDigits(n: nat, places: nat): (s: string)
    ensures |s| == places && AllDigits(s)
  {
    var p := Padded(n, places);
    p[|p| - places..]
  }

  /** The sign Python prints for x: a quantized negative number keeps its sign even when it rounds to zero. */
  function SignText(x: real): string
  {
    if x < 0.0 then "-" else ""
  }

  /**
   * str() of a quantized Decimal with coefficient q and exponent -places.
   * Python's quantize keeps the operand's sign even when q is zero, so the
   * sign is passed separately: `negative` is the sign of the value that was quantized.
   */
  function QuantizedText(negative: bool, q: int, places: nat): string
  {
    (if negative then "-" else "") + UnsignedText(NatToDigits(Abs(q)), -(places as int))
  }

  /** f"{x.quantize(Decimal('1E-places'))}" in the default context (ROUND_HALF_EVEN). */
  function AmountText(x: real, places: nat): string
  {
    QuantizedText(x < 0.0, QuantizeHalfEven(x, places), places)
  }

  /** (x.quantize(Decimal('1E-places'), rounding=ROUND_HALF_UP)) written out with str(). */
  function HalfUpAmountText(x: real, places: nat): string
  {
    QuantizedText(x < 0.0, QuantizeHalfUp(x, places), places)
  }

  /** The quantized coefficient has the sign of x (or is zero), in both rounding modes. */
  lemma QuantizeSign(x: real, places: nat)
    ensures x < 0.0 ==> QuantizeHalfEven(x, places) <= 0 && QuantizeHalfUp(x, places) <= 0
    ensures x >= 0.0 ==> QuantizeHalfEven(x, places) >= 0 && QuantizeHalfUp(x, places) >= 0
  {
    var p := Pow10(places) as real;
    if x < 0.0 {
      assert x * p < 0.0;
    } else {
      assert x * p >= 0.0;
    }
  }

  /** Reading a quantized text back gives the Decimal with coefficient q and exponent -places. */
  lemma QuantizedTextParses(negative: bool, q: int, places: nat)
    requires negative ==> q <= 0
    requires !negative ==> q >= 0
    ensures Parse(QuantizedText(negative, q, places)) == Some(Decimal(q, -(places as int)))
  {
    var e := -(places as int);
    var u := UnsignedText(NatToDigits(Abs(q)), e);
    if negative && q == 0 {
      UnsignedRoundTrip(0, e);
      assert u[0] != '+' && u[0] != '-' by {
        ParseToString(Decimal(0, e));
        assert ToString(Decimal(0, e)) == u;
      }
      assert QuantizedText(negative, q, places)[1..] == u;
    } else {
      assert QuantizedText(negative, q, places) == ToString(Decimal(q, e));
      ParseToString(Decimal(q, e));
    }
  }

  /** The document's amount text reads back as the half-even quantized value. */
  lemma AmountTextParses(x: real, places: nat)
    ensures Parse(AmountText(x, places)) == Some(Decimal(QuantizeHalfEven(x, places), -(places as int)))
    ensures Value(Decimal(QuantizeHalfEven(x, places), -(places as int))) == Units(QuantizeHalfEven(x, places), places)
  {
    QuantizeSign(x, places);
    QuantizedTextParses(x < 0.0, QuantizeHalfEven(x, places), places);
    UnitsValue(QuantizeHalfEven(x, places), places);
  }

  /**
   * A line total is rounded half-up to cents and then quantized again to
   * cents with the default rounding: the second step changes nothing, and
   * the text reads back as the half-up rounded amount.
   */
  lemma RequantizedLineTotal(x: real)
    ensures QuantizedText(x < 0.0, QuantizeHalfEven(Units(QuantizeHalfUp(x, 2), 2), 2), 2) == HalfUpAmountText(x, 2)
    ensures Parse(HalfUpAmountText(x, 2)) == Some(Decimal(QuantizeHalfUp(x, 2), -2))
  {
    QuantizeOnGrid(QuantizeHalfUp(x, 2), 2);
    QuantizeSign(x, 2);
    QuantizedTextParses(x < 0.0, QuantizeHalfUp(x, 2), 2);
  }

  /** A coefficient with exponent -places has the value units / 10^places. */
  lemma UnitsValue(q: int, places: nat)
    ensures Value(Decimal(q, -(places as int))) == Units(q, places)
  {
    var p := Pow10(places) as real;
    if places == 0 {
      assert Scale(0) == 1.0;
    } else {
      assert Scale(-(places as int)) == 1.0 / p;
      assert q as real * (1.0 / p) == q as real / p;
    }
  }

  /** With at most six places str() of a coefficient with exponent -places needs no exponent part. */
  lemma NoExponent(d: string, places: nat)
    requires 1 <= places <= 6 && |d| >= 1
    ensures DotPlace(-(places as int), |d|) == |d| - places
    ensures UnsignedText(d, -(places as int)) == PointedDigits(d, |d| - places)
  {
  }

  /** More digits than places: the point splits the digits. */
  lemma PlainLong(n: nat, places: nat)
    requires 1 <= places <= 6 && |NatToDigits(n)| > places
    ensures UnsignedText(NatToDigits(n), -(places as int)) == IntDigits(n, places) + "." + FracDigits(n, places)
  {
    var d := NatToDigits(n);
    NoExponent(d, places);
    assert Padded(n, places) == d;
  }

  lemma ZerosFront(k: nat)
    ensures Zeros(k + 1) == "0" + Zeros(k)
  {
  }

  /** A short coefficient: the zero-padded digits, split before the last `places`, are what str() writes. */
  lemma ShortText(d: string, places: nat)
    requires 1 <= places <= 6 && 1 <= |d| <= places
    ensures var pd := Zeros(places + 1 - |d|) + d;
            UnsignedText(d, -(places as int)) == pd[..|pd| - places] + "." + pd[|pd| - places..]
  {
    var z := Zeros(places - |d|);
    var pd := Zeros(places + 1 - |d|) + d;
    assert pd == "0" + (z + d) by {
      ZerosFront(places - |d|);
    }
    assert UnsignedText(d, -(places as int)) == "0." + z + d by {
      NoExponent(d, places);
    }
    assert pd[..1] + "." + pd[1..] == "0." + z + d;
  }

  /** No more digits than places: "0." and zeros pad the fraction to `places` digits. */
  lemma PlainShort(n: nat, places: nat)
    requires 1 <= places <= 6 && |NatToDigits(n)| <= places
    ensures UnsignedText(NatToDigits(n), -(places as int)) == IntDigits(n, places) + "." + FracDigits(n, places)
  {
    var d := NatToDigits(n);
    assert Padded(n, places) == Zeros(places + 1 - |d|) + d;
    ShortText(d, places);
  }

  /** With 1 to 6 places str() writes no exponent: integer digits, '.', exactly `places` digits. */
  lemma PlainUnsigned(n: nat, places: nat)
    requires 1 <= places <= 6
    ensures UnsignedText(NatToDigits(n), -(places as int)) == IntDigits(n, places) + "." + FracDigits(n, places)
  {
    if |NatToDigits(n)| > places {
      PlainLong(n, places);
    } else {
      PlainShort(n, places);
    }
  }

  /** With 1 to 6 places the text is in plain notation: sign, integer digits, '.', exactly `places` digits. */
  lemma AmountTextPlain(x: real, places: nat)
    requires 1 <= places <= 6
    ensures var n := Abs(QuantizeHalfEven(x, places));
            AmountText(x, places) == SignText(x) + IntDigits(n, places) + "." + FracDigits(n, places)
  {
    PlainUnsigned(Abs(QuantizeHalfEven(x, places)), places);
  }

  /** Digits grouped in threes from the right, with `sep` between the groups. */
  function Group(d: string, sep: char): string
  {
    if |d| <= 3 then d else Group(d[..|d| - 3], sep) + [sep] + d[|d| - 3..]
  }

  /** f"{value:,.2f}": ROUND_HALF_EVEN to two places, ',' between thousands, '.' before the cents. */
  function EnglishFormat(x: real): string
  {
    var n := Abs(QuantizeHalfEven(x, 2));
    SignText(x) + Group(IntDigits(n, 2), ',') + "." + FracDigits(n, 2)
  }

  /** format_currency: the English format with ',' and '.' swapped through a placeholder 'X'. */
  function FormatCurrency(x: real): string
  {
    ReplaceChar(ReplaceChar(ReplaceChar(EnglishFormat(x), ',', "X"), '.', ","), 'X', ".")
  }

  /** Undo the German separators: drop the thousands dots, then read ',' as the decimal point. */
  function Delocalize(s: string): string
  {
    ReplaceChar(ReplaceChar(s, '.', ""), ',', ".")
  }

  lemma {:induction false} ReplaceCharConcat(s: string, t: string, a: char, b: string)
    ensures ReplaceChar(s + t, a, b) == ReplaceChar(s, a, b) + ReplaceChar(t, a, b)
  {
    if s == [] {
      assert s + t == t;
    } else {
      assert (s + t)[0] == s[0];
      assert (s + t)[1..] == s[1..] + t;
      ReplaceCharConcat(s[1..], t, a, b);
    }
  }

  /** Replacing in a four-part text replaces in each part. */
  lemma ReplaceInParts(s: string, g: string, m: string, f: string, a: char, b: string)
    ensures ReplaceChar(s + g + m + f, a, b)
         == ReplaceChar(s, a, b) + ReplaceChar(g, a, b) + ReplaceChar(m, a, b) + ReplaceChar(f, a, b)
  {
    ReplaceCharConcat(s + g + m, f, a, b);
    ReplaceCharConcat(s + g, m, a, b);
    ReplaceCharConcat(s, g, a, b);
  }

  lemma SignUntouched(x: real, a: char, b: string)
    requires a != '-'
    ensures ReplaceChar(SignText(x), a, b) == SignText(x)
  {
  }

  lemma NoSuchDigit(d: string, c: char, b: string)
    requires AllDigits(d) && !IsDigit(c)
    ensures ReplaceChar(d, c, b) == d
  {
  }

  /** Replacing the separator of grouped digits gives the same grouping with the new separator. */
  lemma {:induction false} GroupReplace(d: string, a: char, b: char)
    requires AllDigits(d) && !IsDigit(a)
    ensures ReplaceChar(Group(d, a), a, [b]) == Group(d, b)
  {
    if |d| > 3 {
      var hi := d[..|d| - 3];
      var lo := d[|d| - 3..];
      GroupReplace(hi, a, b);
      ReplaceCharConcat(Group(hi, a) + [a], lo, a, [b]);
      ReplaceCharConcat(Group(hi, a), [a], a, [b]);
      NoSuchDigit(lo, a, [b]);
    } else {
      NoSuchDigit(d, a, [b]);
    }
  }

  /** Removing the separators of grouped digits gives back the digits. */
  lemma {:induction false} GroupRemove(d: string, a: char)
    requires AllDigits(d) && !IsDigit(a)
    ensures ReplaceChar(Group(d, a), a, "") == d
  {
    if |d| > 3 {
      var hi := d[..|d| - 3];
      var lo := d[|d| - 3..];
      GroupRemove(hi, a);
      ReplaceCharConcat(Group(hi, a) + [a], lo, a, "");
      ReplaceCharConcat(Group(hi, a), [a], a, "");
      NoSuchDigit(lo, a, "");
      assert hi + lo == d;
    } else {
      NoSuchDigit(d, a, "");
    }
  }

  /** Grouped digits hold no character other than digits and the separator. */
  lemma {:induction false} GroupChars(d: string, a: char, c: char)
    requires AllDigits(d) && !IsDigit(c) && c != a
    ensures forall i :: 0 <= i < |Group(d, a)| ==> Group(d, a)[i] != c
  {
    if |d| > 3 {
      var hi := d[..|d| - 3];
      GroupChars(hi, a, c);
      var g := Group(hi, a);
      assert Group(d, a) == g + [a] + d[|d| - 3..];
    }
  }

  lemma EnglishToPlaceholder(x: real)
    ensures var n := Abs(QuantizeHalfEven(x, 2));
            ReplaceChar(EnglishFormat(x), ',', "X") == SignText(x) + Group(IntDigits(n, 2), 'X') + "." + FracDigits(n, 2)
  {
    var n := Abs(QuantizeHalfEven(x, 2));
    ReplaceInParts(SignText(x), Group(IntDigits(n, 2), ','), ".", FracDigits(n, 2), ',', "X");
    SignUntouched(x, ',', "X");
    GroupReplace(IntDigits(n, 2), ',', 'X');
    NoSuchDigit(FracDigits(n, 2), ',', "X");
  }

  lemma PlaceholderToComma(s: string, g: string, f: string)
    requires AllDigits(f) && forall i :: 0 <= i < |g| ==> g[i] != '.'
    requires s == "" || s == "-"
    ensures ReplaceChar(s + g + "." + f, '.', ",") == s + g + "," + f
  {
    ReplaceInParts(s, g, ".", f, '.', ",");
    NoSuchDigit(f, '.', ",");
  }

  lemma PlaceholderToDot(x: real, d: string, f: string)
    requires AllDigits(d) && AllDigits(f)
    ensures ReplaceChar(SignText(x) + Group(d, 'X') + "," + f, 'X', ".") == SignText(x) + Group(d, '.') + "," + f
  {
    ReplaceInParts(SignText(x), Group(d, 'X'), ",", f, 'X', ".");
    SignUntouched(x, 'X', ".");
    GroupReplace(d, 'X', '.');
    NoSuchDigit(f, 'X', ".");
  }

  /**
   * format_currency gives the German notation: '-' for a negative amount, '.'
   * between thousands, ',' before exactly two cent digits.
   */
  lemma GermanNotation(x: real)
    ensures var n := Abs(QuantizeHalfEven(x, 2));
            FormatCurrency(x) == SignText(x) + Group(IntDigits(n, 2), '.') + "," + FracDigits(n, 2)
  {
    var n := Abs(QuantizeHalfEven(x, 2));
    var d := IntDigits(n, 2);
    var f := FracDigits(n, 2);
    EnglishToPlaceholder(x);
    GroupChars(d, 'X', '.');
    PlaceholderToComma(SignText(x), Group(d, 'X'), f);
    PlaceholderToDot(x, d, f);
  }

  lemma DropDots(x: real, d: string, f: string)
    requires AllDigits(d) && AllDigits(f)
    ensures ReplaceChar(SignText(x) + Group(d, '.') + "," + f, '.', "") == SignText(x) + d + "," + f
  {
    ReplaceInParts(SignText(x), Group(d, '.'), ",", f, '.', "");
    SignUntouched(x, '.', "");
    GroupRemove(d, '.');
    NoSuchDigit(f, '.', "");
  }

  lemma CommaToPoint(x: real, d: string, f: string)
    requires AllDigits(d) && AllDigits(f)
    ensures ReplaceChar(SignText(x) + d + "," + f, ',', ".") == SignText(x) + d + "." + f
  {
    assert ReplaceChar(SignText(x), ',', ".") == SignText(x) by { SignUntouched(x, ',', "."); }
    assert ReplaceChar(d, ',', ".") == d by { NoSuchDigit(d, ',', "."); }
    assert ReplaceChar(f, ',', ".") == f by { NoSuchDigit(f, ',', "."); }
    assert ReplaceChar(",", ',', ".") == "." by {
      assert ReplaceChar(",", ',', ".") == "." + ReplaceChar([], ',', ".");
    }
    ReplaceInParts(SignText(x), d, ",", f, ',', ".");
  }

  /**
   * The table's amount, with the German separators undone, is exactly the
   * text the trade document carries for the same value.
   */
  lemma DelocalizedCurrency(x: real)
    ensures Delocalize(FormatCurrency(x)) == AmountText(x, 2)
  {
    var n := Abs(QuantizeHalfEven(x, 2));
    var d := IntDigits(n, 2);
    var f := FracDigits(n, 2);
    GermanNotation(x);
    DropDots(x, d, f);
    CommaToPoint(x, d, f);
    AmountTextPlain(x, 2);
  }
}
