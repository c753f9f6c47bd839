/**
 * The two rounding modes the invoice code uses when it quantizes a Decimal:
 * ROUND_HALF_UP where it names it, and the default context's ROUND_HALF_EVEN
 * wherever `quantize` or a ".2f" format is called without a rounding argument.
 */
module Rounding {
  import opened Digits

  /** ROUND_HALF_UP to an integer: the nearest integer, ties away from zero. */
  function HalfUp(y: real): (n: int)
    ensures y >= 0.0 ==> y - 0.5 < n as real <= y + 0.5
    ensures y < 0.0 ==> y - 0.5 <= n as real < y + 0.5
  {
    if y >= 0.0 then (y + 0.5).Floor else -((-y + 0.5).Floor)
  }

  /** ROUND_HALF_EVEN to an integer: the nearest integer, ties to the even one. */
  function HalfEven(y: real): (n: int)
    ensures -0.5 <= n as real - y <= 0.5
    ensures (n as real - y == 0.5 || y - n as real == 0.5) ==> n % 2 == 0
  {
    var f := y.Floor;
    var frac := y - f as real;
    if frac < 0.5 then f
    else if frac > 0.5 then f + 1
    else if f % 2 == 0 then f
    else f + 1
  }

  /** The contract of HalfUp pins its result down: no other integer satisfies it. */
  lemma HalfUpUnique(y: real, m: int)
    requires y >= 0.0 ==> y - 0.5 < m as real <= y + 0.5
    requires y < 0.0 ==> y - 0.5 <= m as real < y + 0.5
    ensures m == HalfUp(y)
  {
  }

  /** The contract of HalfEven pins its result down: no other integer satisfies it. */
  lemma HalfEvenUnique(y: real, m: int)
    requires -0.5 <= m as real - y <= 0.5
    requires (m as real - y == 0.5 || y - m as real == 0.5) ==> m % 2 == 0
    ensures m == HalfEven(y)
  {
  }

  /**
   * x.quantize(Decimal("1E-places"), ROUND_HALF_UP): the coefficient of the
   * result, whose exponent is -places.
   */
  function QuantizeHalfUp(x: real, places: nat): int
  {
    HalfUp(x * Pow10(places) as real)
  }

  /** x.quantize(Decimal("1E-places")) in the default context (ROUND_HALF_EVEN). */
  function QuantizeHalfEven(x: real, places: nat): int
  {
    HalfEven(x * Pow10(places) as real)
  }

  /** The number `units` steps of 10^-places denote. */
  function Units(units: int, places: nat): real
  {
    units as real / Pow10(places) as real
  }

  /** An integer within half a unit of x * 10^places denotes a value within half a scaled unit of x. */
  lemma UnitsError(q: int, x: real, places: nat)
    requires -0.5 <= q as real - x * Pow10(places) as real <= 0.5
    ensures -0.5 / Pow10(places) as real <= Units(q, places) - x <= 0.5 / Pow10(places) as real
  {
    var p := Pow10(places) as real;
    var err := q as real - x * p;
    assert Units(q, places) - x == err / p;
    DivideBounds(err, p);
  }

  lemma DivideBounds(err: real, p: real)
    requires p >= 1.0 && -0.5 <= err <= 0.5
    ensures -0.5 / p <= err / p <= 0.5 / p
  {
    assert err / p - (-0.5) / p == (err + 0.5) / p;
    assert 0.5 / p - err / p == (0.5 - err) / p;
  }

  /** ROUND_HALF_UP quantizing moves a value by at most half a unit of the target exponent. */
  lemma QuantizeHalfUpError(x: real, places: nat)
    ensures -0.5 / Pow10(places) as real <= Units(QuantizeHalfUp(x, places), places) - x <= 0.5 / Pow10(places) as real
  {
    UnitsError(QuantizeHalfUp(x, places), x, places);
  }

  /** ROUND_HALF_EVEN quantizing moves a value by at most half a unit of the target exponent. */
  lemma QuantizeHalfEvenError(x: real, places: nat)
    ensures -0.5 / Pow10(places) as real <= Units(QuantizeHalfEven(x, places), places) - x <= 0.5 / Pow10(places) as real
  {
    UnitsError(QuantizeHalfEven(x, places), x, places);
  }

  /** A value already on the grid of the target exponent is left unchanged by both modes. */
  lemma QuantizeOnGrid(units: int, places: nat)
    ensures QuantizeHalfUp(Units(units, places), places) == units
    ensures QuantizeHalfEven(Units(units, places), places) == units
  {
    var p := Pow10(places) as real;
    assert Units(units, places) * p == units as real;
    assert HalfUp(units as real) == units;
    assert HalfEven(units as real) == units;
  }

  /** Whole cents: the values ROUND_HALF_UP to "0.01" produces. */
  predicate OnCentGrid(x: real)
  {
    (x * 100.0).Floor as real == x * 100.0
  }

  lemma CentsAreOnGrid(c: int)
    ensures OnCentGrid(c as real / 100.0)
  {
    assert (c as real / 100.0) * 100.0 == c as real;
  }

  lemma CentGridSum(a: real, b: real)
    requires OnCentGrid(a) && OnCentGrid(b)
    ensures OnCentGrid(a + b)
  {
    var ca := (a * 100.0).Floor;
    var cb := (b * 100.0).Floor;
    assert (a + b) * 100.0 == (ca + cb) as real;
  }

  /** Quantizing a whole number of cents to cents gives back the same amount. */
  lemma CentGridExact(x: real)
    requires OnCentGrid(x)
    ensures Units(QuantizeHalfEven(x, 2), 2) == x
  {
    var c := (x * 100.0).Floor;
    assert Pow10(2) == 100;
    assert Units(c, 2) == x;
    QuantizeOnGrid(c, 2);
  }
}
