/**
 * The totals engine of the invoice generator: line nets, per-rate VAT buckets
 * kept in the order the rates first appear, and net, VAT and gross totals.
 * Decimal arithmetic is exact here (the values are reals); only the
 * per-line VAT is rounded, half-up to whole cents, as the source does.
 */
module InvoiceTotals {
  import opened Wrappers
  import opened Digits
  import opened Decimals
  import opened Rounding

  /** One line item as the generator receives it: every key may be missing. */
  datatype LineItem = LineItem(
    description: Option<string>,
    quantity: Option<Decimal>,
    unitPrice: Option<Decimal>,
    vatRate: Option<Decimal>)

  /** A vat_summary entry: the rate key as first inserted, the net basis and the rounded VAT. */
  datatype Bucket = Bucket(rate: Decimal, basis: real, vat: real)

  datatype Totals = Totals(net: real, vat: real, gross: real, summary: seq<Bucket>)

  /** The rate the engine uses for small businesses: Decimal("0.0"). */
  const SmallBusinessRate := Decimal(0, -1)

  /**
   * Decimal(str(item.get(key, "0") or "0")): a missing field and a zero
   * (falsy) Decimal both read as Decimal("0"); any other Decimal reads as itself.
   */
  function ReadNumber(field: Option<Decimal>): (d: Decimal)
    ensures Value(d) == (if field.Some? then Value(field.value) else 0.0)
    ensures field.Some? && field.value.coef != 0 ==> d == field.value
    ensures field.None? || field.value.coef == 0 ==> d == Zero
  {
    if field.Some? && field.value.coef != 0 then field.value else Zero
  }

  /** Reading a field goes through its text: parsing that text gives back what ReadNumber returns. */
  lemma ReadNumberParses(field: Option<Decimal>)
    ensures Parse(if field.Some? && field.value.coef != 0 then ToString(field.value) else "0")
            == Some(ReadNumber(field))
  {
    if field.Some? && field.value.coef != 0 {
      ParseToString(field.value);
    } else {
      assert ToString(Zero) == "0";
      ParseToString(Zero);
    }
  }

  /** The rate a line is taxed at: "0.0" for a small business, otherwise the item's rate. */
  function EffectiveRate(item: LineItem, smallBusiness: bool): (r: Decimal)
    ensures smallBusiness ==> Value(r) == 0.0
    ensures !smallBusiness ==> Value(r) == Value(ReadNumber(item.vatRate))
  {
    if smallBusiness then SmallBusinessRate else ReadNumber(item.vatRate)
  }

  /** quantity * unit_price, unrounded. */
  function LineNet(item: LineItem): real
  {
    Value(ReadNumber(item.quantity)) * Value(ReadNumber(item.unitPrice))
  }

  /** amount * (rate / 100): the VAT of an amount at a percentage rate, unrounded. */
  function Percent(amount: real, rate: real): real
  {
    amount * (rate / 100.0)
  }

  /** The exact VAT of a line: net * (rate / 100). */
  function ExactLineVat(item: LineItem, smallBusiness: bool): real
  {
    Percent(LineNet(item), Value(EffectiveRate(item, smallBusiness)))
  }

  /** The line's VAT quantized to "0.01" with ROUND_HALF_UP. */
  function LineVat(item: LineItem, smallBusiness: bool): real
  {
    Units(QuantizeHalfUp(ExactLineVat(item, smallBusiness), 2), 2)
  }

  /** The rounded line VAT is a whole number of cents within half a cent of the exact VAT. */
  lemma LineVatRounding(item: LineItem, smallBusiness: bool)
    ensures OnCentGrid(LineVat(item, smallBusiness))
    ensures -0.005 <= LineVat(item, smallBusiness) - ExactLineVat(item, smallBusiness) <= 0.005
  {
    QuantizeHalfUpError(ExactLineVat(item, smallBusiness), 2);
    CentsAreOnGrid(QuantizeHalfUp(ExactLineVat(item, smallBusiness), 2));
  }

  /** Index of the first rate whose value equals v, or |rates| when there is none (dict lookup by value). */
  function IndexOfValue(rates: seq<Decimal>, v: real): (k: nat)
    ensures k <= |rates|
    ensures k < |rates| ==> Value(rates[k]) == v
    ensures forall j :: 0 <= j < k ==> Value(rates[j]) != v
  {
    if rates == [] then 0
    else if Value(rates[0]) == v then 0
    else 1 + IndexOfValue(rates[1..], v)
  }

  function Rates(buckets: seq<Bucket>): (rs: seq<Decimal>)
    ensures |rs| == |buckets|
    ensures forall k :: 0 <= k < |buckets| ==> rs[k] == buckets[k].rate
  {
    seq(|buckets|, k requires 0 <= k < |buckets| => buckets[k].rate)
  }

  /**
   * One pass of the loop body on vat_summary: open a bucket for a rate not
   * yet present (at the end, as a dict inserts), then add the line's net and
   * rounded VAT to the bucket of that rate.
   */
  function AddLine(buckets: seq<Bucket>, rate: Decimal, net: real, vat: real): seq<Bucket>
  {
    var k := IndexOfValue(Rates(buckets), Value(rate));
    if k == |buckets| then buckets + [Bucket(rate, 0.0 + net, 0.0 + vat)]
    else buckets[k := buckets[k].(basis := buckets[k].basis + net, vat := buckets[k].vat + vat)]
  }

  /** AddLine as the loop body performs it: open a zero bucket if the rate is new, then add to it. */
  lemma OpenThenAdd(before: seq<Bucket>, rate: Decimal, net: real, vat: real, k: nat, grown: seq<Bucket>)
    requires k == IndexOfValue(Rates(before), Value(rate))
    requires grown == if k == |before| then before + [Bucket(rate, 0.0, 0.0)] else before
    ensures k < |grown|
    ensures AddLine(before, rate, net, vat)
            == grown[k := grown[k].(basis := grown[k].basis + net, vat := grown[k].vat + vat)]
  {
  }

  /** total_netto and vat_summary after the loop has consumed `items`. */
  function Accumulate(items: seq<LineItem>, smallBusiness: bool): (real, seq<Bucket>)
  {
    if items == [] then (0.0, [])
    else
      var (net, buckets) := Accumulate(items[..|items| - 1], smallBusiness);
      var item := items[|items| - 1];
      (net + LineNet(item),
       AddLine(buckets, EffectiveRate(item, smallBusiness), LineNet(item), LineVat(item, smallBusiness)))
  }

  function SumVat(buckets: seq<Bucket>): real
  {
    if buckets == [] then 0.0 else SumVat(buckets[..|buckets| - 1]) + buckets[|buckets| - 1].vat
  }

  function SumBasis(buckets: seq<Bucket>): real
  {
    if buckets == [] then 0.0 else SumBasis(buckets[..|buckets| - 1]) + buckets[|buckets| - 1].basis
  }

  /** What _calculate_totals returns: (total_netto, total_vat, total_brutto, vat_summary). */
  function TotalsOf(items: seq<LineItem>, smallBusiness: bool): Totals
  {
    var (net, summary) := Accumulate(items, smallBusiness);
    Totals(net, SumVat(summary), net + SumVat(summary), summary)
  }

  /** Accumulating one more item of a list. */
  lemma AccumulateStep(items: seq<LineItem>, i: nat, smallBusiness: bool)
    requires i < |items|
    ensures var (net, buckets) := Accumulate(items[..i], smallBusiness);
            var item := items[i];
            Accumulate(items[..i + 1], smallBusiness) ==
              (net + LineNet(item),
               AddLine(buckets, EffectiveRate(item, smallBusiness), LineNet(item), LineVat(item, smallBusiness)))
  {
    var longer := items[..i + 1];
    assert longer[..|longer| - 1] == items[..i] && longer[|longer| - 1] == items[i];
  }

  /** The loop of _calculate_totals, then the sum over the buckets. */
  method CalculateTotals(items: seq<LineItem>, smallBusiness: bool) returns (t: Totals)
    ensures t == TotalsOf(items, smallBusiness)
  {
    var net := 0.0;
    var summary: seq<Bucket> := [];
    var i := 0;
    while i < |items|
      invariant 0 <= i <= |items|
      invariant net == Accumulate(items[..i], smallBusiness).0
      invariant summary == Accumulate(items[..i], smallBusiness).1
    {
      var item := items[i];
      var rate := EffectiveRate(item, smallBusiness);
      var lineNet := LineNet(item);
      net := net + lineNet;
      ghost var before := summary;
      var k := IndexOfValue(Rates(summary), Value(rate));
      if k == |summary| {
        summary := summary + [Bucket(rate, 0.0, 0.0)];
      }
      var lineVat := LineVat(item, smallBusiness);
      OpenThenAdd(before, rate, lineNet, lineVat, k, summary);
      summary := summary[k := summary[k].(basis := summary[k].basis + lineNet, vat := summary[k].vat + lineVat)];
      AccumulateStep(items, i, smallBusiness);
      i := i + 1;
    }
    assert items[..i] == items;
    var vat := SumVat(summary);
    t := Totals(net, vat, net + vat, summary);
  }

  // ---------------------------------------------------------------------------
  // An independent description of the result: per-rate sums over the items.
  // ---------------------------------------------------------------------------

  function SumNet(items: seq<LineItem>): real
  {
    if items == [] then 0.0 else SumNet(items[..|items| - 1]) + LineNet(items[|items| - 1])
  }

  function SumLineVat(items: seq<LineItem>, smallBusiness: bool): real
  {
    if items == [] then 0.0
    else SumLineVat(items[..|items| - 1], smallBusiness) + LineVat(items[|items| - 1], smallBusiness)
  }

  function SumExactVat(items: seq<LineItem>, smallBusiness: bool): real
  {
    if items == [] then 0.0
    else SumExactVat(items[..|items| - 1], smallBusiness) + ExactLineVat(items[|items| - 1], smallBusiness)
  }

  /** Net of the items whose effective rate has value v. */
  function NetAtRate(items: seq<LineItem>, smallBusiness: bool, v: real): real
  {
    if items == [] then 0.0
    else
      var last := items[|items| - 1];
      NetAtRate(items[..|items| - 1], smallBusiness, v)
        + (if Value(EffectiveRate(last, smallBusiness)) == v then LineNet(last) else 0.0)
  }

  /** Sum of the rounded line VATs of the items whose effective rate has value v. */
  function VatAtRate(items: seq<LineItem>, smallBusiness: bool, v: real): real
  {
    if items == [] then 0.0
    else
      var last := items[|items| - 1];
      VatAtRate(items[..|items| - 1], smallBusiness, v)
        + (if Value(EffectiveRate(last, smallBusiness)) == v then LineVat(last, smallBusiness) else 0.0)
  }

  /** The effective rates in order of first appearance, one per distinct value. */
  function DistinctRates(items: seq<LineItem>, smallBusiness: bool): seq<Decimal>
  {
    if items == [] then []
    else
      var rates := DistinctRates(items[..|items| - 1], smallBusiness);
      var r := EffectiveRate(items[|items| - 1], smallBusiness);
      if IndexOfValue(rates, Value(r)) < |rates| then rates else rates + [r]
  }

  /** No two distinct rates have the same value, and every item's rate value is among them. */
  lemma {:induction false} DistinctRatesProperties(items: seq<LineItem>, smallBusiness: bool)
    ensures var rates := DistinctRates(items, smallBusiness);
            forall i, j :: 0 <= i < j < |rates| ==> Value(rates[i]) != Value(rates[j])
    ensures var rates := DistinctRates(items, smallBusiness);
            forall i :: 0 <= i < |items| ==>
              IndexOfValue(rates, Value(EffectiveRate(items[i], smallBusiness))) < |rates|
  {
    if items != [] {
      var prefix := items[..|items| - 1];
      DistinctRatesProperties(prefix, smallBusiness);
      var rates := DistinctRates(prefix, smallBusiness);
      var r := EffectiveRate(items[|items| - 1], smallBusiness);
      var all := DistinctRates(items, smallBusiness);
      forall i | 0 <= i < |items|
        ensures IndexOfValue(all, Value(EffectiveRate(items[i], smallBusiness))) < |all|
      {
        var v := Value(EffectiveRate(items[i], smallBusiness));
        if i < |items| - 1 {
          assert items[i] == prefix[i];
          var k := IndexOfValue(rates, v);
          assert Value(all[k]) == v;
          IndexBelow(all, v, k);
        } else if IndexOfValue(rates, v) < |rates| {
        } else {
          assert Value(all[|rates|]) == v;
          IndexBelow(all, v, |rates|);
        }
      }
    }
  }

  /** A lookup finds the first match, so it is never beyond a known match. */
  lemma IndexBelow(rates: seq<Decimal>, v: real, k: nat)
    requires k < |rates| && Value(rates[k]) == v
    ensures IndexOfValue(rates, v) <= k
  {
  }

  /** A value no item has collects neither net nor VAT. */
  lemma {:induction false} AbsentRate(items: seq<LineItem>, smallBusiness: bool, v: real)
    requires forall i :: 0 <= i < |items| ==> Value(EffectiveRate(items[i], smallBusiness)) != v
    ensures NetAtRate(items, smallBusiness, v) == 0.0
    ensures VatAtRate(items, smallBusiness, v) == 0.0
  {
    if items != [] {
      var prefix := items[..|items| - 1];
      assert forall i :: 0 <= i < |prefix| ==> prefix[i] == items[i];
      AbsentRate(prefix, smallBusiness, v);
    }
  }

  lemma RatesAfterAddLine(buckets: seq<Bucket>, rate: Decimal, net: real, vat: real)
    ensures var k := IndexOfValue(Rates(buckets), Value(rate));
            Rates(AddLine(buckets, rate, net, vat)) == if k < |buckets| then Rates(buckets) else Rates(buckets) + [rate]
  {
  }

  /** The loop opens buckets exactly for the distinct rates, in order of first appearance. */
  lemma {:induction false} RatesOfAccumulate(items: seq<LineItem>, smallBusiness: bool)
    ensures Rates(Accumulate(items, smallBusiness).1) == DistinctRates(items, smallBusiness)
  {
    if items != [] {
      var prefix := items[..|items| - 1];
      var x := items[|items| - 1];
      RatesOfAccumulate(prefix, smallBusiness);
      RatesAfterAddLine(Accumulate(prefix, smallBusiness).1, EffectiveRate(x, smallBusiness), LineNet(x), LineVat(x, smallBusiness));
    }
  }

  /** Adding a line to a list changes the per-rate sums only at the line's own rate. */
  lemma AtRateStep(items: seq<LineItem>, smallBusiness: bool, v: real)
    requires items != []
    ensures var prefix := items[..|items| - 1];
            var x := items[|items| - 1];
            var same := Value(EffectiveRate(x, smallBusiness)) == v;
            NetAtRate(items, smallBusiness, v) == NetAtRate(prefix, smallBusiness, v) + (if same then LineNet(x) else 0.0) &&
            VatAtRate(items, smallBusiness, v) == VatAtRate(prefix, smallBusiness, v) + (if same then LineVat(x, smallBusiness) else 0.0)
  {
  }

  /** Each bucket holds the net and the rounded VAT of exactly the items at its rate. */
  lemma {:induction false} BucketSums(items: seq<LineItem>, smallBusiness: bool)
    ensures var buckets := Accumulate(items, smallBusiness).1;
            forall k :: 0 <= k < |buckets| ==>
              buckets[k].basis == NetAtRate(items, smallBusiness, Value(buckets[k].rate)) &&
              buckets[k].vat == VatAtRate(items, smallBusiness, Value(buckets[k].rate))
  {
    if items != [] {
      var prefix := items[..|items| - 1];
      var x := items[|items| - 1];
      BucketSums(prefix, smallBusiness);
      RatesOfAccumulate(prefix, smallBusiness);
      DistinctRatesProperties(prefix, smallBusiness);
      var b0 := Accumulate(prefix, smallBusiness).1;
      var b := Accumulate(items, smallBusiness).1;
      var r := EffectiveRate(x, smallBusiness);
      var k := IndexOfValue(Rates(b0), Value(r));
      assert b == AddLine(b0, r, LineNet(x), LineVat(x, smallBusiness));
      if k == |b0| {
        forall i | 0 <= i < |prefix|
          ensures Value(EffectiveRate(prefix[i], smallBusiness)) != Value(r)
        {
        }
        AbsentRate(prefix, smallBusiness, Value(r));
        forall j | 0 <= j < |b|
          ensures b[j].basis == NetAtRate(items, smallBusiness, Value(b[j].rate))
          ensures b[j].vat == VatAtRate(items, smallBusiness, Value(b[j].rate))
        {
          AtRateStep(items, smallBusiness, Value(b[j].rate));
          if j < |b0| {
            assert Rates(b0)[j] == b0[j].rate;
          }
        }
      } else {
        forall j | 0 <= j < |b|
          ensures b[j].basis == NetAtRate(items, smallBusiness, Value(b[j].rate))
          ensures b[j].vat == VatAtRate(items, smallBusiness, Value(b[j].rate))
        {
          AtRateStep(items, smallBusiness, Value(b[j].rate));
          assert Rates(b0)[j] == b0[j].rate;
          assert Rates(b0)[k] == b0[k].rate;
        }
      }
    }
  }

  /**
   * The loop computes, for each distinct rate in order of first appearance,
   * the net and the rounded VAT of exactly the items at that rate, and the
   * sum of all line nets.
   */
  lemma AccumulateCharacterization(items: seq<LineItem>, smallBusiness: bool)
    ensures Accumulate(items, smallBusiness).0 == SumNet(items)
    ensures Rates(Accumulate(items, smallBusiness).1) == DistinctRates(items, smallBusiness)
    ensures var buckets := Accumulate(items, smallBusiness).1;
            forall k :: 0 <= k < |buckets| ==>
              buckets[k].basis == NetAtRate(items, smallBusiness, Value(buckets[k].rate)) &&
              buckets[k].vat == VatAtRate(items, smallBusiness, Value(buckets[k].rate))
  {
    AccumulateSums(items, smallBusiness);
    RatesOfAccumulate(items, smallBusiness);
    BucketSums(items, smallBusiness);
  }

  /** vat_summary, stated without the loop: one bucket per distinct rate, holding that rate's sums. */
  lemma SummaryIsPerRateSums(items: seq<LineItem>, smallBusiness: bool)
    ensures var rates := DistinctRates(items, smallBusiness);
            TotalsOf(items, smallBusiness).summary ==
              seq(|rates|, k requires 0 <= k < |rates| =>
                Bucket(rates[k],
                       NetAtRate(items, smallBusiness, Value(rates[k])),
                       VatAtRate(items, smallBusiness, Value(rates[k]))))
  {
    AccumulateCharacterization(items, smallBusiness);
    var buckets := Accumulate(items, smallBusiness).1;
    assert forall k :: 0 <= k < |buckets| ==> Rates(buckets)[k] == buckets[k].rate;
  }

  lemma {:induction false} SumsAfterUpdate(buckets: seq<Bucket>, k: nat, net: real, vat: real)
    requires k < |buckets|
    ensures var b := buckets[k := buckets[k].(basis := buckets[k].basis + net, vat := buckets[k].vat + vat)];
            SumBasis(b) == SumBasis(buckets) + net && SumVat(b) == SumVat(buckets) + vat
  {
    var b := buckets[k := buckets[k].(basis := buckets[k].basis + net, vat := buckets[k].vat + vat)];
    var n := |buckets| - 1;
    if k == n {
      assert b[..n] == buckets[..n];
    } else {
      SumsAfterUpdate(buckets[..n], k, net, vat);
      assert b[..n] == buckets[..n][k := buckets[k].(basis := buckets[k].basis + net, vat := buckets[k].vat + vat)];
    }
  }

  lemma SumsAfterAddLine(buckets: seq<Bucket>, rate: Decimal, net: real, vat: real)
    ensures SumBasis(AddLine(buckets, rate, net, vat)) == SumBasis(buckets) + net
    ensures SumVat(AddLine(buckets, rate, net, vat)) == SumVat(buckets) + vat
  {
    var k := IndexOfValue(Rates(buckets), Value(rate));
    if k == |buckets| {
      var b := AddLine(buckets, rate, net, vat);
      assert b[..|b| - 1] == buckets;
    } else {
      SumsAfterUpdate(buckets, k, net, vat);
    }
  }

  /** The loop's net is the sum of the line nets, and the buckets split it and the rounded VAT without loss. */
  lemma {:induction false} AccumulateSums(items: seq<LineItem>, smallBusiness: bool)
    ensures Accumulate(items, smallBusiness).0 == SumNet(items)
    ensures SumBasis(Accumulate(items, smallBusiness).1) == SumNet(items)
    ensures SumVat(Accumulate(items, smallBusiness).1) == SumLineVat(items, smallBusiness)
  {
    if items != [] {
      var prefix := items[..|items| - 1];
      var x := items[|items| - 1];
      AccumulateSums(prefix, smallBusiness);
      var b0 := Accumulate(prefix, smallBusiness).1;
      SumsAfterAddLine(b0, EffectiveRate(x, smallBusiness), LineNet(x), LineVat(x, smallBusiness));
    }
  }

  lemma {:induction false} SumLineVatOnGrid(items: seq<LineItem>, smallBusiness: bool)
    ensures OnCentGrid(SumLineVat(items, smallBusiness))
  {
    if items != [] {
      var prefix := items[..|items| - 1];
      SumLineVatOnGrid(prefix, smallBusiness);
      LineVatRounding(items[|items| - 1], smallBusiness);
      CentGridSum(SumLineVat(prefix, smallBusiness), LineVat(items[|items| - 1], smallBusiness));
    } else {
      CentsAreOnGrid(0);
    }
  }

  /** The VAT of one rate is a sum of rounded line VATs, so it is a whole number of cents. */
  lemma {:induction false} VatAtRateOnGrid(items: seq<LineItem>, smallBusiness: bool, v: real)
    ensures OnCentGrid(VatAtRate(items, smallBusiness, v))
  {
    if items != [] {
      var prefix := items[..|items| - 1];
      var last := items[|items| - 1];
      VatAtRateOnGrid(prefix, smallBusiness, v);
      LineVatRounding(last, smallBusiness);
      CentsAreOnGrid(0);
      CentGridSum(VatAtRate(prefix, smallBusiness, v),
                  if Value(EffectiveRate(last, smallBusiness)) == v then LineVat(last, smallBusiness) else 0.0);
    } else {
      CentsAreOnGrid(0);
    }
  }

  /**
   * The bucket bases add up to the total net, the bucket VATs to the sum of
   * the rounded line VATs, gross is net plus that VAT, and every VAT figure
   * is a whole number of cents.
   */
  lemma TotalsConsistent(items: seq<LineItem>, smallBusiness: bool)
    ensures var t := TotalsOf(items, smallBusiness);
            t.net == SumNet(items) &&
            SumBasis(t.summary) == t.net &&
            t.vat == SumVat(t.summary) == SumLineVat(items, smallBusiness) &&
            t.gross == t.net + t.vat &&
            OnCentGrid(t.vat)
  {
    AccumulateSums(items, smallBusiness);
    SumLineVatOnGrid(items, smallBusiness);
  }

  /** Per-line rounding moves the total VAT by at most half a cent per line. */
  lemma {:induction false} VatRoundingBound(items: seq<LineItem>, smallBusiness: bool)
    ensures var d := SumLineVat(items, smallBusiness) - SumExactVat(items, smallBusiness);
            -0.005 * |items| as real <= d <= 0.005 * |items| as real
  {
    if items != [] {
      VatRoundingBound(items[..|items| - 1], smallBusiness);
      LineVatRounding(items[|items| - 1], smallBusiness);
    }
  }

  /** With one rate throughout, the exact VAT of all lines is the total net times that rate. */
  lemma {:induction false} UniformExactVat(items: seq<LineItem>, smallBusiness: bool, rate: real)
    requires forall i :: 0 <= i < |items| ==> Value(EffectiveRate(items[i], smallBusiness)) == rate
    ensures SumExactVat(items, smallBusiness) == Percent(SumNet(items), rate)
  {
    if items != [] {
      var prefix := items[..|items| - 1];
      var x := items[|items| - 1];
      assert forall i :: 0 <= i < |prefix| ==> prefix[i] == items[i];
      UniformExactVat(prefix, smallBusiness, rate);
      assert ExactLineVat(x, smallBusiness) == Percent(LineNet(x), rate);
      PercentAdd(SumNet(prefix), LineNet(x), rate);
    }
  }

  lemma PercentAdd(a: real, b: real, rate: real)
    ensures Percent(a, rate) + Percent(b, rate) == Percent(a + b, rate)
  {
  }

  /**
   * With a single rate, gross is net * (1 + rate/100) up to half a cent per
   * line (not up to one cent regardless of the number of lines).
   */
  lemma UniformRateGross(items: seq<LineItem>, smallBusiness: bool, rate: real)
    requires forall i :: 0 <= i < |items| ==> Value(EffectiveRate(items[i], smallBusiness)) == rate
    ensures var t := TotalsOf(items, smallBusiness);
            var d := t.gross - (t.net + Percent(t.net, rate));
            -0.005 * |items| as real <= d <= 0.005 * |items| as real
  {
    var t := TotalsOf(items, smallBusiness);
    TotalsConsistent(items, smallBusiness);
    VatRoundingBound(items, smallBusiness);
    UniformExactVat(items, smallBusiness, rate);
    assert t.gross - (t.net + Percent(t.net, rate))
        == SumLineVat(items, smallBusiness) - SumExactVat(items, smallBusiness);
  }

  /** Three lines of 0.05 at 10 %: gross 0.18 against net * 1.1 = 0.165, more than a cent apart. */
  lemma UniformRateCentCounterexample()
    ensures var item := LineItem(None, Some(Decimal(1, 0)), Some(Decimal(5, -2)), Some(Decimal(10, 0)));
            var t := TotalsOf([item, item, item], false);
            t.net == 0.15 && t.gross == 0.18 && t.gross - t.net * 1.1 > 0.01
  {
    var item := LineItem(None, Some(Decimal(1, 0)), Some(Decimal(5, -2)), Some(Decimal(10, 0)));
    assert Pow10(2) == 100;
    assert Value(Decimal(1, 0)) == 1.0 && Value(Decimal(5, -2)) == 0.05 && Value(Decimal(10, 0)) == 10.0;
    assert LineNet(item) == 0.05;
    assert ExactLineVat(item, false) == Percent(0.05, 10.0) == 0.005;
    assert HalfUp(0.5) == 1;
    assert LineVat(item, false) == 0.01;
    var items := [item, item, item];
    TotalsConsistent(items, false);
    assert items[..2] == [item, item] && [item, item][..1] == [item] && [item][..0] == [];
    assert SumNet([item]) == 0.05;
    assert SumNet([item, item]) == 0.1;
    assert SumNet(items) == 0.15;
    assert SumLineVat([item], false) == 0.01;
    assert SumLineVat([item, item], false) == 0.02;
    assert SumLineVat(items, false) == 0.03;
  }

  /** A small business line carries no VAT after rounding. */
  lemma SmallBusinessLineVat(item: LineItem)
    ensures LineVat(item, true) == 0.0
  {
    assert ExactLineVat(item, true) == 0.0;
    QuantizeOnGrid(0, 2);
  }

  /**
   * A small business gets one bucket, at rate "0.0", holding the whole net
   * and no VAT; no items give no bucket.
   */
  lemma {:induction false} SmallBusinessBuckets(items: seq<LineItem>)
    ensures Accumulate(items, true).0 == SumNet(items)
    ensures |Accumulate(items, true).1| == if items == [] then 0 else 1
    ensures items != [] ==> var b := Accumulate(items, true).1[0];
            b.rate == SmallBusinessRate && b.basis == SumNet(items) && b.vat == 0.0
  {
    if items != [] {
      var prefix := items[..|items| - 1];
      var x := items[|items| - 1];
      SmallBusinessBuckets(prefix);
      SmallBusinessLineVat(x);
      var b0 := Accumulate(prefix, true).1;
      assert Accumulate(items, true).1 == AddLine(b0, SmallBusinessRate, LineNet(x), 0.0);
      assert IndexOfValue(Rates(b0), 0.0) == 0 by {
        if prefix != [] {
          assert Rates(b0)[0] == SmallBusinessRate;
        }
      }
    }
  }

  /** A small business invoice has no VAT, so its gross equals its net. */
  lemma SmallBusinessTotals(items: seq<LineItem>)
    ensures TotalsOf(items, true).vat == 0.0
    ensures TotalsOf(items, true).gross == TotalsOf(items, true).net
  {
    var summary := Accumulate(items, true).1;
    SmallBusinessBuckets(items);
    if summary != [] {
      assert summary[..0] == [];
      assert SumVat(summary) == SumVat([]) + summary[0].vat;
    }
  }

  /** Every item opens or fills a bucket, so the summary is empty exactly when there are no items. */
  lemma SummaryEmptyIffNoItems(items: seq<LineItem>, smallBusiness: bool)
    ensures TotalsOf(items, smallBusiness).summary == [] <==> items == []
  {
    if items != [] {
      var b := Accumulate(items[..|items| - 1], smallBusiness).1;
      var x := items[|items| - 1];
      var rate := EffectiveRate(x, smallBusiness);
      var k := IndexOfValue(Rates(b), Value(rate));
      var after := AddLine(b, rate, LineNet(x), LineVat(x, smallBusiness));
      assert Accumulate(items, smallBusiness).1 == after;
      assert |after| >= 1 by {
        if k == |b| {
          assert |after| == |b| + 1;
        } else {
          assert |after| == |b|;
        }
      }
    }
  }
}
