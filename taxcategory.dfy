/**
 * The duty/tax category code (UNTDID 5305, as used by EN 16931-1:2017) that
 * the trade document gives a VAT rate: "S" (standard rate) for a positive
 * rate, "O" (outside the scope of tax) otherwise.
 */
module TaxCategory {
  import opened Wrappers
  import opened Digits
  import opened Decimals
  import opened Rounding
  import opened Amounts

  const Standard := "S"
  const OutsideScope := "O"

  /** The reason code written beside every "O" category. */
  const ExemptionReason := "VATEX-EU-DE"

  /**
   * _get_tax_category_code: the rate text is read with Decimal(); text it
   * cannot read raises, which is None here.
   */
  function TaxCategoryCode(rateText: string): (r: Option<string>)
    ensures r.None? <==> Parse(rateText).None?
    ensures r == Some(Standard) <==> Parse(rateText).Some? && Value(Parse(rateText).value) > 0.0
    ensures r == Some(OutsideScope) <==> Parse(rateText).Some? && Value(Parse(rateText).value) <= 0.0
  {
    match Parse(rateText)
    case None => None
    case Some(rate) => if Value(rate) > 0.0 then Some(Standard) else Some(OutsideScope)
  }

  /** Sign of a Decimal's value is the sign of its coefficient. */
  lemma ValueSign(d: Decimal)
    ensures Value(d) > 0.0 <==> d.coef > 0
  {
    assert Scale(d.exp) > 0.0;
  }

  /** The code a line item gets, from str(rate): "S" exactly when the rate is positive. */
  function LineCategory(rate: Decimal): (r: string)
    ensures r == Standard <==> Value(rate) > 0.0
    ensures r == OutsideScope <==> Value(rate) <= 0.0
  {
    if Value(rate) > 0.0 then Standard else OutsideScope
  }

  /** The code a header tax bucket gets, from str(rate.quantize(Decimal("0.01"))). */
  function HeaderCategory(rate: Decimal): (r: string)
    ensures r == Standard <==> QuantizeHalfEven(Value(rate), 2) > 0
  {
    if QuantizeHalfEven(Value(rate), 2) > 0 then Standard else OutsideScope
  }

  /** The line item's code is what _get_tax_category_code gives for str(rate). */
  lemma LineCategoryOfText(rate: Decimal)
    ensures TaxCategoryCode(ToString(rate)) == Some(LineCategory(rate))
  {
    ParseToString(rate);
  }

  /** The header bucket's code is what _get_tax_category_code gives for the quantized rate text. */
  lemma HeaderCategoryOfText(rate: Decimal)
    ensures TaxCategoryCode(AmountText(Value(rate), 2)) == Some(HeaderCategory(rate))
  {
    var q := QuantizeHalfEven(Value(rate), 2);
    AmountTextParses(Value(rate), 2);
    ValueSign(Decimal(q, -2));
  }

  /** A rate rounds to a positive number of hundredths exactly when it exceeds half a hundredth. */
  lemma HundredthsPositive(v: real)
    ensures QuantizeHalfEven(v, 2) > 0 <==> v > 0.005
  {
    var y := v * 100.0;
    assert Pow10(2) == 100;
    var n := HalfEven(y);
    assert QuantizeHalfEven(v, 2) == n;
    if v > 0.005 {
      assert y > 0.5;
    } else {
      assert y <= 0.5;
    }
  }

  /**
   * The header bucket and the line items of the same rate carry the same
   * category exactly when the rate is not in (0, 0.005]: a rate that small
   * is "S" on the line but rounds to 0.00 and becomes "O" in the header.
   */
  lemma CategoriesAgree(rate: Decimal)
    ensures HeaderCategory(rate) == LineCategory(rate) <==> !(0.0 < Value(rate) <= 0.005)
  {
    HundredthsPositive(Value(rate));
  }

  /** The rate 0.005 exhibits the disagreement. */
  lemma HalfHundredthDisagrees()
    ensures LineCategory(Decimal(5, -3)) == Standard
    ensures HeaderCategory(Decimal(5, -3)) == OutsideScope
  {
    assert Value(Decimal(5, -3)) == 0.005 by {
      assert Pow10(3) == 1000;
    }
    CategoriesAgree(Decimal(5, -3));
  }

  /** The small-business rate Decimal("0.0") is "O" on the line and in the header. */
  lemma SmallBusinessCategory()
    ensures TaxCategoryCode(ToString(Decimal(0, -1))) == Some(OutsideScope)
    ensures HeaderCategory(Decimal(0, -1)) == OutsideScope
  {
    LineCategoryOfText(Decimal(0, -1));
    HundredthsPositive(0.0);
  }
}
