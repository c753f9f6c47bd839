/** What the generated Cross Industry Invoice contains, stated on the element tree. */
module ZugferdProperties {
  import opened Wrappers
  import opened Digits
  import opened Text
  import opened Decimals
  import opened Rounding
  import opened Dates
  import opened Amounts
  import opened InvoiceTotals
  import opened TaxCategory
  import opened Forms
  import opened XmlTree
  import opened Zugferd

  /** A line item is numbered by its 1-based position: LineID holds the decimal digits of lineId. */
  lemma LineIdentifier(lineId: nat, item: LineItem, smallBusiness: bool)
    ensures var e := LineXml(lineId, item, smallBusiness);
            var id := TextAt(e, [AssociatedDocumentLineDocument, LineID]);
            e.name == IncludedSupplyChainTradeLineItem &&
            id == Some(NatToDigits(lineId)) && AllDigits(id.value) && DigitsToNat(id.value) == lineId
  {
    NatToDigitsRoundTrip(lineId);
    TextAt2(LineXml(lineId, item, smallBusiness), 0, 0, AssociatedDocumentLineDocument, LineID, Some(NatToDigits(lineId)));
  }

  /** A line's LineTotalAmount reads back as quantity * price rounded half-up to cents. */
  lemma LineTotal(lineId: nat, item: LineItem, smallBusiness: bool)
    ensures var total := TextAt(LineXml(lineId, item, smallBusiness),
                                [SpecifiedLineTradeSettlement, SpecifiedTradeSettlementLineMonetarySummation, LineTotalAmount]);
            total == Some(HalfUpAmountText(LineNet(item), 2)) &&
            Parse(total.value) == Some(Decimal(QuantizeHalfUp(LineNet(item), 2), -2))
  {
    LineTotalAt(lineId, item, smallBusiness);
    RequantizedLineTotal(LineNet(item));
  }

  lemma LineTotalAt(lineId: nat, item: LineItem, smallBusiness: bool)
    ensures TextAt(LineXml(lineId, item, smallBusiness),
                   [SpecifiedLineTradeSettlement, SpecifiedTradeSettlementLineMonetarySummation, LineTotalAmount])
            == Some(LineTotalText(LineNet(item)))
  {
    TextAtVia2(LineXml(lineId, item, smallBusiness), 3, SpecifiedLineTradeSettlement,
               SpecifiedTradeSettlementLineMonetarySummation, LineTotalAmount);
    SettlementLineTotal(item, smallBusiness);
  }

  lemma SettlementLineTotal(item: LineItem, smallBusiness: bool)
    ensures TextAt(LineSettlementXml(item, smallBusiness), [SpecifiedTradeSettlementLineMonetarySummation, LineTotalAmount])
            == Some(LineTotalText(LineNet(item)))
  {
    TextAt2(LineSettlementXml(item, smallBusiness), 1, 0, SpecifiedTradeSettlementLineMonetarySummation,
            LineTotalAmount, Some(LineTotalText(LineNet(item))));
  }

  /**
   * A line's ApplicableTradeTax carries the category that
   * _get_tax_category_code gives for str(rate).
   */
  lemma LineTaxCategory(rate: Decimal)
    ensures var code := TextAt(LineTaxXml(rate), [CategoryCode]);
            code == TaxCategoryCode(ToString(rate)) && code == Some(LineCategory(rate))
  {
    LineCategoryOfText(rate);
    LineTaxCode(rate);
  }

  lemma LineTaxCode(rate: Decimal)
    ensures TextAt(LineTaxXml(rate), [CategoryCode]) == Some(LineCategory(rate))
  {
    TextAt1(LineTaxXml(rate), 1, CategoryCode, Some(LineCategory(rate)));
  }

  /**
   * The exemption reason "VATEX-EU-DE" appears in a line's tax exactly when
   * the category is "O", i.e. when the rate is not positive.
   */
  lemma LineTaxExemption(rate: Decimal)
    ensures var t := LineTaxXml(rate);
            (HasChild(t, ExemptionReasonCode) <==> LineCategory(rate) == OutsideScope) &&
            (HasChild(t, ExemptionReasonCode) <==> Value(rate) <= 0.0) &&
            (HasChild(t, ExemptionReasonCode) ==> TextAt(t, [ExemptionReasonCode]) == Some(ExemptionReason))
  {
    var t := LineTaxXml(rate);
    if LineCategory(rate) == OutsideScope {
      TextAt1(t, 2, ExemptionReasonCode, Some(ExemptionReason));
      ChildAt(t, 2);
    } else {
      NoChild(t, ExemptionReasonCode);
    }
  }

  /** A line's RateApplicablePercent reads back as the rate quantized to hundredths (half-even). */
  lemma LineTaxRate(rate: Decimal)
    ensures var text := TextAt(LineTaxXml(rate), [RateApplicablePercent]);
            text.Some? && Parse(text.value) == Some(Decimal(QuantizeHalfEven(Value(rate), 2), -2))
  {
    var t := LineTaxXml(rate);
    TextAt1(t, |t.children| - 1, RateApplicablePercent, Some(AmountText(Value(rate), 2)));
    AmountTextParses(Value(rate), 2);
  }

  /** The tax element of a line is the one for the line's effective rate. */
  lemma LineTaxOfItem(lineId: nat, item: LineItem, smallBusiness: bool)
    ensures Find(LineXml(lineId, item, smallBusiness), [SpecifiedLineTradeSettlement, ApplicableTradeTax])
            == Some(LineTaxXml(EffectiveRate(item, smallBusiness)))
  {
    var e := LineXml(lineId, item, smallBusiness);
    FindAt2(e, 3, 0);
  }

  /** For a small business every line is "O" with the exemption reason. */
  lemma SmallBusinessLinesExempt(lineId: nat, item: LineItem)
    ensures LineCategory(EffectiveRate(item, true)) == OutsideScope
    ensures HasChild(LineTaxXml(EffectiveRate(item, true)), ExemptionReasonCode)
  {
    LineTaxExemption(EffectiveRate(item, true));
  }

  /** A line's quantity is written to four places, half-even, with the unit code C62. */
  lemma LineQuantity(lineId: nat, item: LineItem, smallBusiness: bool)
    ensures var quantity := Find(LineXml(lineId, item, smallBusiness), [SpecifiedLineTradeDelivery, BilledQuantity]);
            quantity.Some? && quantity.value.attrs == [("unitCode", UnitCode)] &&
            quantity.value.text.Some? &&
            Parse(quantity.value.text.value) == Some(Decimal(QuantizeHalfEven(Value(ReadNumber(item.quantity)), 4), -4))
  {
    var e := LineXml(lineId, item, smallBusiness);
    FindAt2(e, 2, 0);
    AmountTextParses(Value(ReadNumber(item.quantity)), 4);
  }

  /** A line's net unit price is written to four places, half-even. */
  lemma LinePrice(lineId: nat, item: LineItem, smallBusiness: bool)
    ensures var price := TextAt(LineXml(lineId, item, smallBusiness),
                                [SpecifiedLineTradeAgreement, NetPriceProductTradePrice, ChargeAmount]);
            price.Some? &&
            Parse(price.value) == Some(Decimal(QuantizeHalfEven(Value(ReadNumber(item.unitPrice)), 4), -4))
  {
    LinePriceAt(lineId, item, smallBusiness);
    AmountTextParses(Value(ReadNumber(item.unitPrice)), 4);
  }

  lemma LinePriceAt(lineId: nat, item: LineItem, smallBusiness: bool)
    ensures TextAt(LineXml(lineId, item, smallBusiness),
                   [SpecifiedLineTradeAgreement, NetPriceProductTradePrice, ChargeAmount])
            == Some(AmountText(Value(ReadNumber(item.unitPrice)), 4))
  {
    TextAtVia2(LineXml(lineId, item, smallBusiness), 4, SpecifiedLineTradeAgreement,
               NetPriceProductTradePrice, ChargeAmount);
    AgreementPrice(item);
  }

  lemma AgreementPrice(item: LineItem)
    ensures TextAt(LineAgreementXml(item), [NetPriceProductTradePrice, ChargeAmount])
            == Some(AmountText(Value(ReadNumber(item.unitPrice)), 4))
  {
    TextAt2(LineAgreementXml(item), 0, 0, NetPriceProductTradePrice, ChargeAmount,
            Some(AmountText(Value(ReadNumber(item.unitPrice)), 4)));
  }

  // ---------------------------------------------------------------------------
  // Header settlement: tax buckets, payment means, monetary summation.
  // ---------------------------------------------------------------------------

  /**
   * A header ApplicableTradeTax carries the category that
   * _get_tax_category_code gives for the rate quantized to hundredths.
   */
  lemma HeaderTaxCategory(b: Bucket)
    ensures var code := TextAt(HeaderTaxXml(b), [CategoryCode]);
            code == TaxCategoryCode(AmountText(Value(b.rate), 2)) && code == Some(HeaderCategory(b.rate))
  {
    HeaderCategoryOfText(b.rate);
    HeaderTaxCode(b);
  }

  lemma HeaderTaxCode(b: Bucket)
    ensures TextAt(HeaderTaxXml(b), [CategoryCode]) == Some(HeaderCategory(b.rate))
  {
    TextAt1(HeaderTaxXml(b), 3, CategoryCode, Some(HeaderCategory(b.rate)));
  }

  /** The header exemption reason appears exactly for category "O", i.e. for rates up to half a hundredth. */
  lemma HeaderTaxExemption(b: Bucket)
    ensures var t := HeaderTaxXml(b);
            (HasChild(t, ExemptionReasonCode) <==> HeaderCategory(b.rate) == OutsideScope) &&
            (HasChild(t, ExemptionReasonCode) <==> Value(b.rate) <= 0.005) &&
            (HasChild(t, ExemptionReasonCode) ==> TextAt(t, [ExemptionReasonCode]) == Some(ExemptionReason))
  {
    var t := HeaderTaxXml(b);
    HundredthsPositive(Value(b.rate));
    if HeaderCategory(b.rate) == OutsideScope {
      TextAt1(t, 4, ExemptionReasonCode, Some(ExemptionReason));
      ChildAt(t, 4);
    } else {
      NoChild(t, ExemptionReasonCode);
    }
  }

  /** A header tax bucket's amounts read back as its VAT and basis, rounded half-even to cents. */
  lemma HeaderTaxAmounts(b: Bucket)
    ensures var t := HeaderTaxXml(b);
            var vat := TextAt(t, [CalculatedAmount]);
            var basis := TextAt(t, [BasisAmount]);
            vat.Some? && Parse(vat.value) == Some(Decimal(QuantizeHalfEven(b.vat, 2), -2)) &&
            basis.Some? && Parse(basis.value) == Some(Decimal(QuantizeHalfEven(b.basis, 2), -2))
  {
    HeaderTaxVat(b);
    HeaderTaxBasis(b);
    AmountTextParses(b.vat, 2);
    AmountTextParses(b.basis, 2);
  }

  lemma HeaderTaxVat(b: Bucket)
    ensures TextAt(HeaderTaxXml(b), [CalculatedAmount]) == Some(AmountText(b.vat, 2))
  {
    TextAt1(HeaderTaxXml(b), 0, CalculatedAmount, Some(AmountText(b.vat, 2)));
  }

  lemma HeaderTaxBasis(b: Bucket)
    ensures TextAt(HeaderTaxXml(b), [BasisAmount]) == Some(AmountText(b.basis, 2))
  {
    TextAt1(HeaderTaxXml(b), 2, BasisAmount, Some(AmountText(b.basis, 2)));
  }

  /**
   * The settlement's children are, in order, the currency and the optional
   * payment means, one ApplicableTradeTax per VAT bucket in the buckets'
   * order, and the monetary summation.
   */
  lemma SettlementLayout(form: Form, t: Totals)
    ensures var s := SettlementXml(form, t);
            var h := |SettlementHead(form)|;
            |s.children| == h + |t.summary| + 1 &&
            (forall k :: 0 <= k < |t.summary| ==> s.children[h + k] == HeaderTaxXml(t.summary[k])) &&
            s.children[|s.children| - 1] == SummationXml(t)
  {
  }

  /** The header taxes are all ApplicableTradeTax elements, one per bucket. */
  lemma HeaderTaxesCount(summary: seq<Bucket>)
    ensures CountNamed(HeaderTaxesXml(summary), ApplicableTradeTax) == |summary|
  {
    var taxes := HeaderTaxesXml(summary);
    assert forall j :: 0 <= j < |taxes| ==> taxes[j].name == ApplicableTradeTax;
    CountNamedUniform(taxes, ApplicableTradeTax);
  }

  /** Neither the currency nor the payment means is an ApplicableTradeTax. */
  lemma SettlementHeadHasNoTax(form: Form)
    ensures CountNamed(SettlementHead(form), ApplicableTradeTax) == 0
  {
    CountNamedUniform(SettlementHead(form), ApplicableTradeTax);
  }

  /** There is exactly one ApplicableTradeTax in the settlement per VAT bucket. */
  lemma SettlementTaxCount(form: Form, t: Totals)
    ensures CountNamed(SettlementXml(form, t).children, ApplicableTradeTax) == |t.summary|
  {
    var head := SettlementHead(form);
    var taxes := HeaderTaxesXml(t.summary);
    var tail := [SummationXml(t)];
    HeaderTaxesCount(t.summary);
    SettlementHeadHasNoTax(form);
    CountNamedConcat(head, taxes, ApplicableTradeTax);
    CountNamedUniform(tail, ApplicableTradeTax);
    CountNamedConcat(head + taxes, tail, ApplicableTradeTax);
  }

  /**
   * Payment means are present exactly when a non-empty sender_iban is given;
   * they then carry the type code 30 (credit transfer) and that IBAN.
   */
  lemma SettlementPaymentMeans(form: Form, t: Totals)
    ensures var s := SettlementXml(form, t);
            (HasChild(s, SpecifiedTradeSettlementPaymentMeans) <==> Filled(form, "sender_iban")) &&
            (Filled(form, "sender_iban") ==>
               TextAt(s, [SpecifiedTradeSettlementPaymentMeans, TypeCode]) == Some(CreditTransfer) &&
               TextAt(s, [SpecifiedTradeSettlementPaymentMeans, PayeePartyCreditorFinancialAccount, IBANID])
                 == Some(form["sender_iban"]))
  {
    if Filled(form, "sender_iban") {
      PaymentMeansPresent(form, t);
    } else {
      PaymentMeansAbsent(form, t);
    }
  }

  lemma PaymentMeansPresent(form: Form, t: Totals)
    requires Filled(form, "sender_iban")
    ensures var s := SettlementXml(form, t);
            HasChild(s, SpecifiedTradeSettlementPaymentMeans) &&
            TextAt(s, [SpecifiedTradeSettlementPaymentMeans, TypeCode]) == Some(CreditTransfer) &&
            TextAt(s, [SpecifiedTradeSettlementPaymentMeans, PayeePartyCreditorFinancialAccount, IBANID])
              == Some(form["sender_iban"])
  {
    var s := SettlementXml(form, t);
    assert s.children[0].name == InvoiceCurrencyCode && s.children[1] == PaymentMeansXml(form["sender_iban"]);
    MeansAt(s, form["sender_iban"]);
  }

  lemma PaymentMeansAbsent(form: Form, t: Totals)
    requires !Filled(form, "sender_iban")
    ensures !HasChild(SettlementXml(form, t), SpecifiedTradeSettlementPaymentMeans)
  {
    NoChild(SettlementXml(form, t), SpecifiedTradeSettlementPaymentMeans);
  }

  /** Payment means placed second, after the currency code, are found with their type code and IBAN. */
  lemma MeansAt(e: Element, iban: string)
    requires |e.children| >= 2 && e.children[0].name == InvoiceCurrencyCode
    requires e.children[1] == PaymentMeansXml(iban)
    ensures HasChild(e, SpecifiedTradeSettlementPaymentMeans)
    ensures TextAt(e, [SpecifiedTradeSettlementPaymentMeans, TypeCode]) == Some(CreditTransfer)
    ensures TextAt(e, [SpecifiedTradeSettlementPaymentMeans, PayeePartyCreditorFinancialAccount, IBANID]) == Some(iban)
  {
    ChildAt(e, 1);
    TextAt2(e, 1, 0, SpecifiedTradeSettlementPaymentMeans, TypeCode, Some(CreditTransfer));
    TextAt3(e, 1, 1, 0, SpecifiedTradeSettlementPaymentMeans, PayeePartyCreditorFinancialAccount, IBANID, Some(iban));
  }

  /** The summation is the settlement's only SpecifiedTradeSettlementHeaderMonetarySummation. */
  lemma SettlementSummation(form: Form, t: Totals)
    ensures Find(SettlementXml(form, t), [SpecifiedTradeSettlementHeaderMonetarySummation]) == Some(SummationXml(t))
  {
    var s := SettlementXml(form, t);
    assert forall j :: 0 <= j < |s.children| - 1 ==> s.children[j].name != SpecifiedTradeSettlementHeaderMonetarySummation;
    FindChild(s, |s.children| - 1, SpecifiedTradeSettlementHeaderMonetarySummation, SummationXml(t));
  }

  /** The header summation repeats the net as line total and as tax basis. */
  lemma SummationNet(net: string, vat: string, gross: string)
    ensures var s := SummationOf(net, vat, gross);
            TextAt(s, [LineTotalAmount]) == TextAt(s, [TaxBasisTotalAmount]) == Some(net)
  {
    TextAt1(SummationOf(net, vat, gross), 0, LineTotalAmount, Some(net));
    TextAt1(SummationOf(net, vat, gross), 1, TaxBasisTotalAmount, Some(net));
  }

  /** The header summation repeats the gross as grand total and as amount due. */
  lemma SummationGross(net: string, vat: string, gross: string)
    ensures var s := SummationOf(net, vat, gross);
            TextAt(s, [GrandTotalAmount]) == TextAt(s, [DuePayableAmount]) == Some(gross)
  {
    SummationGrandTotal(net, vat, gross);
    SummationDuePayable(net, vat, gross);
  }

  lemma SummationGrandTotal(net: string, vat: string, gross: string)
    ensures TextAt(SummationOf(net, vat, gross), [GrandTotalAmount]) == Some(gross)
  {
    TextAt1(SummationOf(net, vat, gross), 3, GrandTotalAmount, Some(gross));
  }

  lemma SummationDuePayable(net: string, vat: string, gross: string)
    ensures TextAt(SummationOf(net, vat, gross), [DuePayableAmount]) == Some(gross)
  {
    TextAt1(SummationOf(net, vat, gross), 4, DuePayableAmount, Some(gross));
  }

  /** The VAT total is the summation amount that names its currency, EUR. */
  lemma SummationVat(net: string, vat: string, gross: string)
    ensures var v := Find(SummationOf(net, vat, gross), [TaxTotalAmount]);
            v.Some? && v.value.attrs == [("currencyID", Currency)] && v.value.text == Some(vat) &&
            TextAt(SummationOf(net, vat, gross), [TaxTotalAmount]) == Some(vat)
  {
    FindChild(SummationOf(net, vat, gross), 2, TaxTotalAmount, SummationOf(net, vat, gross).children[2]);
  }

  /** For an invoice's totals the VAT total is written exactly: it is the sum of the rounded line VATs. */
  lemma InvoiceVatTotal(items: seq<LineItem>, smallBusiness: bool)
    ensures var vat := TextAt(SummationXml(TotalsOf(items, smallBusiness)), [TaxTotalAmount]);
            vat.Some? && Parse(vat.value).Some? && Value(Parse(vat.value).value) == SumLineVat(items, smallBusiness)
  {
    var t := TotalsOf(items, smallBusiness);
    SummationVat(AmountText(t.net, 2), AmountText(t.vat, 2), AmountText(t.gross, 2));
    TotalsConsistent(items, smallBusiness);
    assert Value(Parse(AmountText(t.vat, 2)).value) == t.vat by {
      AmountTextParses(t.vat, 2);
      CentGridExact(t.vat);
    }
  }

  /**
   * The grand total of an invoice is its gross rounded half-even to cents,
   * and that gross is the net plus the summed rounded line VATs.
   */
  lemma InvoiceGrandTotal(items: seq<LineItem>, smallBusiness: bool)
    ensures var t := TotalsOf(items, smallBusiness);
            var gross := TextAt(SummationXml(t), [GrandTotalAmount]);
            gross.Some? && Parse(gross.value) == Some(Decimal(QuantizeHalfEven(t.gross, 2), -2)) &&
            t.gross == SumNet(items) + SumLineVat(items, smallBusiness)
  {
    var t := TotalsOf(items, smallBusiness);
    SummationGross(AmountText(t.net, 2), AmountText(t.vat, 2), AmountText(t.gross, 2));
    TotalsConsistent(items, smallBusiness);
    AmountTextParses(t.gross, 2);
  }

  /** Each header bucket of an invoice states that rate's VAT exactly and its net rounded to cents. */
  lemma InvoiceHeaderTaxValues(items: seq<LineItem>, smallBusiness: bool, k: nat)
    requires k < |TotalsOf(items, smallBusiness).summary|
    ensures var b := TotalsOf(items, smallBusiness).summary[k];
            var t := HeaderTaxXml(b);
            var vat := TextAt(t, [CalculatedAmount]);
            var basis := TextAt(t, [BasisAmount]);
            vat.Some? && Parse(vat.value).Some? &&
            Value(Parse(vat.value).value) == VatAtRate(items, smallBusiness, Value(b.rate)) &&
            basis.Some? &&
            Parse(basis.value) == Some(Decimal(QuantizeHalfEven(NetAtRate(items, smallBusiness, Value(b.rate)), 2), -2))
  {
    var b := TotalsOf(items, smallBusiness).summary[k];
    AccumulateCharacterization(items, smallBusiness);
    HeaderTaxAmounts(b);
    VatAtRateOnGrid(items, smallBusiness, Value(b.rate));
    CentGridExact(b.vat);
    UnitsValue(QuantizeHalfEven(b.vat, 2), 2);
  }

  // ---------------------------------------------------------------------------
  // Header agreement: seller and buyer.
  // ---------------------------------------------------------------------------

  /** The seller's registrations: "FC" exactly for a tax number, "VA" exactly for a VAT identifier. */
  lemma SellerRegistrations(form: Form)
    ensures CountNamed(SellerXml(form).children, SpecifiedTaxRegistration)
            == (if Filled(form, "sender_tax_id") then 1 else 0) + (if Filled(form, "sender_vat_id") then 1 else 0)
    ensures Filled(form, "sender_tax_id") ==>
              Find(SellerXml(form), [SpecifiedTaxRegistration]) == Some(RegistrationXml("FC", form["sender_tax_id"]))
    ensures !Filled(form, "sender_tax_id") && Filled(form, "sender_vat_id") ==>
              Find(SellerXml(form), [SpecifiedTaxRegistration]) == Some(RegistrationXml("VA", form["sender_vat_id"]))
    ensures !Filled(form, "sender_tax_id") && !Filled(form, "sender_vat_id") ==>
              !HasChild(SellerXml(form), SpecifiedTaxRegistration)
  {
    SellerRegistrationCount(form);
    if Filled(form, "sender_tax_id") || Filled(form, "sender_vat_id") {
      FirstRegistration(form);
    } else {
      NoChild(SellerXml(form), SpecifiedTaxRegistration);
    }
  }

  /** With a registration, the first one follows the name and the address. */
  lemma FirstRegistration(form: Form)
    requires Filled(form, "sender_tax_id") || Filled(form, "sender_vat_id")
    ensures Find(SellerXml(form), [SpecifiedTaxRegistration]) == Some(SellerXml(form).children[2])
  {
    FindAt(SellerXml(form), 2);
  }

  lemma SellerRegistrationCount(form: Form)
    ensures CountNamed(SellerXml(form).children, SpecifiedTaxRegistration)
            == (if Filled(form, "sender_tax_id") then 1 else 0) + (if Filled(form, "sender_vat_id") then 1 else 0)
  {
    var base := [Leaf(Ram, Name, Get(form, "sender_name", "Verkaeufer")),
                 AddressXml(Get(form, "sender_zip", ""), Get(form, "sender_address", ""), Get(form, "sender_city", ""))];
    var fc := OptionalRegistration(form, "sender_tax_id", "FC");
    var va := OptionalRegistration(form, "sender_vat_id", "VA");
    RegistrationCount(form, "sender_tax_id", "FC");
    RegistrationCount(form, "sender_vat_id", "VA");
    CountNamedUniform(base, SpecifiedTaxRegistration);
    CountNamedConcat(base, fc, SpecifiedTaxRegistration);
    CountNamedConcat(base + fc, va, SpecifiedTaxRegistration);
    assert SellerXml(form).children == base + fc + va;
  }

  lemma RegistrationCount(form: Form, key: string, scheme: string)
    ensures CountNamed(OptionalRegistration(form, key, scheme), SpecifiedTaxRegistration) == if Filled(form, key) then 1 else 0
  {
    CountNamedUniform(OptionalRegistration(form, key, scheme), SpecifiedTaxRegistration);
  }

  /** The BuyerReference (BT-10) is present exactly when a Leitweg-ID is given, and then it is that ID. */
  lemma BuyerReferencePresence(form: Form)
    ensures HasChild(BuyerXml(form), BuyerReference) <==> Filled(form, "leitweg_id")
    ensures Filled(form, "leitweg_id") ==> TextAt(BuyerXml(form), [BuyerReference]) == Some(form["leitweg_id"])
  {
    var e := BuyerXml(form);
    if Filled(form, "leitweg_id") {
      TextAt1(e, 0, BuyerReference, Some(form["leitweg_id"]));
      ChildAt(e, 0);
    } else {
      NoChild(e, BuyerReference);
    }
  }

  /** The parties' names fall back to "Verkaeufer" and "Kunde" when the fields are missing. */
  lemma PartyNames(form: Form)
    ensures TextAt(SellerXml(form), [Name]) == Some(Get(form, "sender_name", "Verkaeufer"))
    ensures TextAt(BuyerXml(form), [Name]) == Some(Get(form, "receiver_name", "Kunde"))
  {
    TextAt1(SellerXml(form), 0, Name, Some(Get(form, "sender_name", "Verkaeufer")));
    var buyer := BuyerXml(form);
    TextAt1(buyer, |buyer.children| - 2, Name, Some(Get(form, "receiver_name", "Kunde")));
  }

  /** Both postal addresses are in Germany. */
  lemma PartyCountries(form: Form)
    ensures TextAt(SellerXml(form), [PostalTradeAddress, CountryID]) == Some(Country)
    ensures TextAt(BuyerXml(form), [PostalTradeAddress, CountryID]) == Some(Country)
  {
    SellerCountry(form);
    BuyerCountry(form);
  }

  lemma SellerCountry(form: Form)
    ensures TextAt(SellerXml(form), [PostalTradeAddress, CountryID]) == Some(Country)
  {
    TextAtVia(SellerXml(form), 1, PostalTradeAddress, [CountryID]);
    AddressCountry(Get(form, "sender_zip", ""), Get(form, "sender_address", ""), Get(form, "sender_city", ""));
  }

  lemma BuyerCountry(form: Form)
    ensures TextAt(BuyerXml(form), [PostalTradeAddress, CountryID]) == Some(Country)
  {
    var e := BuyerXml(form);
    TextAtVia(e, |e.children| - 1, PostalTradeAddress, [CountryID]);
    AddressCountry(Get(form, "receiver_zip", ""), Get(form, "receiver_address", ""), Get(form, "receiver_city", ""));
  }

  lemma AddressCountry(zip: string, line: string, city: string)
    ensures TextAt(AddressXml(zip, line, city), [CountryID]) == Some(Country)
  {
    TextAt1(AddressXml(zip, line, city), 3, CountryID, Some(Country));
  }

  // ---------------------------------------------------------------------------
  // The document: errors, header, transaction.
  // ---------------------------------------------------------------------------

  /**
   * The generator fails exactly when the invoice date does not parse, or when
   * it parses and there are no items; the date is checked first.
   */
  lemma ZugferdErrors(form: Form, items: seq<LineItem>, today: Date, uuidHex: string)
    requires ValidDate(today)
    ensures var r := ZugferdXml(form, items, today, uuidHex);
            var date := ParseIsoDate(InvoiceDateText(form, today));
            (r == Err(BadInvoiceDate) <==> date.None?) &&
            (r == Err(VatTotalNotDecimal) <==> date.Some? && items == []) &&
            (r.Ok? <==> date.Some? && items != [])
  {
    SummaryEmptyIffNoItems(items, SmallBusiness(form));
  }

  /** Without an invoice_date field the document is dated today. */
  lemma DefaultDateIsToday(form: Form, today: Date)
    requires ValidDate(today) && "invoice_date" !in form
    ensures ParseIsoDate(InvoiceDateText(form, today)) == Some(today)
  {
    IsoRoundTrip(today);
  }

  /** The root holds, in order, the context, the document header and the transaction. */
  lemma DocumentShape(form: Form, items: seq<LineItem>, date: Date, uuidHex: string, t: Totals)
    requires ValidDate(date) && t.summary != []
    ensures var r := InvoiceXml(form, items, date, uuidHex, t);
            r.Ok? && r.value.ns == Rsm && r.value.name == CrossIndustryInvoice &&
            |r.value.children| == 3 &&
            r.value.children[0].name == ExchangedDocumentContext &&
            r.value.children[1].name == ExchangedDocument &&
            r.value.children[2] == TransactionXml(form, items, t)
  {
    RootOf(form, items, date, uuidHex, t);
    RootShape(ContextXml(), DocumentXml(InvoiceId(form, uuidHex), date), TransactionXml(form, items, t));
  }

  lemma RootOf(form: Form, items: seq<LineItem>, date: Date, uuidHex: string, t: Totals)
    requires ValidDate(date) && t.summary != []
    ensures InvoiceXml(form, items, date, uuidHex, t)
            == Ok(Node(Rsm, CrossIndustryInvoice,
                       [ContextXml(), DocumentXml(InvoiceId(form, uuidHex), date), TransactionXml(form, items, t)]))
  {
  }

  lemma RootShape(context: Element, document: Element, transaction: Element)
    requires context == ContextXml() && document.name == ExchangedDocument
    ensures var root := Node(Rsm, CrossIndustryInvoice, [context, document, transaction]);
            root.ns == Rsm && root.name == CrossIndustryInvoice && |root.children| == 3 &&
            root.children[0].name == ExchangedDocumentContext && root.children[1].name == ExchangedDocument &&
            root.children[2] == transaction
  {
  }

  /** The guideline identifier names the EN 16931 / XRechnung 2.2 profile. */
  lemma DocumentGuideline(form: Form, items: seq<LineItem>, date: Date, uuidHex: string, t: Totals)
    requires ValidDate(date) && t.summary != []
    ensures var r := InvoiceXml(form, items, date, uuidHex, t);
            r.Ok? &&
            TextAt(r.value, [ExchangedDocumentContext, GuidelineSpecifiedDocumentContextParameter, ID]) == Some(GuidelineId)
  {
    TextAt3(InvoiceXml(form, items, date, uuidHex, t).value, 0, 0, 0, ExchangedDocumentContext,
            GuidelineSpecifiedDocumentContextParameter, ID, Some(GuidelineId));
  }

  /** A successful document is the one for the parsed invoice date and the totals of the items. */
  lemma DocumentOfParsedDate(form: Form, items: seq<LineItem>, today: Date, uuidHex: string)
    requires ValidDate(today)
    ensures var date := ParseIsoDate(InvoiceDateText(form, today));
            var r := ZugferdXml(form, items, today, uuidHex);
            r.Ok? ==> date.Some? && r == InvoiceXml(form, items, date.value, uuidHex, TotalsOf(items, SmallBusiness(form)))
  {
  }

  /** The document ID is the invoice_number field when it is there, otherwise "INV-" and six upper-case hex digits. */
  lemma DocumentId(form: Form, uuidHex: string, date: Date)
    requires ValidDate(date)
    ensures TextAt(DocumentXml(InvoiceId(form, uuidHex), date), [ID]) == Some(InvoiceId(form, uuidHex))
    ensures "invoice_number" in form ==> InvoiceId(form, uuidHex) == form["invoice_number"]
    ensures "invoice_number" !in form ==>
              StartsWith(InvoiceId(form, uuidHex), "INV-") && |InvoiceId(form, uuidHex)| <= 10
  {
    TextAt1(DocumentXml(InvoiceId(form, uuidHex), date), 0, ID, Some(InvoiceId(form, uuidHex)));
  }

  /** The document is a commercial invoice, type code 380. */
  lemma DocumentTypeCode(id: string, date: Date)
    requires ValidDate(date)
    ensures TextAt(DocumentXml(id, date), [TypeCode]) == Some(CommercialInvoice)
  {
    TextAt1(DocumentXml(id, date), 1, TypeCode, Some(CommercialInvoice));
  }

  /**
   * The issue date is written in format 102: eight digits that read back as
   * the parsed invoice date's year, month and day.
   */
  lemma DocumentIssueDate(id: string, date: Date)
    requires ValidDate(date)
    ensures var stamp := Find(DocumentXml(id, date), [IssueDateTime, DateTimeString]);
            stamp.Some? && stamp.value.attrs == [("format", DateFormat)] &&
            stamp.value.text == Some(Stamp(date)) &&
            |Stamp(date)| == 8 && AllDigits(Stamp(date)) &&
            DigitsToNat(Stamp(date)[..4]) == date.year && DigitsToNat(Stamp(date)[4..6]) == date.month &&
            DigitsToNat(Stamp(date)[6..]) == date.day
  {
    FindAt2(DocumentXml(id, date), 2, 0);
    StampDigits(date);
  }

  /** An invoice_date written as YYYY-MM-DD appears in the document with its dashes removed. */
  lemma IssueDateOfCanonicalText(form: Form, today: Date)
    requires ValidDate(today)
    requires var s := InvoiceDateText(form, today);
             |s| == 10 && ParseIsoDate(s).Some? && s[8] != ' '
    ensures var s := InvoiceDateText(form, today);
            Stamp(ParseIsoDate(s).value) == s[..4] + s[5..7] + s[8..]
  {
    StampOfCanonical(InvoiceDateText(form, today));
  }

  /**
   * The transaction holds one line item per input item, in input order and
   * numbered from 1, then the agreement and the settlement.
   */
  lemma TransactionLines(form: Form, items: seq<LineItem>, t: Totals)
    ensures var e := TransactionXml(form, items, t);
            |e.children| == |items| + 2 &&
            (forall i :: 0 <= i < |items| ==> e.children[i] == LineXml(i + 1, items[i], SmallBusiness(form))) &&
            e.children[|items|] == AgreementXml(form) && e.children[|items| + 1] == SettlementXml(form, t)
  {
  }

  /** Exactly the input items become IncludedSupplyChainTradeLineItem elements. */
  lemma TransactionLineCount(form: Form, items: seq<LineItem>, t: Totals)
    ensures CountNamed(TransactionXml(form, items, t).children, IncludedSupplyChainTradeLineItem) == |items|
  {
    var lines := LinesXml(items, SmallBusiness(form));
    var rest := [AgreementXml(form), SettlementXml(form, t)];
    LinesNamed(items, SmallBusiness(form));
    TrailerCount(form, t);
    CountNamedConcat(lines, rest, IncludedSupplyChainTradeLineItem);
  }

  /** The agreement and the settlement after the lines are no line items. */
  lemma TrailerCount(form: Form, t: Totals)
    ensures CountNamed([AgreementXml(form), SettlementXml(form, t)], IncludedSupplyChainTradeLineItem) == 0
  {
    CountNamedUniform([AgreementXml(form), SettlementXml(form, t)], IncludedSupplyChainTradeLineItem);
  }

  lemma LinesNamed(items: seq<LineItem>, smallBusiness: bool)
    ensures CountNamed(LinesXml(items, smallBusiness), IncludedSupplyChainTradeLineItem) == |items|
  {
    var lines := LinesXml(items, smallBusiness);
    assert forall j :: 0 <= j < |lines| ==> lines[j].name == IncludedSupplyChainTradeLineItem;
    CountNamedUniform(lines, IncludedSupplyChainTradeLineItem);
  }
}
