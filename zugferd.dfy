/**
 * The Cross Industry Invoice (Factur-X 1.0 / ZUGFeRD 2.x, profile EN 16931)
 * that _generate_zugferd_xml builds with ElementTree, as an element tree.
 */
module Zugferd {
  import opened Wrappers
  import opened Digits
  import opened Decimals
  import opened Rounding
  import opened Text
  import opened Dates
  import opened Amounts
  import opened InvoiceTotals
  import opened TaxCategory
  import opened Forms
  import opened XmlTree

  const GuidelineId := "urn:cen.eu:en16931:2017#compliant#urn:xoev-de:kosit:standard:xrechnung_2.2"
  /** UNTDID 1001 code of a commercial invoice. */
  const CommercialInvoice := "380"
  /** UNTDID 2379 date format CCYYMMDD. */
  const DateFormat := "102"
  /** UN/ECE recommendation 20 unit code "one". */
  const UnitCode := "C62"
  /** UNTDID 4461 payment means code of a credit transfer. */
  const CreditTransfer := "30"
  const Currency := "EUR"
  const Country := "DE"

  /** Why the generator raises instead of returning a document. */
  datatype XmlError =
    | BadInvoiceDate      // strptime rejects the invoice_date text
    | VatTotalNotDecimal  // no items: sum() of no buckets is the int 0, which has no quantize

  /** The invoice_date field, or today's date written as %Y-%m-%d when it is missing. */
  function InvoiceDateText(form: Form, today: Date): string
    requires ValidDate(today)
  {
    Get(form, "invoice_date", IsoText(today))
  }

  /** The invoice_number field, or "INV-" and the first six hex digits of a fresh UUID, upper-cased. */
  function InvoiceId(form: Form, uuidHex: string): string
  {
    Get(form, "invoice_number", "INV-" + UpperHex(Take(uuidHex, 6)))
  }

  function ContextXml(): Element
  {
    Node(Rsm, ExchangedDocumentContext, [
      Node(Ram, GuidelineSpecifiedDocumentContextParameter, [Leaf(Ram, ID, GuidelineId)])])
  }

  function DocumentXml(id: string, date: Date): Element
    requires ValidDate(date)
  {
    Node(Rsm, ExchangedDocument, [
      Leaf(Ram, ID, id),
      Leaf(Ram, TypeCode, CommercialInvoice),
      Node(Ram, IssueDateTime, [Element(Udt, DateTimeString, [("format", DateFormat)], Some(Stamp(date)), [])])])
  }

  /** line_total.quantize(0.01) where line_total is quantity * price quantized half-up to 0.01. */
  function LineTotalText(net: real): string
  {
    QuantizedText(net < 0.0, QuantizeHalfEven(Units(QuantizeHalfUp(net, 2), 2), 2), 2)
  }

  function LineTaxXml(rate: Decimal): Element
  {
    var code := LineCategory(rate);
    Node(Ram, ApplicableTradeTax,
      [Leaf(Ram, TypeCode, "VAT"), Leaf(Ram, CategoryCode, code)]
      + (if code == OutsideScope then [Leaf(Ram, ExemptionReasonCode, ExemptionReason)] else [])
      + [Leaf(Ram, RateApplicablePercent, AmountText(Value(rate), 2))])
  }

  /** One IncludedSupplyChainTradeLineItem; lineId counts from 1. */
  function LineXml(lineId: nat, item: LineItem, smallBusiness: bool): Element
  {
    Node(Ram, IncludedSupplyChainTradeLineItem, [
      Node(Ram, AssociatedDocumentLineDocument, [Leaf(Ram, LineID, NatToDigits(lineId))]),
      Node(Ram, SpecifiedTradeProduct, [Leaf(Ram, Name, item.description.GetOr("Beschreibung"))]),
      LineDeliveryXml(item),
      LineSettlementXml(item, smallBusiness),
      LineAgreementXml(item)])
  }

  function LineDeliveryXml(item: LineItem): Element
  {
    Node(Ram, SpecifiedLineTradeDelivery, [
      Element(Ram, BilledQuantity, [("unitCode", UnitCode)], Some(AmountText(Value(ReadNumber(item.quantity)), 4)), [])])
  }

  function LineSettlementXml(item: LineItem, smallBusiness: bool): Element
  {
    Node(Ram, SpecifiedLineTradeSettlement, [
      LineTaxXml(EffectiveRate(item, smallBusiness)),
      Node(Ram, SpecifiedTradeSettlementLineMonetarySummation, [
        Leaf(Ram, LineTotalAmount, LineTotalText(LineNet(item)))])])
  }

  function LineAgreementXml(item: LineItem): Element
  {
    Node(Ram, SpecifiedLineTradeAgreement, [
      Node(Ram, NetPriceProductTradePrice, [Leaf(Ram, ChargeAmount, AmountText(Value(ReadNumber(item.unitPrice)), 4))])])
  }

  /** The line items of `items`, numbered from `first`. */
  function LinesXml(items: seq<LineItem>, smallBusiness: bool): (lines: seq<Element>)
    ensures |lines| == |items|
  {
    seq(|items|, i requires 0 <= i < |items| => LineXml(i + 1, items[i], smallBusiness))
  }

  function AddressXml(zip: string, line: string, city: string): Element
  {
    Node(Ram, PostalTradeAddress, [
      Leaf(Ram, PostcodeCode, zip), Leaf(Ram, LineOne, line),
      Leaf(Ram, CityName, city), Leaf(Ram, CountryID, Country)])
  }

  /** A seller tax registration: scheme "FC" for the tax number, "VA" for the VAT identifier. */
  function RegistrationXml(scheme: string, id: string): Element
  {
    Node(Ram, SpecifiedTaxRegistration, [Element(Ram, ID, [("schemeID", scheme)], Some(id), [])])
  }

  function SellerXml(form: Form): Element
  {
    Node(Ram, SellerTradeParty,
      [Leaf(Ram, Name, Get(form, "sender_name", "Verkaeufer")),
       AddressXml(Get(form, "sender_zip", ""), Get(form, "sender_address", ""), Get(form, "sender_city", ""))]
      + OptionalRegistration(form, "sender_tax_id", "FC")
      + OptionalRegistration(form, "sender_vat_id", "VA"))
  }

  /** A registration under `scheme` when the field `key` is filled in, nothing otherwise. */
  function OptionalRegistration(form: Form, key: string, scheme: string): seq<Element>
  {
    if Filled(form, key) then [RegistrationXml(scheme, form[key])] else []
  }

  function BuyerXml(form: Form): Element
  {
    Node(Ram, BuyerTradeParty,
      (if Filled(form, "leitweg_id") then [Leaf(Ram, BuyerReference, form["leitweg_id"])] else [])
      + [Leaf(Ram, Name, Get(form, "receiver_name", "Kunde")),
         AddressXml(Get(form, "receiver_zip", ""), Get(form, "receiver_address", ""), Get(form, "receiver_city", ""))])
  }

  function AgreementXml(form: Form): Element
  {
    Node(Ram, ApplicableHeaderTradeAgreement, [SellerXml(form), BuyerXml(form)])
  }

  function PaymentMeansXml(iban: string): Element
  {
    Node(Ram, SpecifiedTradeSettlementPaymentMeans, [
      Leaf(Ram, TypeCode, CreditTransfer),
      Node(Ram, PayeePartyCreditorFinancialAccount, [Leaf(Ram, IBANID, iban)])])
  }

  /** One header ApplicableTradeTax for a VAT bucket. */
  function HeaderTaxXml(b: Bucket): Element
  {
    var code := HeaderCategory(b.rate);
    Node(Ram, ApplicableTradeTax,
      [Leaf(Ram, CalculatedAmount, AmountText(b.vat, 2)),
       Leaf(Ram, TypeCode, "VAT"),
       Leaf(Ram, BasisAmount, AmountText(b.basis, 2)),
       Leaf(Ram, CategoryCode, code)]
      + (if code == OutsideScope then [Leaf(Ram, ExemptionReasonCode, ExemptionReason)] else [])
      + [Leaf(Ram, RateApplicablePercent, AmountText(Value(b.rate), 2))])
  }

  function HeaderTaxesXml(summary: seq<Bucket>): (taxes: seq<Element>)
    ensures |taxes| == |summary|
  {
    seq(|summary|, k requires 0 <= k < |summary| => HeaderTaxXml(summary[k]))
  }

  function SummationXml(t: Totals): Element
  {
    SummationOf(AmountText(t.net, 2), AmountText(t.vat, 2), AmountText(t.gross, 2))
  }

  /** The header monetary summation for given net, VAT and gross texts. */
  function SummationOf(net: string, vat: string, gross: string): Element
  {
    Node(Ram, SpecifiedTradeSettlementHeaderMonetarySummation, [
      Leaf(Ram, LineTotalAmount, net),
      Leaf(Ram, TaxBasisTotalAmount, net),
      Element(Ram, TaxTotalAmount, [("currencyID", Currency)], Some(vat), []),
      Leaf(Ram, GrandTotalAmount, gross),
      Leaf(Ram, DuePayableAmount, gross)])
  }

  /** The settlement's children before the tax buckets: currency, then payment means when an IBAN is given. */
  function SettlementHead(form: Form): seq<Element>
  {
    [Leaf(Ram, InvoiceCurrencyCode, Currency)]
    + (if Filled(form, "sender_iban") then [PaymentMeansXml(form["sender_iban"])] else [])
  }

  function SettlementXml(form: Form, t: Totals): Element
  {
    Node(Ram, ApplicableHeaderTradeSettlement, SettlementHead(form) + HeaderTaxesXml(t.summary) + [SummationXml(t)])
  }

  function TransactionXml(form: Form, items: seq<LineItem>, t: Totals): Element
  {
    Node(Rsm, SupplyChainTradeTransaction,
      LinesXml(items, SmallBusiness(form)) + [AgreementXml(form), SettlementXml(form, t)])
  }

  /** The whole document, or the error the generator raises. */
  function ZugferdXml(form: Form, items: seq<LineItem>, today: Date, uuidHex: string): Result<Element, XmlError>
    requires ValidDate(today)
  {
    match ParseIsoDate(InvoiceDateText(form, today))
    case None => Err(BadInvoiceDate)
    case Some(date) => InvoiceXml(form, items, date, uuidHex, TotalsOf(items, SmallBusiness(form)))
  }

  /** The document for a parsed invoice date and the computed totals. */
  function InvoiceXml(form: Form, items: seq<LineItem>, date: Date, uuidHex: string, t: Totals): Result<Element, XmlError>
    requires ValidDate(date)
  {
    if t.summary == [] then Err(VatTotalNotDecimal)
    else Ok(Node(Rsm, CrossIndustryInvoice, [
      ContextXml(), DocumentXml(InvoiceId(form, uuidHex), date), TransactionXml(form, items, t)]))
  }

  lemma HeaderTaxesSnoc(summary: seq<Bucket>, k: nat)
    requires k < |summary|
    ensures HeaderTaxesXml(summary[..k + 1]) == HeaderTaxesXml(summary[..k]) + [HeaderTaxXml(summary[k])]
  {
    var longer := HeaderTaxesXml(summary[..k + 1]);
    var shorter := HeaderTaxesXml(summary[..k]);
    forall j | 0 <= j < k
      ensures longer[j] == shorter[j]
    {
      assert summary[..k + 1][j] == summary[..k][j];
    }
  }

  lemma LinesStep(items: seq<LineItem>, smallBusiness: bool, i: nat)
    requires i < |items|
    ensures LinesXml(items, smallBusiness)[..i + 1] == LinesXml(items, smallBusiness)[..i] + [LineXml(i + 1, items[i], smallBusiness)]
  {
    var all := LinesXml(items, smallBusiness);
    PrefixStep(all, i);
    assert all[i] == LineXml(i + 1, items[i], smallBusiness);
  }

  lemma PrefixStep<T>(s: seq<T>, i: nat)
    requires i < |s|
    ensures s[..i + 1] == s[..i] + [s[i]]
  {
  }

  /** The loop over the items: one IncludedSupplyChainTradeLineItem each, numbered from 1, in input order. */
  method AppendLines(items: seq<LineItem>, smallBusiness: bool) returns (lines: seq<Element>)
    ensures lines == LinesXml(items, smallBusiness)
  {
    lines := [];
    var i := 0;
    while i < |items|
      invariant 0 <= i <= |items|
      invariant lines == LinesXml(items, smallBusiness)[..i]
    {
      LinesStep(items, smallBusiness, i);
      lines := lines + [LineXml(i + 1, items[i], smallBusiness)];
      i := i + 1;
    }
    assert LinesXml(items, smallBusiness)[..i] == LinesXml(items, smallBusiness);
  }

  /** The seller and buyer parties, with the optional registrations and buyer reference. */
  method BuildAgreement(form: Form) returns (agreement: Element)
    ensures agreement == AgreementXml(form)
  {
    var seller := [Leaf(Ram, Name, Get(form, "sender_name", "Verkaeufer")),
                   AddressXml(Get(form, "sender_zip", ""), Get(form, "sender_address", ""), Get(form, "sender_city", ""))];
    ghost var base := seller;
    var taxNumber: seq<Element> := [];
    if Filled(form, "sender_tax_id") {
      taxNumber := [RegistrationXml("FC", form["sender_tax_id"])];
    }
    seller := seller + taxNumber;
    var vatId: seq<Element> := [];
    if Filled(form, "sender_vat_id") {
      vatId := [RegistrationXml("VA", form["sender_vat_id"])];
    }
    seller := seller + vatId;
    var buyer: seq<Element> := [];
    if Filled(form, "leitweg_id") {
      buyer := buyer + [Leaf(Ram, BuyerReference, form["leitweg_id"])];
    }
    buyer := buyer + [Leaf(Ram, Name, Get(form, "receiver_name", "Kunde")),
                      AddressXml(Get(form, "receiver_zip", ""), Get(form, "receiver_address", ""), Get(form, "receiver_city", ""))];
    assert Node(Ram, SellerTradeParty, seller) == SellerXml(form);
    assert Node(Ram, BuyerTradeParty, buyer) == BuyerXml(form);
    agreement := Node(Ram, ApplicableHeaderTradeAgreement,
                      [Node(Ram, SellerTradeParty, seller), Node(Ram, BuyerTradeParty, buyer)]);
  }

  /** The loop over the VAT buckets, in the order their rates first appeared. */
  method AppendHeaderTaxes(settlement: seq<Element>, summary: seq<Bucket>) returns (grown: seq<Element>)
    ensures grown == settlement + HeaderTaxesXml(summary)
  {
    grown := settlement;
    var k := 0;
    while k < |summary|
      invariant 0 <= k <= |summary|
      invariant grown == settlement + HeaderTaxesXml(summary[..k])
    {
      HeaderTaxesSnoc(summary, k);
      grown := grown + [HeaderTaxXml(summary[k])];
      k := k + 1;
    }
    assert summary[..k] == summary;
  }

  /** The header settlement; summing the VAT of no buckets leaves an int, whose quantize raises. */
  method BuildSettlement(form: Form, totals: Totals) returns (r: Result<Element, XmlError>)
    ensures totals.summary == [] ==> r == Err(VatTotalNotDecimal)
    ensures totals.summary != [] ==> r == Ok(SettlementXml(form, totals))
  {
    var settlement := [Leaf(Ram, InvoiceCurrencyCode, Currency)];
    if Filled(form, "sender_iban") {
      settlement := settlement + [PaymentMeansXml(form["sender_iban"])];
    }
    assert settlement == SettlementHead(form);
    settlement := AppendHeaderTaxes(settlement, totals.summary);
    if totals.summary == [] {
      return Err(VatTotalNotDecimal);
    }
    settlement := settlement + [SummationXml(totals)];
    r := Ok(Node(Ram, ApplicableHeaderTradeSettlement, settlement));
  }

  /**
   * _generate_zugferd_xml: the tree is grown child by child, the line items
   * and the header tax buckets in loops; the clock and the UUID are parameters.
   */
  method GenerateZugferdXml(form: Form, items: seq<LineItem>, today: Date, uuidHex: string)
    returns (r: Result<Element, XmlError>)
    requires ValidDate(today)
    ensures r == ZugferdXml(form, items, today, uuidHex)
  {
    var parsed := ParseIsoDate(InvoiceDateText(form, today));
    if parsed.None? {
      return Err(BadInvoiceDate);
    }
    var date := parsed.value;
    var smallBusiness := SmallBusiness(form);
    var totals := CalculateTotals(items, smallBusiness);
    var context := ContextXml();
    var document := DocumentXml(InvoiceId(form, uuidHex), date);
    var lines := AppendLines(items, smallBusiness);
    var agreement := BuildAgreement(form);
    var settlement := BuildSettlement(form, totals);
    if settlement.Err? {
      return Err(settlement.error);
    }
    var transaction := Node(Rsm, SupplyChainTradeTransaction, lines + [agreement, settlement.value]);
    r := Ok(Node(Rsm, CrossIndustryInvoice, [context, document, transaction]));
  }
}
