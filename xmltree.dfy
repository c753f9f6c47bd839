/**
 * An XML element tree as ElementTree builds it: a qualified name, attributes
 * in insertion order, optional text and child elements in insertion order.
 */
module XmlTree {
  import opened Wrappers

  /** The three namespaces of the Cross Industry Invoice. */
  datatype Namespace = Rsm | Ram | Udt

  /** ElementTree's qualified tag: the namespace URI in braces, then the local name. */
  function QualifiedName(e: Element): string
  {
    "{" + NamespaceUri(e.ns) + "}" + LocalName(e.name)
  }

  function NamespaceUri(ns: Namespace): string
  {
    match ns
    case Rsm => "urn:un:unece:uncefact:data:standard:CrossIndustryInvoice:100"
    case Ram => "urn:un:unece:uncefact:data:standard:ReusableAggregateBusinessInformationEntity:100"
    case Udt => "urn:un:unece:uncefact:data:standard:UnqualifiedDataType:100"
  }

  /** The local names of the elements the invoice generator creates. */
  datatype Tag =
    | CrossIndustryInvoice
    | ExchangedDocumentContext
    | GuidelineSpecifiedDocumentContextParameter
    | ID
    | ExchangedDocument
    | TypeCode
    | IssueDateTime
    | DateTimeString
    | SupplyChainTradeTransaction
    | IncludedSupplyChainTradeLineItem
    | AssociatedDocumentLineDocument
    | LineID
    | SpecifiedTradeProduct
    | Name
    | SpecifiedLineTradeDelivery
    | BilledQuantity
    | SpecifiedLineTradeSettlement
    | ApplicableTradeTax
    | CategoryCode
    | ExemptionReasonCode
    | RateApplicablePercent
    | SpecifiedTradeSettlementLineMonetarySummation
    | LineTotalAmount
    | SpecifiedLineTradeAgreement
    | NetPriceProductTradePrice
    | ChargeAmount
    | ApplicableHeaderTradeAgreement
    | SellerTradeParty
    | PostalTradeAddress
    | PostcodeCode
    | LineOne
    | CityName
    | CountryID
    | SpecifiedTaxRegistration
    | BuyerTradeParty
    | BuyerReference
    | ApplicableHeaderTradeSettlement
    | InvoiceCurrencyCode
    | SpecifiedTradeSettlementPaymentMeans
    | PayeePartyCreditorFinancialAccount
    | IBANID
    | CalculatedAmount
    | BasisAmount
    | SpecifiedTradeSettlementHeaderMonetarySummation
    | TaxBasisTotalAmount
    | TaxTotalAmount
    | GrandTotalAmount
    | DuePayableAmount

  /** The local name ElementTree writes for a tag. */
  function LocalName(t: Tag): string
  {
    match t
    case CrossIndustryInvoice => "CrossIndustryInvoice"
    case ExchangedDocumentContext => "ExchangedDocumentContext"
    case GuidelineSpecifiedDocumentContextParameter => "GuidelineSpecifiedDocumentContextParameter"
    case ID => "ID"
    case ExchangedDocument => "ExchangedDocument"
    case TypeCode => "TypeCode"
    case IssueDateTime => "IssueDateTime"
    case DateTimeString => "DateTimeString"
    case SupplyChainTradeTransaction => "SupplyChainTradeTransaction"
    case IncludedSupplyChainTradeLineItem => "IncludedSupplyChainTradeLineItem"
    case AssociatedDocumentLineDocument => "AssociatedDocumentLineDocument"
    case LineID => "LineID"
    case SpecifiedTradeProduct => "SpecifiedTradeProduct"
    case Name => "Name"
    case SpecifiedLineTradeDelivery => "SpecifiedLineTradeDelivery"
    case BilledQuantity => "BilledQuantity"
    case SpecifiedLineTradeSettlement => "SpecifiedLineTradeSettlement"
    case ApplicableTradeTax => "ApplicableTradeTax"
    case CategoryCode => "CategoryCode"
    case ExemptionReasonCode => "ExemptionReasonCode"
    case RateApplicablePercent => "RateApplicablePercent"
    case SpecifiedTradeSettlementLineMonetarySummation => "SpecifiedTradeSettlementLineMonetarySummation"
    case LineTotalAmount => "LineTotalAmount"
    case SpecifiedLineTradeAgreement => "SpecifiedLineTradeAgreement"
    case NetPriceProductTradePrice => "NetPriceProductTradePrice"
    case ChargeAmount => "ChargeAmount"
    case ApplicableHeaderTradeAgreement => "ApplicableHeaderTradeAgreement"
    case SellerTradeParty => "SellerTradeParty"
    case PostalTradeAddress => "PostalTradeAddress"
    case PostcodeCode => "PostcodeCode"
    case LineOne => "LineOne"
    case CityName => "CityName"
    case CountryID => "CountryID"
    case SpecifiedTaxRegistration => "SpecifiedTaxRegistration"
    case BuyerTradeParty => "BuyerTradeParty"
    case BuyerReference => "BuyerReference"
    case ApplicableHeaderTradeSettlement => "ApplicableHeaderTradeSettlement"
    case InvoiceCurrencyCode => "InvoiceCurrencyCode"
    case SpecifiedTradeSettlementPaymentMeans => "SpecifiedTradeSettlementPaymentMeans"
    case PayeePartyCreditorFinancialAccount => "PayeePartyCreditorFinancialAccount"
    case IBANID => "IBANID"
    case CalculatedAmount => "CalculatedAmount"
    case BasisAmount => "BasisAmount"
    case SpecifiedTradeSettlementHeaderMonetarySummation => "SpecifiedTradeSettlementHeaderMonetarySummation"
    case TaxBasisTotalAmount => "TaxBasisTotalAmount"
    case TaxTotalAmount => "TaxTotalAmount"
    case GrandTotalAmount => "GrandTotalAmount"
    case DuePayableAmount => "DuePayableAmount"
  }

  datatype Element = Element(
    ns: Namespace,
    name: Tag,
    attrs: seq<(string, string)>,
    text: Option<string>,
    children: seq<Element>)

  /** An element holding only text. */
  function Leaf(ns: Namespace, name: Tag, text: string): Element
  {
    Element(ns, name, [], Some(text), [])
  }

  /** An element holding only children. */
  function Node(ns: Namespace, name: Tag, children: seq<Element>): Element
  {
    Element(ns, name, [], None, children)
  }

  /** Position of the first child with local name `name`, or |children| when there is none. */
  function ChildIndex(children: seq<Element>, name: Tag): (k: nat)
    ensures k <= |children|
    ensures k < |children| ==> children[k].name == name
  {
    if children == [] then 0
    else if children[0].name == name then 0
    else 1 + ChildIndex(children[1..], name)
  }

  /** The first child named `name` (ElementTree's find with a plain tag). */
  function Child(e: Element, name: Tag): Option<Element>
  {
    var k := ChildIndex(e.children, name);
    if k < |e.children| then Some(e.children[k]) else None
  }

  predicate HasChild(e: Element, name: Tag)
  {
    Child(e, name).Some?
  }

  /** The element at a path of local names, following the first match at each step. */
  function Find(e: Element, path: seq<Tag>): Option<Element>
    decreases |path|
  {
    if path == [] then Some(e)
    else match Child(e, path[0])
      case None => None
      case Some(c) => Find(c, path[1..])
  }

  /** The text at a path, None when the path or the text is missing. */
  function TextAt(e: Element, path: seq<Tag>): Option<string>
  {
    match Find(e, path)
    case None => None
    case Some(c) => c.text
  }

  /** How many of the children have local name `name`. */
  function CountNamed(children: seq<Element>, name: Tag): nat
  {
    if children == [] then 0
    else CountNamed(children[..|children| - 1], name) + (if children[|children| - 1].name == name then 1 else 0)
  }

  /** No child before the one found has the name searched for. */
  lemma {:induction false} ChildIndexFirst(children: seq<Element>, name: Tag)
    ensures forall j :: 0 <= j < ChildIndex(children, name) ==> children[j].name != name
  {
    if children != [] && children[0].name != name {
      ChildIndexFirst(children[1..], name);
      assert forall j :: 1 <= j < ChildIndex(children, name) ==> children[j] == children[1..][j - 1];
    }
  }

  /** A child is absent when no child carries its name. */
  lemma NoChild(e: Element, name: Tag)
    requires forall j :: 0 <= j < |e.children| ==> e.children[j].name != name
    ensures !HasChild(e, name)
  {
  }

  /** Children that do not match are skipped by the search. */
  lemma {:induction false} ChildIndexSkip(a: seq<Element>, b: seq<Element>, name: Tag)
    requires forall j :: 0 <= j < |a| ==> a[j].name != name
    ensures ChildIndex(a + b, name) == |a| + ChildIndex(b, name)
  {
    if a == [] {
      assert a + b == b;
    } else {
      assert (a + b)[0] == a[0];
      assert (a + b)[1..] == a[1..] + b;
      ChildIndexSkip(a[1..], b, name);
    }
  }

  lemma {:induction false} CountNamedConcat(a: seq<Element>, b: seq<Element>, name: Tag)
    ensures CountNamed(a + b, name) == CountNamed(a, name) + CountNamed(b, name)
    decreases |b|
  {
    if b == [] {
      assert a + b == a;
    } else {
      assert (a + b)[..|a + b| - 1] == a + b[..|b| - 1];
      CountNamedConcat(a, b[..|b| - 1], name);
    }
  }

  /** Children that all carry the name count fully; children that never do count zero. */
  lemma {:induction false} CountNamedUniform(a: seq<Element>, name: Tag)
    ensures (forall j :: 0 <= j < |a| ==> a[j].name == name) ==> CountNamed(a, name) == |a|
    ensures (forall j :: 0 <= j < |a| ==> a[j].name != name) ==> CountNamed(a, name) == 0
  {
    if a != [] {
      CountNamedUniform(a[..|a| - 1], name);
    }
  }

  /** Appending children of other names does not change the count. */
  lemma CountNamedAppendOthers(a: seq<Element>, b: seq<Element>, name: Tag)
    requires forall j :: 0 <= j < |b| ==> b[j].name != name
    ensures CountNamed(a + b, name) == CountNamed(a, name)
  {
    CountNamedUniform(b, name);
    CountNamedConcat(a, b, name);
  }

  /** The k-th child is the one found by its name when no earlier child has that name. */
  lemma ChildAt(e: Element, k: nat)
    requires k < |e.children|
    requires forall j :: 0 <= j < k ==> e.children[j].name != e.children[k].name
    ensures Child(e, e.children[k].name) == Some(e.children[k])
  {
    ChildIndexFirst(e.children, e.children[k].name);
  }

  /** A path is followed one name at a time. */
  lemma TextAtStep(e: Element, path: seq<Tag>)
    requires path != [] && HasChild(e, path[0])
    ensures TextAt(e, path) == TextAt(Child(e, path[0]).value, path[1..])
  {
  }

  lemma TextAtHere(e: Element)
    ensures TextAt(e, []) == e.text
  {
  }

  /** No child before position k has the name of the child at k. */
  predicate FirstOfName(children: seq<Element>, k: nat)
    requires k < |children|
  {
    forall j :: 0 <= j < k ==> children[j].name != children[k].name
  }

  /** The text under the first child named n, found at position i. */
  lemma TextAt1(e: Element, i: nat, n: Tag, text: Option<string>)
    requires i < |e.children| && FirstOfName(e.children, i)
    requires e.children[i].name == n && e.children[i].text == text
    ensures TextAt(e, [n]) == text
  {
    ChildAt(e, i);
    TextAtStep(e, [n]);
    assert [n][1..] == [];
  }

  /** The text two levels down, through the children at positions i and then j. */
  lemma TextAt2(e: Element, i: nat, j: nat, n1: Tag, n2: Tag, text: Option<string>)
    requires i < |e.children| && FirstOfName(e.children, i) && e.children[i].name == n1
    requires j < |e.children[i].children| && FirstOfName(e.children[i].children, j)
    requires e.children[i].children[j].name == n2 && e.children[i].children[j].text == text
    ensures TextAt(e, [n1, n2]) == text
  {
    var c := e.children[i];
    ChildAt(e, i);
    TextAtStep(e, [n1, n2]);
    assert [n1, n2][1..] == [n2];
    TextAt1(c, j, n2, text);
  }

  /** The text three levels down, through the children at positions i, j and k. */
  lemma TextAt3(e: Element, i: nat, j: nat, k: nat, n1: Tag, n2: Tag, n3: Tag, text: Option<string>)
    requires i < |e.children| && FirstOfName(e.children, i) && e.children[i].name == n1
    requires j < |e.children[i].children| && FirstOfName(e.children[i].children, j)
    requires e.children[i].children[j].name == n2
    requires k < |e.children[i].children[j].children| && FirstOfName(e.children[i].children[j].children, k)
    requires e.children[i].children[j].children[k].name == n3 && e.children[i].children[j].children[k].text == text
    ensures TextAt(e, [n1, n2, n3]) == text
  {
    var c := e.children[i];
    ChildAt(e, i);
    TextAtStep(e, [n1, n2, n3]);
    assert [n1, n2, n3][1..] == [n2, n3];
    TextAt2(c, j, k, n2, n3, text);
  }

  /** Following the name of the child at position i, when it is the first of its name, finds it. */
  lemma FindAt(e: Element, i: nat)
    requires i < |e.children| && FirstOfName(e.children, i)
    ensures Find(e, [e.children[i].name]) == Some(e.children[i])
  {
    ChildAt(e, i);
    assert [e.children[i].name][1..] == [];
  }

  /** Two levels down, through children that are each the first of their name. */
  lemma FindAt2(e: Element, i: nat, j: nat)
    requires i < |e.children| && FirstOfName(e.children, i)
    requires j < |e.children[i].children| && FirstOfName(e.children[i].children, j)
    ensures Find(e, [e.children[i].name, e.children[i].children[j].name]) == Some(e.children[i].children[j])
  {
    var c := e.children[i];
    FindAt(e, i);
    FindAt(c, j);
    FindConcat(e, [c.name], [c.children[j].name]);
    assert [c.name] + [c.children[j].name] == [c.name, c.children[j].name];
  }

  /** A path through the first child named n continues from that child. */
  lemma TextAtVia(e: Element, i: nat, n: Tag, rest: seq<Tag>)
    requires i < |e.children| && FirstOfName(e.children, i) && e.children[i].name == n
    ensures TextAt(e, [n] + rest) == TextAt(e.children[i], rest)
  {
    ChildAt(e, i);
    TextAtStep(e, [n] + rest);
    assert ([n] + rest)[1..] == rest;
  }

  /** A three-step path through the first child named n continues from that child. */
  lemma TextAtVia2(e: Element, i: nat, n: Tag, n2: Tag, n3: Tag)
    requires i < |e.children| && FirstOfName(e.children, i) && e.children[i].name == n
    ensures TextAt(e, [n, n2, n3]) == TextAt(e.children[i], [n2, n3])
  {
    TextAtVia(e, i, n, [n2, n3]);
    assert [n] + [n2, n3] == [n, n2, n3];
  }

  /** The first child named n, found at position i. */
  lemma FindChild(e: Element, i: nat, n: Tag, c: Element)
    requires i < |e.children| && FirstOfName(e.children, i)
    requires e.children[i].name == n && e.children[i] == c
    ensures Find(e, [n]) == Some(c)
  {
    ChildAt(e, i);
    assert [n][1..] == [];
  }

  /** Following p and then q is following p + q. */
  lemma {:induction false} FindConcat(e: Element, p: seq<Tag>, q: seq<Tag>)
    ensures Find(e, p + q) == (match Find(e, p) case None => None case Some(c) => Find(c, q))
    decreases |p|
  {
    if p == [] {
      assert p + q == q;
    } else {
      assert (p + q)[0] == p[0];
      assert (p + q)[1..] == p[1..] + q;
      match Child(e, p[0])
      case None =>
      case Some(c) => FindConcat(c, p[1..], q);
    }
  }
}
