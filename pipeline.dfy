/**
 * generate_invoice_pdf: the visual invoice (item table and footer), the
 * Cross Industry Invoice tree, and the PDF/A-3 assembly that embeds the tree.
 * The main claim is that the totals printed in the table and the totals in
 * the embedded document are the same numbers, because both come from the
 * totals engine run on the same items with the same small-business flag.
 */
module InvoicePipeline {
  import opened Wrappers
  import opened Forms
  import opened Dates
  import opened InvoiceTotals
  import opened Amounts
  import opened Text
  import opened XmlTree
  import opened Zugferd
  import opened ZugferdProperties
  import opened InvoiceLayout
  import opened InvoiceFooter
  import Pdf = PdfAssembly

  /** What generate_invoice_pdf produces: the table and footer it draws, and the assembled PDF/A-3 writer. */
  datatype Invoice = Invoice(table: seq<Row>, notes: string, details: string, pdf: Pdf.PdfWriter)

  /** The XMP packet of _make_pdfa_compliant: title from invoice_number, creator from sender_name. */
  function XmpOf(form: Form): Pdf.Payload
  {
    Pdf.XmpPacket(Get(form, "invoice_number", ""), Get(form, "sender_name", ""))
  }

  /**
   * Step 1 draws the table and the footer onto `pages` (the rendering itself is
   * a parameter), step 2 builds the tree and may raise, step 3 copies the pages
   * into a new PDF/A-3 writer with the tree embedded. `today`, `uuidHex`, `icc`
   * and `stamp` stand for the clock, the UUID, the ICC file and the ModDate clock.
   */
  method GenerateInvoicePdf(form: Form, items: seq<LineItem>, pages: seq<Pdf.PdfValue>, today: Date,
                            uuidHex: string, icc: Option<seq<bv8>>, stamp: string)
    returns (r: Result<Invoice, XmlError>)
    requires ValidDate(today)
    ensures ZugferdXml(form, items, today, uuidHex).Err? ==> r == Err(ZugferdXml(form, items, today, uuidHex).error)
    ensures r.Ok? ==> ZugferdXml(form, items, today, uuidHex).Ok?
    ensures r.Ok? ==> r.value.table == ItemTable(items, SmallBusiness(form))
    ensures r.Ok? ==> r.value.notes == Join(LineBreak, NotesLines(form))
    ensures r.Ok? ==> r.value.details == Join(LineBreak, DetailLines(form))
    ensures r.Ok? ==> fresh(r.value.pdf) && r.value.pdf.pages == pages
    ensures r.Ok? ==> r.value.pdf.objects == Pdf.CompliantObjects(Pdf.XmlDocument(ZugferdXml(form, items, today, uuidHex).value),
                                                                   XmpOf(form), icc, stamp)
    ensures r.Ok? ==> r.value.pdf.root == Pdf.CompliantCatalog(icc.Some?)
  {
    // The tree is built first here: drawing the table and the footer changes
    // nothing the tree depends on, so the result is the same as drawing first.
    var xml := GenerateZugferdXml(form, items, today, uuidHex);
    if xml.Err? {
      return Err(xml.error);
    }
    var table := BuildItemTable(form, items);
    var notes, details := BuildFooter(form);
    var w := Pdf.MakePdfaCompliant(pages, Pdf.XmlDocument(xml.value), XmpOf(form), icc, stamp);
    r := Ok(Invoice(table, notes, details, w));
  }

  // ---------------------------------------------------------------------------
  // The table and the embedded document agree.
  // ---------------------------------------------------------------------------

  /** Paths to an amount of the header monetary summation: from the settlement, the transaction and the root. */
  function AmountPath(amount: Tag): seq<Tag>
  {
    [SpecifiedTradeSettlementHeaderMonetarySummation] + [amount]
  }

  function SettlementPath(amount: Tag): seq<Tag>
  {
    [ApplicableHeaderTradeSettlement] + AmountPath(amount)
  }

  function SummationPath(amount: Tag): seq<Tag>
  {
    [SupplyChainTradeTransaction] + SettlementPath(amount)
  }

  /** In the transaction, the settlement follows the line items and the agreement, and holds the summation. */
  lemma TransactionSummation(form: Form, items: seq<LineItem>, t: Totals, amount: Tag)
    ensures TextAt(TransactionXml(form, items, t), SettlementPath(amount)) == TextAt(SummationXml(t), [amount])
  {
    var e := TransactionXml(form, items, t);
    TransactionLines(form, items, t);
    forall j | 0 <= j < |items|
      ensures e.children[j].name == IncludedSupplyChainTradeLineItem
    {
      assert e.children[j] == LineXml(j + 1, items[j], SmallBusiness(form));
    }
    SettlementSummation(form, t);
    SettlementAmount(e, |items|, SettlementXml(form, t), SummationXml(t), amount);
  }

  /** Past line items and one other child, the settlement's summation is where the path leads. */
  lemma SettlementAmount(e: Element, n: nat, s: Element, summation: Element, amount: Tag)
    requires |e.children| == n + 2 && e.children[n + 1] == s && s.name == ApplicableHeaderTradeSettlement
    requires e.children[n].name != ApplicableHeaderTradeSettlement
    requires forall j :: 0 <= j < n ==> e.children[j].name == IncludedSupplyChainTradeLineItem
    requires Find(s, [SpecifiedTradeSettlementHeaderMonetarySummation]) == Some(summation)
    ensures TextAt(e, SettlementPath(amount)) == TextAt(summation, [amount])
  {
    TextAtVia(e, n + 1, ApplicableHeaderTradeSettlement, AmountPath(amount));
    FindConcat(s, [SpecifiedTradeSettlementHeaderMonetarySummation], [amount]);
  }

  /** An amount of the generated document's summation is the one computed from the items' totals. */
  lemma DocumentSummation(form: Form, items: seq<LineItem>, today: Date, uuidHex: string, amount: Tag)
    requires ValidDate(today)
    ensures var r := ZugferdXml(form, items, today, uuidHex);
            r.Ok? ==>
              TextAt(r.value, SummationPath(amount)) == TextAt(SummationXml(TotalsOf(items, SmallBusiness(form))), [amount])
  {
    var r := ZugferdXml(form, items, today, uuidHex);
    if r.Ok? {
      var t := TotalsOf(items, SmallBusiness(form));
      var date := ParseIsoDate(InvoiceDateText(form, today)).value;
      DocumentOfParsedDate(form, items, today, uuidHex);
      DocumentShape(form, items, date, uuidHex, t);
      TransactionSummation(form, items, t, amount);
      RootAmount(r.value, TransactionXml(form, items, t), amount);
    }
  }

  /** The transaction is the root's third child, after the context and the document header. */
  lemma RootAmount(root: Element, transaction: Element, amount: Tag)
    requires |root.children| == 3 && root.children[2] == transaction
    requires root.children[0].name == ExchangedDocumentContext && root.children[1].name == ExchangedDocument
    requires transaction.name == SupplyChainTradeTransaction
    ensures TextAt(root, SummationPath(amount)) == TextAt(transaction, SettlementPath(amount))
  {
    TextAtVia(root, 2, SupplyChainTradeTransaction, SettlementPath(amount));
  }

  /**
   * The invoice's visible totals are the embedded ones: the bold Gesamt cell
   * of the table shows the gross whose German notation, with the separators
   * undone, is the document's GrandTotalAmount, and the Netto cell shows the
   * net whose notation is its LineTotalAmount.
   */
  lemma TotalsAgree(form: Form, items: seq<LineItem>, today: Date, uuidHex: string)
    requires ValidDate(today)
    ensures var r := ZugferdXml(form, items, today, uuidHex);
            var t := TotalsOf(items, SmallBusiness(form));
            var rows := ItemTable(items, SmallBusiness(form));
            r.Ok? ==>
              rows[|rows| - 1][3] == BoldMoney(t.gross) &&
              TextAt(r.value, SummationPath(GrandTotalAmount)) == Some(Delocalize(FormatCurrency(t.gross))) &&
              rows[|items| + 1][3] == Money(t.net) &&
              TextAt(r.value, SummationPath(LineTotalAmount)) == Some(Delocalize(FormatCurrency(t.net)))
  {
    var sb := SmallBusiness(form);
    var t := TotalsOf(items, sb);
    TableEndsWithGesamt(items, sb);
    TableItems(items, sb);
    DocumentSummation(form, items, today, uuidHex, GrandTotalAmount);
    DocumentSummation(form, items, today, uuidHex, LineTotalAmount);
    SummationGrandTotal(AmountText(t.net, 2), AmountText(t.vat, 2), AmountText(t.gross, 2));
    SummationNet(AmountText(t.net, 2), AmountText(t.vat, 2), AmountText(t.gross, 2));
    DelocalizedCurrency(t.gross);
    DelocalizedCurrency(t.net);
  }

  /**
   * Every VAT row of a regular invoice's table is one of the document's header
   * tax buckets: the row's VAT amount, delocalized, is that bucket's
   * CalculatedAmount. The bucket's position among the header taxes is returned.
   */
  lemma VatRowAgrees(form: Form, items: seq<LineItem>, today: Date, uuidHex: string, k: nat) returns (j: nat)
    requires ValidDate(today) && !SmallBusiness(form)
    requires ZugferdXml(form, items, today, uuidHex).Ok?
    requires k < |VatShown(SortByRate(TotalsOf(items, false).summary))|
    ensures var t := TotalsOf(items, false);
            var b := VatShown(SortByRate(t.summary))[k];
            var settlement := ZugferdXml(form, items, today, uuidHex).value.children[2].children[|items| + 1];
            ItemTable(items, false)[|items| + 2 + k] == VatRow(b) &&
            j < |t.summary| && settlement == SettlementXml(form, t) &&
            settlement.children[|SettlementHead(form)| + j] == HeaderTaxXml(b) &&
            TextAt(HeaderTaxXml(b), [CalculatedAmount]) == Some(Delocalize(FormatCurrency(b.vat)))
  {
    var t := TotalsOf(items, false);
    var shown := VatShown(SortByRate(t.summary));
    var b := shown[k];
    TableVatRows(items);
    VatRowsAscending(items);
    assert b in shown;
    j :| 0 <= j < |t.summary| && t.summary[j] == b;
    var date := ParseIsoDate(InvoiceDateText(form, today)).value;
    DocumentOfParsedDate(form, items, today, uuidHex);
    DocumentShape(form, items, date, uuidHex, t);
    TransactionLines(form, items, t);
    SettlementLayout(form, t);
    HeaderTaxVat(b);
    DelocalizedCurrency(b.vat);
  }
}
