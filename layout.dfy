/**
 * The item table of the visual invoice (_build_reportlab_pdf): a header row,
 * one row per item, then the summary block Netto, the VAT rows and Gesamt.
 * Only the cell contents are modelled; ReportLab's drawing is not.
 */
module InvoiceLayout {
  import opened Wrappers
  import opened Decimals
  import opened InvoiceTotals
  import opened Amounts
  import opened Forms
  import opened Sorting

  /**
   * A table cell as the source builds it, before its text is rendered: a plain
   * string, str() of a Decimal, an amount in euros, or one of the right-aligned
   * Paragraphs of the summary block (a label, a VAT rate label, the bold total).
   */
  datatype Cell =
    | Label(text: string)
    | Number(d: Decimal)
    | Money(amount: real)
    | RightLabel(markup: string)
    | RateLabel(rate: Decimal)
    | BoldMoney(amount: real)

  type Row = seq<Cell>

  /** An amount as the table shows it: format_currency and the euro sign. */
  function Euro(x: real): string
  {
    FormatCurrency(x) + " €"
  }

  /** The text of a cell; for a Paragraph, its ReportLab markup. */
  function CellText(c: Cell): string
  {
    match c
    case Label(text) => text
    case Number(d) => ToString(d)
    case Money(amount) => Euro(amount)
    case RightLabel(markup) => markup
    case RateLabel(rate) => ToString(rate) + "% MwSt:"
    case BoldMoney(amount) => "<b>" + Euro(amount) + "</b>"
  }

  /** The cells drawn as right-aligned Paragraphs. */
  predicate IsParagraph(c: Cell)
  {
    c.RightLabel? || c.RateLabel? || c.BoldMoney?
  }

  const HeaderRow: Row := [Label("Beschreibung"), Label("Menge"), Label("Einzelpreis"), Label("Gesamt")]

  /** (menge * preis) * (1 + vat_rate / 100): the line's gross, unrounded. */
  function LineGross(item: LineItem, smallBusiness: bool): real
  {
    LineNet(item) * (1.0 + Value(EffectiveRate(item, smallBusiness)) / 100.0)
  }

  /** The row of one item: description ("" when missing), str(quantity), unit price, gross. */
  function ItemRow(item: LineItem, smallBusiness: bool): Row
  {
    [Label(item.description.GetOr("")),
     Number(ReadNumber(item.quantity)),
     Money(Value(ReadNumber(item.unitPrice))),
     Money(LineGross(item, smallBusiness))]
  }

  function ItemRows(items: seq<LineItem>, smallBusiness: bool): (rows: seq<Row>)
    ensures |rows| == |items|
  {
    seq(|items|, i requires 0 <= i < |items| => ItemRow(items[i], smallBusiness))
  }

  function NettoRow(t: Totals): Row
  {
    [Label(""), Label(""), RightLabel("Netto:"), Money(t.net)]
  }

  /** A VAT row: the rate key as str() prints it, then the bucket's VAT. */
  function VatRow(b: Bucket): Row
  {
    [Label(""), Label(""), RateLabel(b.rate), Money(b.vat)]
  }

  function GesamtRow(t: Totals): Row
  {
    [Label(""), Label(""), RightLabel("<b>Gesamt:</b>"), BoldMoney(t.gross)]
  }

  // ---------------------------------------------------------------------------
  // sorted(vat_summary.items()): the buckets in ascending order of their rate.
  // ---------------------------------------------------------------------------

  /** The sort key of a bucket: its rate's value (Decimal keys compare by value). */
  function RateValue(b: Bucket): real
  {
    Value(b.rate)
  }

  function SortByRate(s: seq<Bucket>): seq<Bucket>
  {
    SortBy(RateValue, s)
  }

  /** The buckets shown in the table: the sorted ones with a positive VAT. */
  function VatShown(sorted: seq<Bucket>): seq<Bucket>
  {
    if sorted == [] then []
    else VatShown(sorted[..|sorted| - 1]) + (if sorted[|sorted| - 1].vat > 0.0 then [sorted[|sorted| - 1]] else [])
  }

  function VatRows(shown: seq<Bucket>): (rows: seq<Row>)
    ensures |rows| == |shown|
  {
    seq(|shown|, k requires 0 <= k < |shown| => VatRow(shown[k]))
  }

  /** The VAT rows of the summary block: none for a small business. */
  function VatPart(t: Totals, smallBusiness: bool): seq<Row>
  {
    if smallBusiness then [] else VatRows(VatShown(SortByRate(t.summary)))
  }

  /** The table for given item rows and totals. */
  function TableOf(itemRows: seq<Row>, t: Totals, smallBusiness: bool): seq<Row>
  {
    [HeaderRow] + itemRows + [NettoRow(t)] + VatPart(t, smallBusiness) + [GesamtRow(t)]
  }

  /** The whole table data list, as the source appends it. */
  function ItemTable(items: seq<LineItem>, smallBusiness: bool): seq<Row>
  {
    TableOf(ItemRows(items, smallBusiness), TotalsOf(items, smallBusiness), smallBusiness)
  }

  /** The loop over the items: one row each, in input order. */
  method AppendItemRows(data: seq<Row>, items: seq<LineItem>, smallBusiness: bool) returns (grown: seq<Row>)
    ensures grown == data + ItemRows(items, smallBusiness)
  {
    grown := data;
    var i := 0;
    while i < |items|
      invariant 0 <= i <= |items|
      invariant grown == data + ItemRows(items, smallBusiness)[..i]
    {
      grown := grown + [ItemRow(items[i], smallBusiness)];
      i := i + 1;
    }
  }

  /** The loop over the sorted buckets: a row for each one with a positive VAT. */
  method AppendVatRows(data: seq<Row>, sorted: seq<Bucket>) returns (grown: seq<Row>)
    ensures grown == data + VatRows(VatShown(sorted))
  {
    grown := data;
    var k := 0;
    while k < |sorted|
      invariant 0 <= k <= |sorted|
      invariant grown == data + VatRows(VatShown(sorted[..k]))
    {
      assert sorted[..k + 1][..k] == sorted[..k];
      if sorted[k].vat > 0.0 {
        grown := grown + [VatRow(sorted[k])];
      }
      k := k + 1;
    }
    assert sorted[..k] == sorted;
  }

  /** The data list of the item table, built row by row as the source appends it. */
  method BuildItemTable(form: Form, items: seq<LineItem>) returns (data: seq<Row>)
    ensures data == ItemTable(items, SmallBusiness(form))
  {
    var smallBusiness := SmallBusiness(form);
    var totals := CalculateTotals(items, smallBusiness);
    data := AppendItemRows([HeaderRow], items, smallBusiness);
    data := data + [NettoRow(totals)];
    if !smallBusiness {
      data := AppendVatRows(data, SortByRate(totals.summary));
    }
    data := data + [GesamtRow(totals)];
  }

  // ---------------------------------------------------------------------------
  // What the table shows.
  // ---------------------------------------------------------------------------

  /** The table starts with the header, then one row per item in input order, then Netto. */
  lemma TableItems(items: seq<LineItem>, smallBusiness: bool)
    ensures var rows := ItemTable(items, smallBusiness);
            |rows| >= |items| + 3 && rows[0] == HeaderRow &&
            (forall i :: 0 <= i < |items| ==> rows[i + 1] == ItemRow(items[i], smallBusiness)) &&
            rows[|items| + 1] == NettoRow(TotalsOf(items, smallBusiness))
  {
    var itemRows := ItemRows(items, smallBusiness);
    var rows := ItemTable(items, smallBusiness);
    TableShape(itemRows, TotalsOf(items, smallBusiness), smallBusiness);
    forall i | 0 <= i < |items| ensures rows[i + 1] == ItemRow(items[i], smallBusiness) {
      assert rows[i + 1] == itemRows[i];
    }
  }

  lemma TableShape(itemRows: seq<Row>, t: Totals, smallBusiness: bool)
    ensures var rows := TableOf(itemRows, t, smallBusiness);
            |rows| == |itemRows| + 3 + |VatPart(t, smallBusiness)| && rows[0] == HeaderRow &&
            (forall i :: 0 <= i < |itemRows| ==> rows[i + 1] == itemRows[i]) &&
            rows[|itemRows| + 1] == NettoRow(t) &&
            (forall k :: 0 <= k < |VatPart(t, smallBusiness)| ==> rows[|itemRows| + 2 + k] == VatPart(t, smallBusiness)[k]) &&
            rows[|rows| - 1] == GesamtRow(t)
  {
  }

  /** The last row is Gesamt, in bold, with the gross of the totals engine. */
  lemma TableEndsWithGesamt(items: seq<LineItem>, smallBusiness: bool)
    ensures var rows := ItemTable(items, smallBusiness);
            rows[|rows| - 1] == GesamtRow(TotalsOf(items, smallBusiness))
  {
    TableShape(ItemRows(items, smallBusiness), TotalsOf(items, smallBusiness), smallBusiness);
  }

  /** A small business gets no VAT rows: the table is header, items, Netto and Gesamt. */
  lemma SmallBusinessTable(items: seq<LineItem>)
    ensures |ItemTable(items, true)| == |items| + 3
  {
    TableShape(ItemRows(items, true), TotalsOf(items, true), true);
  }

  /** Otherwise there is one VAT row per shown bucket, between Netto and Gesamt. */
  lemma TableVatRows(items: seq<LineItem>)
    ensures var shown := VatShown(SortByRate(TotalsOf(items, false).summary));
            var rows := ItemTable(items, false);
            |rows| == |items| + 3 + |shown| &&
            forall k :: 0 <= k < |shown| ==> rows[|items| + 2 + k] == VatRow(shown[k])
  {
    TableShape(ItemRows(items, false), TotalsOf(items, false), false);
  }

  /** The shown buckets are the input's buckets with a positive VAT. */
  lemma {:induction false} VatShownMembers(sorted: seq<Bucket>)
    ensures forall b :: b in VatShown(sorted) <==> b in sorted && b.vat > 0.0
  {
    if sorted != [] {
      var init := sorted[..|sorted| - 1];
      VatShownMembers(init);
      assert sorted == init + [sorted[|sorted| - 1]];
    }
  }

  /** An upper bound on the rates of the input bounds the rates shown. */
  lemma {:induction false} VatShownBound(sorted: seq<Bucket>, hi: real)
    requires forall k :: 0 <= k < |sorted| ==> RateValue(sorted[k]) <= hi
    ensures forall k :: 0 <= k < |VatShown(sorted)| ==> RateValue(VatShown(sorted)[k]) <= hi
  {
    if sorted != [] {
      VatShownBound(sorted[..|sorted| - 1], hi);
    }
  }

  /** Filtering keeps the ascending order. */
  lemma {:induction false} VatShownSorted(sorted: seq<Bucket>)
    requires SortedBy(RateValue, sorted)
    ensures SortedBy(RateValue, VatShown(sorted))
  {
    if sorted != [] {
      var init := sorted[..|sorted| - 1];
      var last := sorted[|sorted| - 1];
      VatShownSorted(init);
      VatShownBound(init, RateValue(last));
    }
  }

  /**
   * The VAT rows of a regular invoice list exactly the buckets with a positive
   * VAT, in ascending order of rate.
   */
  lemma VatRowsAscending(items: seq<LineItem>)
    ensures var summary := TotalsOf(items, false).summary;
            var shown := VatShown(SortByRate(summary));
            SortedBy(RateValue, shown) &&
            (forall b :: b in shown <==> b in summary && b.vat > 0.0)
  {
    var summary := TotalsOf(items, false).summary;
    var sorted := SortByRate(summary);
    SortByCorrect(RateValue, summary);
    VatShownMembers(sorted);
    VatShownSorted(sorted);
    forall b ensures b in sorted <==> b in summary {
      assert b in sorted <==> b in multiset(sorted);
      assert b in summary <==> b in multiset(summary);
    }
  }

  /** An item's gross cell is its net plus its unrounded VAT, not the rounded VAT of the totals. */
  lemma ItemGross(item: LineItem, smallBusiness: bool)
    ensures LineGross(item, smallBusiness) == LineNet(item) + ExactLineVat(item, smallBusiness)
    ensures smallBusiness ==> LineGross(item, true) == LineNet(item)
  {
    var rate := Value(EffectiveRate(item, smallBusiness));
    calc {
      LineGross(item, smallBusiness);
      LineNet(item) * (1.0 + rate / 100.0);
      LineNet(item) + LineNet(item) * (rate / 100.0);
    }
  }
}
