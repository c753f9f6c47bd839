# Rechnung Rabbit invoice core, in Dafny

This project models the part of the Rechnung Rabbit web app that turns an
invoice form into a PDF/A-3 invoice with an embedded ZUGFeRD / Factur-X
document, and proves properties of that model. It covers:

- **Line items from the form** (`FormItems`). The `items[<index>][<field>]`
  form keys are grouped into one dictionary per index, in the order the
  indices first appear. The groups are then converted in ascending index
  order, with empty quantities, prices and rates read as `0`. A bad index, a
  missing field segment or an unparsable number is an error, as the
  exceptions of `int()` and `Decimal()` are in the app.
- **The totals engine** (`InvoiceTotals`). Net amounts are exact. VAT is
  rounded half-up to the cent per line. Rate buckets are keyed by the rate's
  numeric value, in first-seen order. The total VAT is the sum of the buckets,
  and the gross is net plus VAT. Under the small-business rule (section 19
  UStG) every rate is zero.
- **Tax category codes** (`TaxCategory`): `S` for a positive rate, `O`
  otherwise. The code is computed once from the line's rate text and once
  from the bucket's rate rounded to hundredths.
- **Decimal numbers as the app writes and reads them** (`Decimals`,
  `Amounts`, `Rounding`, `Digits`, `Dates`). This covers `str()` of a
  decimal and parsing it back, `quantize` with half-even and half-up
  rounding, the German currency notation `1.234,56`, and the ISO date and the
  `YYYYMMDD` stamp.
- **The visual invoice** (`InvoiceLayout`, `InvoiceFooter`). The item table
  has one row per item, the Netto row, the VAT rows of a regular business in
  ascending rate order (only those with VAT above zero) and the Gesamt row.
  The footer holds the notes block and the company details block.
- **The Cross Industry Invoice tree** (`XmlTree`, `Zugferd`,
  `ZugferdProperties`). This covers the context, the document header and the
  line items. It also covers the seller and buyer parties with their optional
  tax registrations and Leitweg-ID, the optional payment means, one header
  tax per bucket and the monetary summation. It includes the two ways the
  builder fails: an invoice date that is not `YYYY-MM-DD`, and an invoice
  without items, whose VAT total is the integer `0` and cannot be quantized.
- **The PDF/A-3 assembly** (`PdfAssembly`). A writer object receives the
  pages, the XMP metadata stream, the optional ICC output intent, the
  embedded `factur-x.xml` stream, its file specification, the `Names` tree
  entry and the `AF` array.
- **The pipeline** (`InvoicePipeline`). It draws the table and the footer,
  builds the tree and embeds it. The proofs show that the totals the reader
  sees are the ones in the embedded document.
- **The request handler's own logic** (`InvoiceRequest`). The IBAN and VAT
  ID are filled in from the company profile. Reading the selected client's
  Leitweg-ID fails, because the client table has no such column; the model
  shows this and also defines the intended completion. The PDF file name is sanitised, with a fallback name. The
  gross total stored in the database is computed separately.

Where the code changes state step by step, the model does too. The totals
loop, the item grouping and conversion loops, the XML builders, the table
builder and the database total loop are methods with loop invariants. The
footer builders and the profile defaulting are methods with sequential
updates and no loop. Every such method is proved equal to a specification
function, and the properties are proved about those functions. The PDF
writer is a class whose methods update its pages, objects and catalog.

## Model

| member | source | states |
|---|---|---|
| `InvoiceTotals.CalculateTotals` | app/pdf_generator.py:26-54 | The loop's result is `TotalsOf(items, smallBusiness)`: the net sum, one bucket per distinct rate value in first-seen order, the VAT as the sum of the buckets, and the gross as net plus VAT. |
| `InvoiceTotals.ReadNumber` | app/pdf_generator.py:37-39 | `Decimal(str(x or "0"))` has the value of the field. A missing field or a zero field gives the decimal `0`, and any other field is kept as it is. |
| `InvoiceTotals.ReadNumberParses` | app/pdf_generator.py:37-39 | The text handed to `Decimal` parses back to exactly the number that `ReadNumber` yields. |
| `InvoiceTotals.EffectiveRate` | app/pdf_generator.py:39 | A small business gets rate value 0. Otherwise the rate has the value of the item's rate field. |
| `InvoiceTotals.LineVatRounding` | app/pdf_generator.py:49 | A line's VAT is on the cent grid and within half a cent of the exact `net * rate / 100`. |
| `InvoiceTotals.OpenThenAdd` | app/pdf_generator.py:44-49 | Adding a line opens a zero bucket when its rate value is new. It then adds the line net and VAT to the bucket with that value. |
| `InvoiceTotals.AccumulateStep` | app/pdf_generator.py:36-49 | One iteration adds the line net to the total and the line to its rate bucket. |
| `InvoiceTotals.DistinctRatesProperties` | app/pdf_generator.py:44-45 | The bucket rates have pairwise different values, and every item's effective rate has a bucket. |
| `InvoiceTotals.RatesOfAccumulate` | app/pdf_generator.py:44-45 | The bucket keys are the items' distinct rate values, in first-seen order. |
| `InvoiceTotals.BucketSums` | app/pdf_generator.py:47-49 | Each bucket's basis is the sum of the line nets at its rate value. Its VAT is the sum of the rounded line VATs at that value. |
| `InvoiceTotals.AccumulateCharacterization` | app/pdf_generator.py:36-49 | The net is the sum of line nets, the bucket keys are the distinct rates, and each bucket holds the per-rate sums. |
| `InvoiceTotals.SummaryIsPerRateSums` | app/pdf_generator.py:26-54 | `vat_summary` equals, bucket by bucket, the per-rate net and VAT sums over the distinct rates. |
| `InvoiceTotals.SumsAfterAddLine` | app/pdf_generator.py:47-49 | Adding a line raises the sum of bases by the line net and the sum of VATs by the line VAT. |
| `InvoiceTotals.AccumulateSums` | app/pdf_generator.py:36-51 | The bases add up to the net total, and the bucket VATs add up to the sum of rounded line VATs. |
| `InvoiceTotals.SumLineVatOnGrid` | app/pdf_generator.py:49-51 | The sum of rounded line VATs is a whole number of cents. |
| `InvoiceTotals.VatAtRateOnGrid` | app/pdf_generator.py:49 | A bucket's VAT is a whole number of cents. |
| `InvoiceTotals.TotalsConsistent` | app/pdf_generator.py:51-52 | net = sum of line nets = sum of bases; VAT = sum of bucket VATs = sum of rounded line VATs; gross = net + VAT. The VAT is on the cent grid. |
| `InvoiceTotals.VatRoundingBound` | app/pdf_generator.py:49-51 | The total VAT differs from the exact VAT by at most half a cent per line. |
| `InvoiceTotals.UniformExactVat` | app/pdf_generator.py:41-49 | When all lines share one rate, the exact VAT is that rate applied to the net total. |
| `InvoiceTotals.UniformRateGross` | app/pdf_generator.py:49-52 | With one rate, the gross is within half a cent per line of `net * (1 + rate/100)`. |
| `InvoiceTotals.UniformRateCentCounterexample` | app/pdf_generator.py:49-52 | Three lines of 0.05 at 10 % give net 0.15 and gross 0.18. That is more than a cent above `net * 1.1`, so per-line rounding can move the gross by more than one cent. |
| `InvoiceTotals.SmallBusinessLineVat` | app/pdf_generator.py:39-49 | Under the small-business rule every line VAT is zero. |
| `InvoiceTotals.SmallBusinessBuckets` | app/pdf_generator.py:39-49 | Under the small-business rule there is one bucket at rate 0.0 holding the whole net with zero VAT, or none without items. |
| `InvoiceTotals.SmallBusinessTotals` | app/pdf_generator.py:39-52 | A small business's VAT is 0 and its gross equals its net. |
| `InvoiceTotals.SummaryEmptyIffNoItems` | app/pdf_generator.py:36-45 | `vat_summary` is empty exactly when there are no items. |
| `InvoiceTotals.IndexOfValue` | app/pdf_generator.py:44 | The dictionary lookup finds the first bucket whose rate is numerically equal, or reports that there is none. |
| `Rounding.HalfUp` | app/pdf_generator.py:49 | `ROUND_HALF_UP`: the nearest integer, with ties away from zero. |
| `Rounding.HalfEven` | app/pdf_generator.py:312-326 | `quantize` without a rounding argument: the nearest integer, with ties to the even one. |
| `Rounding.HalfUpUnique` | app/pdf_generator.py:49 | Only one integer satisfies the half-up characterisation. |
| `Rounding.HalfEvenUnique` | app/pdf_generator.py:312-326 | Only one integer satisfies the half-even characterisation. |
| `Rounding.QuantizeHalfUpError` | app/pdf_generator.py:49 | Quantizing half-up to `places` moves a value by at most half a unit in the last place. |
| `Rounding.QuantizeHalfEvenError` | app/pdf_generator.py:312-326 | Quantizing half-even moves a value by at most half a unit in the last place. |
| `Rounding.QuantizeOnGrid` | app/pdf_generator.py:239-261 | Quantizing a value that is already on the grid leaves it unchanged, in both rounding modes. |
| `Rounding.CentGridSum` | app/pdf_generator.py:51 | Sums of whole cents are whole cents. |
| `Rounding.CentGridExact` | app/pdf_generator.py:324 | Quantizing a whole-cent amount to two places is exact. |
| `TaxCategory.TaxCategoryCode` | app/pdf_generator.py:56-62 | `S` exactly when the text parses to a positive decimal, `O` exactly when it parses to zero or less, and an error when it does not parse. |
| `TaxCategory.ValueSign` | app/pdf_generator.py:59 | A decimal is positive exactly when its coefficient is. |
| `TaxCategory.LineCategory` | app/pdf_generator.py:254-257 | A line's code is `S` exactly when its effective rate is positive. |
| `TaxCategory.HeaderCategory` | app/pdf_generator.py:315-318 | A bucket's code is `S` exactly when its rate, rounded to hundredths, is positive. |
| `TaxCategory.LineCategoryOfText` | app/pdf_generator.py:254 | `_get_tax_category_code(str(rate))` is `LineCategory(rate)`. |
| `TaxCategory.HeaderCategoryOfText` | app/pdf_generator.py:315 | `_get_tax_category_code(str(rate.quantize(0.01)))` is `HeaderCategory(rate)`. |
| `TaxCategory.HundredthsPositive` | app/pdf_generator.py:315 | A rate rounded half-even to hundredths is positive exactly when the rate exceeds 0.005. |
| `TaxCategory.CategoriesAgree` | app/pdf_generator.py:315-318 | The header code equals the line code for the same rate, except exactly when 0 < rate <= 0.005. |
| `TaxCategory.HalfHundredthDisagrees` | app/pdf_generator.py:315-318 | At rate 0.005 the line says `S` and the header tax says `O`. |
| `TaxCategory.SmallBusinessCategory` | app/pdf_generator.py:238-257 | The small-business rate `0.0` gives `O` on the line and in the header. |
| `Decimals.ParseToString` | app/pdf_generator.py:37 | `Decimal(str(d)) == d` for every finite decimal, coefficient and exponent included. |
| `Digits.NatToDigitsRoundTrip` | app/pdf_generator.py:243 | The decimal digits of `str(i)` read back as `i`. |
| `Dates.ParseIsoDate` | app/pdf_generator.py:198 | A date that `strptime(..., '%Y-%m-%d')` accepts is a valid calendar date. |
| `Dates.DaysInMonth` | app/pdf_generator.py:198 | February has 29 days exactly in a leap year and 28 otherwise. April, June, September and November have 30 days, and the other months 31. |
| `Dates.LeapDay` | app/pdf_generator.py:198 | 29 February is a valid date exactly in leap years. 28 February always is, and 30 February never is. |
| `Dates.CenturyRule` | app/pdf_generator.py:198 | 2000 and 2024 are leap years; 1900 and 2023 are not. |
| `Dates.IsoRoundTrip` | app/pdf_generator.py:197-198 | Today's date written as `YYYY-MM-DD` parses back to the same date. |
| `Dates.StampDigits` | app/pdf_generator.py:229 | The `%Y%m%d` stamp has eight digits that read back as year, month and day. |
| `Dates.StampOfCanonical` | app/pdf_generator.py:198-229 | For a ten-character accepted date, the stamp is the text with the dashes removed. A space-padded day gets a leading zero. |
| `Amounts.AmountTextParses` | app/pdf_generator.py:312-326 | `f"{x.quantize(...)}"` parses back to the half-even quantized value, with exactly that many places. |
| `Amounts.AmountTextPlain` | app/pdf_generator.py:322-326 | Quantized amounts are written without an exponent: sign, integer digits, a point, then the fraction digits. |
| `Amounts.RequantizedLineTotal` | app/pdf_generator.py:239-261 | Quantizing the half-up line total a second time changes nothing, and its text parses to the half-up value. |
| `Amounts.GermanNotation` | app/pdf_generator.py:148-149 | `format_currency` writes the sign, the integer digits grouped by `.` in threes, `,` and two half-even decimals. |
| `Amounts.EnglishToPlaceholder` | app/pdf_generator.py:149 | The first replacement turns every group comma of `{:,.2f}` into the placeholder. |
| `Amounts.PlaceholderToComma` | app/pdf_generator.py:149 | The second replacement changes only the decimal point. |
| `Amounts.PlaceholderToDot` | app/pdf_generator.py:149 | The third replacement turns the placeholders into dots. |
| `Amounts.DelocalizedCurrency` | app/pdf_generator.py:148-149 | Dropping the group dots and turning the comma back into a point gives exactly the amount text written into the XML. |
| `Text.StripLeft` | app/pdf_generator.py:86 | The result is a suffix with no leading whitespace, and only whitespace was removed. |
| `Text.StripRight` | app/pdf_generator.py:86 | The result is a prefix with no trailing whitespace, and only whitespace was removed. |
| `Text.StripEmpty` | app/pdf_generator.py:86 | `s.strip()` is empty exactly when `s` is all whitespace. |
| `Text.ReplaceChar` | app/pdf_generator.py:149 | Replacing a character by itself, or one that does not occur, leaves the text unchanged. |
| `Text.ReplaceCharByChar` | app/pdf_generator.py:149 | A one-character replacement keeps the length and changes exactly the occurrences. |
| `Text.Take` | app/main.py:427 | `s[:n]` has length `min(n, len(s))` and is a prefix of `s`. |
| `Text.UpperHex` | app/pdf_generator.py:226 | `.upper()` on hex text changes exactly `a`-`f` to `A`-`F`. |
| `Sorting.SortByCorrect` | app/pdf_generator.py:171 | `sorted(vat_summary.items())` is ordered by rate value and is a permutation of the buckets. |
| `InvoiceLayout.BuildItemTable` | app/pdf_generator.py:151-175 | The built table is `ItemTable(items, small business)`. |
| `InvoiceLayout.AppendItemRows` | app/pdf_generator.py:155-164 | The loop appends exactly one row per item, in order. |
| `InvoiceLayout.AppendVatRows` | app/pdf_generator.py:170-173 | The loop appends one row per sorted bucket with VAT above zero, in order. |
| `InvoiceLayout.TableItems` | app/pdf_generator.py:154-167 | The header row comes first, then each item's row at its position, then the Netto row with the net total. |
| `InvoiceLayout.TableShape` | app/pdf_generator.py:154-175 | This is the full layout: the header, the item rows, Netto, the VAT rows of a regular business, and Gesamt last. |
| `InvoiceLayout.TableEndsWithGesamt` | app/pdf_generator.py:175 | The last row is the Gesamt row with the gross total. |
| `InvoiceLayout.SmallBusinessTable` | app/pdf_generator.py:169-175 | A small business's table has no VAT rows. |
| `InvoiceLayout.TableVatRows` | app/pdf_generator.py:170-173 | A regular invoice shows one VAT row per shown bucket, right after Netto. |
| `InvoiceLayout.VatShownMembers` | app/pdf_generator.py:172 | A bucket is shown exactly when it is in the summary and its VAT is above zero. |
| `InvoiceLayout.VatShownSorted` | app/pdf_generator.py:171-172 | Filtering keeps the ascending rate order. |
| `InvoiceLayout.VatRowsAscending` | app/pdf_generator.py:171-173 | The shown VAT rows are in ascending rate order and are exactly the buckets with VAT above zero. |
| `InvoiceLayout.ItemGross` | app/pdf_generator.py:156-158 | An item's Gesamt cell is its net plus its exact (unrounded) VAT. For a small business it is the net. |
| `InvoiceFooter.NotesParagraph` | app/pdf_generator.py:81-87 | The notes markup is the footer lines joined by `<br/>`. |
| `InvoiceFooter.DetailsParagraph` | app/pdf_generator.py:89-94 | The details markup is the detail lines joined by `<br/>`. |
| `InvoiceFooter.BuildFooter` | app/pdf_generator.py:81-97 | It returns both paragraphs' markup. |
| `InvoiceFooter.SmallBusinessNotes` | app/pdf_generator.py:82-87 | A small business always has one notes line, and its stripped text starts with the section 19 UStG sentence. |
| `InvoiceFooter.RegularNotes` | app/pdf_generator.py:83-87 | A regular business has no notes line exactly when its notes are blank. |
| `InvoiceFooter.NotesSingleLine` | app/pdf_generator.py:87 | The notes line starts with its heading and has no newline left after it. |
| `InvoiceFooter.DetailLineOrigin` | app/pdf_generator.py:90-94 | Every detail line comes from one filled field with its title. |
| `InvoiceFooter.DetailShown` | app/pdf_generator.py:90-94 | A field's line is shown exactly when the field is filled. |
| `Zugferd.AppendLines` | app/pdf_generator.py:235-265 | The loop appends one line item per item, numbered from 1, equal to `LinesXml`. |
| `Zugferd.BuildAgreement` | app/pdf_generator.py:268-297 | The built agreement is `AgreementXml(form)`. |
| `Zugferd.AppendHeaderTaxes` | app/pdf_generator.py:310-319 | The loop appends one header tax per bucket, in bucket order. |
| `Zugferd.BuildSettlement` | app/pdf_generator.py:300-326 | It fails when the summary is empty, because the VAT total is the integer 0. Otherwise it gives `SettlementXml(form, totals)`. |
| `Zugferd.GenerateZugferdXml` | app/pdf_generator.py:195-328 | The built tree, or the error, is `ZugferdXml(form, items, today, uuid)`. |
| `ZugferdProperties.LineIdentifier` | app/pdf_generator.py:243 | Line `i` carries the `LineID` `str(i)`, which reads back as `i`. |
| `ZugferdProperties.LineTotal` | app/pdf_generator.py:239-261 | The line's `LineTotalAmount` is the net rounded half-up to cents. |
| `ZugferdProperties.LineTaxCategory` | app/pdf_generator.py:254-255 | The line's `CategoryCode` is the category of its effective rate's text. |
| `ZugferdProperties.LineTaxExemption` | app/pdf_generator.py:256-257 | A line has `ExemptionReasonCode` `VATEX-EU-DE` exactly when its code is `O`, that is, when its rate is at most 0. |
| `ZugferdProperties.LineTaxRate` | app/pdf_generator.py:258 | `RateApplicablePercent` parses to the rate quantized to hundredths. |
| `ZugferdProperties.LineTaxOfItem` | app/pdf_generator.py:251-258 | The line's trade tax is built from the item's effective rate. |
| `ZugferdProperties.SmallBusinessLinesExempt` | app/pdf_generator.py:238-257 | Under the small-business rule every line is `O` with an exemption reason. |
| `ZugferdProperties.LineQuantity` | app/pdf_generator.py:249 | `BilledQuantity` has unit `C62` and the quantity quantized to four places. |
| `ZugferdProperties.LinePrice` | app/pdf_generator.py:263-265 | `ChargeAmount` is the unit price quantized to four places. |
| `ZugferdProperties.HeaderTaxCategory` | app/pdf_generator.py:315 | The header tax code is the category of the bucket rate rounded to hundredths. |
| `ZugferdProperties.HeaderTaxExemption` | app/pdf_generator.py:317-318 | A header tax has an exemption reason exactly when its rate is at most 0.005. |
| `ZugferdProperties.HeaderTaxAmounts` | app/pdf_generator.py:312-314 | `CalculatedAmount` and `BasisAmount` parse to the bucket VAT and basis quantized to cents. |
| `ZugferdProperties.SettlementLayout` | app/pdf_generator.py:300-326 | The settlement holds the currency and the optional payment means, then one header tax per bucket in order, then the summation. |
| `ZugferdProperties.SettlementTaxCount` | app/pdf_generator.py:310-311 | There are as many header taxes as buckets. |
| `ZugferdProperties.SettlementPaymentMeans` | app/pdf_generator.py:303-307 | Payment means exist exactly when `sender_iban` is filled. They then carry type `30` and that IBAN. |
| `ZugferdProperties.PaymentMeansPresent` | app/pdf_generator.py:303-307 | A filled IBAN appears under the payment means with type code `30`. |
| `ZugferdProperties.PaymentMeansAbsent` | app/pdf_generator.py:303 | An empty or missing IBAN gives no payment means. |
| `ZugferdProperties.SettlementSummation` | app/pdf_generator.py:321 | The settlement's monetary summation is built from the totals. |
| `ZugferdProperties.SummationNet` | app/pdf_generator.py:322-323 | `LineTotalAmount` and `TaxBasisTotalAmount` are both the net text. |
| `ZugferdProperties.SummationGross` | app/pdf_generator.py:325-326 | `GrandTotalAmount` and `DuePayableAmount` are both the gross text. |
| `ZugferdProperties.SummationVat` | app/pdf_generator.py:324 | `TaxTotalAmount` has currency `EUR` and the VAT text. |
| `ZugferdProperties.InvoiceVatTotal` | app/pdf_generator.py:324 | `TaxTotalAmount` parses to exactly the sum of the rounded line VATs. |
| `ZugferdProperties.InvoiceGrandTotal` | app/pdf_generator.py:325 | `GrandTotalAmount` is the gross quantized to cents, and the gross is the net plus the rounded line VATs. |
| `ZugferdProperties.InvoiceHeaderTaxValues` | app/pdf_generator.py:310-314 | Each header tax's VAT is exactly the rate's VAT sum, and its basis is the rate's net sum rounded to cents. |
| `ZugferdProperties.SellerRegistrations` | app/pdf_generator.py:278-285 | The seller has one `FC` registration if the tax ID is filled and one `VA` registration if the VAT ID is, the `FC` one first. It has none when neither is filled. |
| `ZugferdProperties.SellerRegistrationCount` | app/pdf_generator.py:278-285 | The number of registrations is the number of filled tax ID fields. |
| `ZugferdProperties.BuyerReferencePresence` | app/pdf_generator.py:289-290 | The buyer has a `BuyerReference` exactly when the Leitweg-ID is filled, and it holds that ID. |
| `ZugferdProperties.PartyNames` | app/pdf_generator.py:270-292 | The seller and buyer names default to `Verkaeufer` and `Kunde`. |
| `ZugferdProperties.PartyCountries` | app/pdf_generator.py:275-297 | Both addresses have country `DE`. |
| `ZugferdProperties.ZugferdErrors` | app/pdf_generator.py:195-328 | The builder fails with a date error exactly when the date does not parse. It fails with a VAT-total error exactly when the date parses and there are no items. Otherwise it succeeds. |
| `ZugferdProperties.DefaultDateIsToday` | app/pdf_generator.py:197-198 | Without `invoice_date` the document is dated today. |
| `ZugferdProperties.DocumentShape` | app/pdf_generator.py:216-232 | The root `CrossIndustryInvoice` has the context, the document header and the transaction, in that order. |
| `ZugferdProperties.DocumentGuideline` | app/pdf_generator.py:219-222 | The context carries the XRechnung 2.2 guideline identifier. |
| `ZugferdProperties.DocumentOfParsedDate` | app/pdf_generator.py:197-204 | A built document uses the parsed invoice date and the totals of the items under the form's small-business flag. |
| `ZugferdProperties.DocumentId` | app/pdf_generator.py:226 | The ID is `invoice_number` when given. Otherwise it is `INV-` plus at most six upper-case hex characters. |
| `ZugferdProperties.DocumentTypeCode` | app/pdf_generator.py:227 | The type code is `380`. |
| `ZugferdProperties.DocumentIssueDate` | app/pdf_generator.py:228-229 | The issue date has format `102` and an eight-digit stamp that reads back as the date. |
| `ZugferdProperties.IssueDateOfCanonicalText` | app/pdf_generator.py:198-229 | For a zero-padded `YYYY-MM-DD` input, the stamp is the input without its dashes. |
| `ZugferdProperties.TransactionLines` | app/pdf_generator.py:232-300 | The transaction holds the line items in item order, numbered from 1, then the agreement, then the settlement. |
| `ZugferdProperties.TransactionLineCount` | app/pdf_generator.py:235-241 | The transaction has exactly one line item per item. |
| `PdfAssembly.PdfWriter.AddPage` | app/pdf_generator.py:339-340 | It appends the page and changes nothing else. |
| `PdfAssembly.PdfWriter.AddObject` | app/pdf_generator.py:371 | It stores the object last and returns a reference to its index. Nothing else changes. |
| `PdfAssembly.PdfWriter.SetEntry` | app/pdf_generator.py:371 | It sets one catalog entry. Nothing else changes. |
| `PdfAssembly.PdfWriter.AppendTo` | app/pdf_generator.py:391 | `setdefault(key, []).append(v)` on the catalog, which fails when the entry is not an array. |
| `PdfAssembly.PdfWriter.SetDefaultNested` | app/pdf_generator.py:420 | It nests `setdefault` on the catalog, which fails when the outer entry is not a dictionary. |
| `PdfAssembly.AppendEntryKeeps` | app/pdf_generator.py:391 | Appending adds one key at most, leaves the other entries alone, and puts `v` after the existing items. |
| `PdfAssembly.AppendEntryPrefix` | app/pdf_generator.py:423 | Appending to an existing array keeps its items as a prefix and puts `v` last. |
| `PdfAssembly.SetDefaultInKeeps` | app/pdf_generator.py:420 | The nested `setdefault` keeps an existing inner value, and otherwise adds `v`. The other entries are untouched. |
| `PdfAssembly.CopyPages` | app/pdf_generator.py:337-340 | The new writer holds the reader's pages in order, with no objects yet. |
| `PdfAssembly.MakePdfaCompliant` | app/pdf_generator.py:333-428 | The writer holds the pages, the objects `CompliantObjects(xml, xmp, icc, stamp)` in creation order, and the catalog `CompliantCatalog`. |
| `PdfAssembly.CatalogEntries` | app/pdf_generator.py:365-423 | The catalog has `Metadata`, `Names`, `AF` and `OutputIntents`, the last only with an ICC profile. `Names/EmbeddedFiles` lists `factur-x.xml` and its file specification, and `AF` holds that specification. |
| `PdfAssembly.CatalogReferences` | app/pdf_generator.py:371-423 | Each catalog reference points at the right object: the XMP stream, the ICC stream, and the file specification whose `EF` is the embedded XML stream with its `ModDate`. |
| `InvoicePipeline.GenerateInvoicePdf` | app/pdf_generator.py:431-445 | It fails exactly when the tree fails. Otherwise it yields the table, the footer and a fresh PDF/A-3 writer with the pages and the tree embedded. |
| `InvoicePipeline.DocumentSummation` | app/pdf_generator.py:321-326 | The document's summation amounts are those computed from the items' totals. |
| `InvoicePipeline.TotalsAgree` | app/pdf_generator.py:431-445 | The Gesamt and Netto cells show the gross and net whose German notation, delocalized, is the document's `GrandTotalAmount` and `LineTotalAmount`. |
| `InvoicePipeline.VatRowAgrees` | app/pdf_generator.py:431-445 | Each VAT row of a regular invoice is one of the document's header taxes, and its delocalized amount is that tax's `CalculatedAmount`. |
| `FormItems.GroupItems` | app/main.py:370-380 | The grouping loop's result is `Grouped(entries)`: the fields per index and the first-seen order of the indices, or the first key error. |
| `FormItems.ParseFormItems` | app/main.py:370-390 | The whole parser's result is `ItemsOf(entries)`. |
| `FormItems.Grouped` | app/main.py:372-380 | Each index appears once in the key order, and exactly the grouped indices appear. |
| `FormItems.ItemStep` | app/main.py:373-380 | An item key stores its value under `int(parts[1])` and `parts[2]`. It fails on a bad index or a missing field segment. |
| `FormItems.SplitJoin` | app/main.py:374 | Joining the parts of `split(c)` with `c` gives the text back, and no part contains `c`. |
| `FormItems.ItemKeyRoundTrip` | app/main.py:373-376 | The key `items[<i>][<f>]` is an item key and parses back to index `i` and field `f`. |
| `FormItems.OnlyItemKeysMatter` | app/main.py:372-373 | Keys not starting with `items[` do not affect the grouping. |
| `FormItems.GroupedErrPersists` | app/main.py:375-376 | The first failing key ends the parse, and later entries change nothing. |
| `FormItems.StoreSlot` | app/main.py:378-380 | Storing a field sets exactly that slot and keeps every other slot. |
| `FormItems.GroupedLastWins` | app/main.py:378-380 | A field gets the value of the last entry with its index and name. |
| `FormItems.GroupedOrigin` | app/main.py:378-380 | Every grouped value comes from an entry with that index and field name. |
| `FormItems.SortedIndicesOrder` | app/main.py:383 | `sorted(item_data.keys())` is strictly ascending and lists exactly the grouped indices. |
| `FormItems.ItemsFromEach` | app/main.py:383-390 | The k-th item is the conversion of the k-th index's fields. |
| `FormItems.ItemsByIndex` | app/main.py:383-390 | There is one item per grouped index, in strictly ascending index order, each converted from its own fields. |
| `FormItems.ItemDefaults` | app/main.py:386-389 | A missing or empty quantity, price or rate becomes `0`. The description is kept when present. |
| `FormItems.ItemsHaveNumbers` | app/main.py:387-389 | Every parsed item has a quantity, a unit price and a rate. |
| `FormItems.ParseZero` | app/main.py:387 | `Decimal('0')` is zero. |
| `InvoiceRequest.KeepAllowedConcat` | app/main.py:424 | Filtering distributes over concatenation. |
| `InvoiceRequest.SafeNameCounts` | app/main.py:423-424 | In the sanitised name, each allowed character occurs as often as in the input, and `_` also gains one per space. No other character occurs. |
| `InvoiceRequest.SafeNameAllowed` | app/main.py:423-424 | Every character of the sanitised name is alphanumeric, `-` or `_`. |
| `InvoiceRequest.SafeNameFixpoint` | app/main.py:423-424 | Sanitising leaves a name unchanged exactly when all its characters are allowed. |
| `InvoiceRequest.SafeNameIdempotent` | app/main.py:423-424 | Sanitising twice is sanitising once. |
| `InvoiceRequest.PdfFilenameSafe` | app/main.py:419-430 | The file name ends in `.pdf` and its stem uses only allowed characters, given an allowed user id and UUID. |
| `InvoiceRequest.SafeNameUsed` | app/main.py:427 | An already-safe, non-empty name is used as is, with `.pdf` appended. |
| `InvoiceRequest.NothingSafe` | app/main.py:424 | A name with no allowed characters and no spaces sanitises to the empty name. |
| `InvoiceRequest.NothingSafeFallsBack` | app/main.py:427 | Such a name falls back to `rechnung_<user>_<uuid>.pdf`. |
| `InvoiceRequest.FillFromProfile` | app/main.py:402-413 | The updates as written give `FilledAsWritten(form, profile, client)`: the IBAN and VAT ID completions, then an `AttributeError` for a found client. |
| `InvoiceRequest.FilledAsWrittenFields` | app/main.py:402-413 | The request fails exactly when a client was found. Otherwise an IBAN and VAT ID already in the form are kept, missing ones come from the profile when truthy, and every other key, the Leitweg-ID included, is unchanged. |
| `InvoiceRequest.FoundClientRaises` | app/main.py:410-413 | Any found client, whatever its row holds, ends the request with the missing `leitweg_id` attribute; without a client the completion succeeds. |
| `InvoiceRequest.IntendedFillFromProfile` | app/main.py:402-413 | The three conditional assignments give the intended completion `WithProfile(form, profile, client)`. |
| `InvoiceRequest.WithProfileFields` | app/main.py:402-413 | In the intended completion the IBAN and VAT ID are handled as written, the client's truthy Leitweg-ID overrides the form's, and every other key is unchanged. Without a client it equals the completion as written. |
| `InvoiceRequest.ProfileIbanInDocument` | app/main.py:402-404 | When the request succeeds, a profile IBAN filled in for a form without one appears as the document's payment IBAN. |
| `InvoiceRequest.EmptyIbanBlocksProfile` | app/main.py:402-404 | When the request succeeds and the form sends an empty `sender_iban`, it is kept, so the profile IBAN is not used and the document has no payment means. |
| `InvoiceRequest.ClientLeitwegInDocument` | app/main.py:410-413 | Under the intended completion, the selected client's Leitweg-ID becomes the buyer reference. |
| `InvoiceRequest.DatabaseTotal` | app/main.py:437-447 | The loop's stored gross is the net plus the exact, unrounded VAT at the items' own rates. |
| `InvoiceRequest.StoredGrossNearPrinted` | app/main.py:437-447 | For a regular business, the stored gross is within half a cent per line of the printed gross. |
| `InvoiceRequest.StoredGrossIgnoresSmallBusiness` | app/main.py:442 | Under the small-business rule, one item of 1 × 100.00 at 19 % prints 100.00 but stores 119. |
| `InvoiceRequest.IntendedDatabaseTotal` | app/main.py:437-447 | With the invoice's effective rates, the loop computes `IntendedStoredGross`. |
| `InvoiceRequest.IntendedStoredGrossMatchesPrinted` | app/main.py:437-447 | The corrected total equals the printed gross for a small business, and is within half a cent per line otherwise. |

## Left out

- Decimal parsing covers the plain and exponent notations of `str(Decimal)`. Surrounding whitespace, underscores, `Infinity`, `NaN`, signed zeros and non-ASCII digits are not modelled.
- Signed zeros are not modelled anywhere in the arithmetic. A negative zero parsed from the form, or one produced by a product such as quantity `-1` times unit price `0`, is a plain zero in the model. The model prints `0.00` for the XML `LineTotalAmount` and `0,00 €` for the table cell, where Python prints `-0.00` and `-0,00 €` (app/pdf_generator.py:156-164, 239-261).
- ParseIsoDate: accepts only ASCII digits. `strptime`'s `%Y` and the second digit of `%d` also match other Unicode decimal digits, so some dates the code accepts are errors in the model. `%m` matches ASCII digits only, as modelled.
- Decimal arithmetic is exact in the model. The 28-digit precision of the default context is not modelled, so results that would need more than 28 significant digits are not rounded as Python would round them.
- `int()` on the index segment accepts surrounding whitespace, a sign and ASCII digits. Underscore separators and non-ASCII digits are not modelled.
- `str.isalnum()` is modelled for ASCII and Latin-1. Letters and digits above U+00FF count as not alphanumeric.
- ReportLab rendering (fonts, logo, header drawing, table styles, page layout) is not modelled. The rendered pages are a parameter of the pipeline, and only the table data and footer markup are modelled.
- The XMP packet's text is not modelled. It is a payload holding the invoice number and sender name.
- The pypdf writer is modelled as pages, an object list and the catalog. Serialisation, cross-reference tables and the pages tree are left out. `/N 3` is modelled as a name.
- `datetime.now()`, `uuid.uuid4()`, the ICC profile file and the `ModDate` clock are parameters. An absent ICC file is `None`.
- `ET.tostring` serialisation is not modelled. The XML document is a tree of elements, and the embedded stream is that tree.
- The pipeline builds the tree before drawing the table. Both steps are pure in the model, so the order does not change the result.
- The client lookup, the company profile lookup, writing the file to disk and creating the database record are not modelled. The profile and client are parameters, and only the gross computed for the record is modelled.
- WithProfileFields: describes the intended completion, in which a found client's Leitweg-ID overrides the form's. As written, a found client raises `AttributeError` instead (see Findings); `FilledAsWrittenFields` states what the code does.
- The client creation and the client id parsing before the item parser are not modelled.

## Findings

| source | as written | input that shows it | evidently intended | confidence | as-written member | corrected member |
|---|---|---|---|---|---|---|
| app/main.py:437-447 | The database total reads each item's own VAT rate and ignores `is_small_business`. | A small-business invoice with one item of quantity 1, unit price 100.00 and rate 19: the PDF and the embedded document show a gross of 100.00, but 119 is stored. | The stored total uses the same effective rates as the invoice, so a small business stores its net. | likely; not executed | `InvoiceRequest.StoredGrossIgnoresSmallBusiness` | `InvoiceRequest.IntendedStoredGrossMatchesPrinted` |
| app/main.py:411-413 | A found client is asked for `client.leitweg_id`, but the `Client` row (app/models.py:23-30) has no such column, so the request raises `AttributeError`. | Any form with a `client_id` that belongs to the user: no PDF is produced. | The client's Leitweg-ID, which the client schema carries (app/schemas.py:67), becomes the buyer reference when set. | likely; not executed | `InvoiceRequest.FoundClientRaises` | `InvoiceRequest.ClientLeitwegInDocument` |
