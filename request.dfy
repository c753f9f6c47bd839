/**
 * The rest of create_rechnung around the PDF: the form is completed from the
 * company profile and the selected client, the PDF file gets a sanitised
 * name, and the invoice's gross total is computed once more for the
 * database record.
 */
module InvoiceRequest {
  import opened Wrappers
  import opened Text
  import opened Forms
  import opened Decimals
  import opened InvoiceTotals
  import opened XmlTree
  import opened Zugferd
  import opened ZugferdProperties

  // ---------------------------------------------------------------------------
  // The file name: user_filename.replace(" ", "_"), then only c.isalnum() or c in ('-', '_').
  // ---------------------------------------------------------------------------

  /** str.isalnum on the Latin-1 range: ASCII letters and digits, the Latin-1 letters, ª µ º, ² ³ ¹ and ¼ ½ ¾. */
  predicate IsAlnum(c: char)
  {
    ('0' <= c <= '9') || ('A' <= c <= 'Z') || ('a' <= c <= 'z') ||
    c == '\U{AA}' || c == '\U{B2}' || c == '\U{B3}' || c == '\U{B5}' || c == '\U{B9}' || c == '\U{BA}' ||
    ('\U{BC}' <= c <= '\U{BE}') ||
    ('\U{C0}' <= c <= '\U{FF}' && c != '\U{D7}' && c != '\U{F7}')
  }

  /** A character the sanitiser keeps. */
  predicate Allowed(c: char)
  {
    IsAlnum(c) || c == '-' || c == '_'
  }

  /** "".join(c for c in s if c.isalnum() or c in ('-', '_')) */
  function KeepAllowed(s: string): string
  {
    if s == [] then [] else (if Allowed(s[0]) then [s[0]] else []) + KeepAllowed(s[1..])
  }

  /** The sanitised stem of a user-chosen file name. */
  function SafeName(name: string): string
  {
    KeepAllowed(ReplaceChar(name, ' ', "_"))
  }

  /** rechnung_{user.id[:8]}_{uuid.uuid4().hex[:8]}.pdf; the fresh UUID's hex text is a parameter. */
  function FallbackName(userId: string, uuidHex: string): string
  {
    "rechnung_" + Take(userId, 8) + "_" + Take(uuidHex, 8) + ".pdf"
  }

  /** The PDF's file name: the sanitised user name when one is given and something survives, else the fallback. */
  function PdfFilename(userFilename: Option<string>, userId: string, uuidHex: string): string
  {
    if userFilename.Some? && userFilename.value != "" && SafeName(userFilename.value) != "" then
      SafeName(userFilename.value) + ".pdf"
    else
      FallbackName(userId, uuidHex)
  }

  /** What one character of the user's name contributes: a space becomes "_", a kept character stays, the rest go. */
  function SafeChar(c: char): string
  {
    if c == ' ' then "_" else if Allowed(c) then [c] else []
  }

  lemma {:induction false} KeepAllowedConcat(a: string, b: string)
    ensures KeepAllowed(a + b) == KeepAllowed(a) + KeepAllowed(b)
    decreases |a|
  {
    if a == [] {
      assert a + b == b;
    } else {
      var head := if Allowed(a[0]) then [a[0]] else [];
      assert (a + b)[0] == a[0];
      assert (a + b)[1..] == a[1..] + b;
      KeepAllowedConcat(a[1..], b);
      calc {
        KeepAllowed(a + b);
        head + KeepAllowed(a[1..] + b);
        head + (KeepAllowed(a[1..]) + KeepAllowed(b));
        (head + KeepAllowed(a[1..])) + KeepAllowed(b);
      }
    }
  }

  lemma SafeNameCons(s: string)
    requires s != []
    ensures SafeName(s) == SafeChar(s[0]) + SafeName(s[1..])
  {
    var head := if s[0] == ' ' then "_" else [s[0]];
    KeepAllowedConcat(head, ReplaceChar(s[1..], ' ', "_"));
    assert KeepAllowed("_") == "_";
  }

  lemma SafeCharCount(d: char, c: char)
    ensures multiset(SafeChar(d))[c] ==
            if Allowed(c) then multiset([d])[c] + (if c == '_' then multiset([d])[' '] else 0) else 0
  {
  }

  /**
   * The sanitiser, character by character: every kept character occurs as
   * often as in the name (underscores also once per space), and no other
   * character occurs at all.
   */
  lemma {:induction false} SafeNameCounts(s: string, c: char)
    ensures multiset(SafeName(s))[c] ==
            if Allowed(c) then multiset(s)[c] + (if c == '_' then multiset(s)[' '] else 0) else 0
    decreases |s|
  {
    if s != [] {
      SafeNameCons(s);
      SafeNameCounts(s[1..], c);
      SafeCharCount(s[0], c);
      assert s == [s[0]] + s[1..];
      assert multiset(s)[c] == multiset([s[0]])[c] + multiset(s[1..])[c];
      assert multiset(s)[' '] == multiset([s[0]])[' '] + multiset(s[1..])[' '];
      assert multiset(SafeName(s))[c] == multiset(SafeChar(s[0]))[c] + multiset(SafeName(s[1..]))[c];
    }
  }

  /** Only letters, digits, "-" and "_" survive. */
  lemma SafeNameAllowed(s: string)
    ensures forall i :: 0 <= i < |SafeName(s)| ==> Allowed(SafeName(s)[i])
  {
    forall i | 0 <= i < |SafeName(s)| ensures Allowed(SafeName(s)[i]) {
      var c := SafeName(s)[i];
      assert c in multiset(SafeName(s));
      SafeNameCounts(s, c);
    }
  }

  /** A name is left unchanged exactly when every character of it is already allowed. */
  lemma {:induction false} SafeNameFixpoint(s: string)
    ensures SafeName(s) == s <==> forall i :: 0 <= i < |s| ==> Allowed(s[i])
    decreases |s|
  {
    if forall i :: 0 <= i < |s| ==> Allowed(s[i]) {
      if s != [] {
        SafeNameCons(s);
        assert forall i :: 0 <= i < |s[1..]| ==> Allowed(s[1..][i]) by {
          assert forall i :: 0 <= i < |s[1..]| ==> s[1..][i] == s[i + 1];
        }
        SafeNameFixpoint(s[1..]);
        assert s == [s[0]] + s[1..];
      }
    } else {
      SafeNameAllowed(s);
    }
  }

  /** Sanitising twice is sanitising once. */
  lemma SafeNameIdempotent(s: string)
    ensures SafeName(SafeName(s)) == SafeName(s)
  {
    SafeNameAllowed(s);
    SafeNameFixpoint(SafeName(s));
  }

  /**
   * The file name always ends in ".pdf" and everything before it is letters,
   * digits, "-" and "_" as long as the user id and the UUID text are (as a
   * UUID's are): the name cannot leave the invoices directory.
   */
  lemma PdfFilenameSafe(userFilename: Option<string>, userId: string, uuidHex: string)
    requires forall i :: 0 <= i < |userId| ==> Allowed(userId[i])
    requires forall i :: 0 <= i < |uuidHex| ==> Allowed(uuidHex[i])
    ensures var r := PdfFilename(userFilename, userId, uuidHex);
            |r| > 4 && r[|r| - 4..] == ".pdf" &&
            forall i :: 0 <= i < |r| - 4 ==> Allowed(r[i])
  {
    var r := PdfFilename(userFilename, userId, uuidHex);
    if userFilename.Some? && userFilename.value != "" && SafeName(userFilename.value) != "" {
      var safe := SafeName(userFilename.value);
      SafeNameAllowed(userFilename.value);
      assert r[..|r| - 4] == safe;
    } else {
      var stem := "rechnung_" + Take(userId, 8) + "_" + Take(uuidHex, 8);
      assert r == stem + ".pdf";
      assert r[..|r| - 4] == stem;
      forall i | 0 <= i < |stem| ensures Allowed(stem[i]) {
        if i >= |"rechnung_"| + |Take(userId, 8)| + 1 {
          assert stem[i] == uuidHex[i - |"rechnung_"| - |Take(userId, 8)| - 1];
        } else if i >= |"rechnung_"| {
          assert i == |"rechnung_"| + |Take(userId, 8)| || stem[i] == userId[i - |"rechnung_"|];
        }
      }
    }
  }

  /** A name that is already safe is used as it is. */
  lemma SafeNameUsed(name: string, userId: string, uuidHex: string)
    requires name != [] && forall i :: 0 <= i < |name| ==> Allowed(name[i])
    ensures PdfFilename(Some(name), userId, uuidHex) == name + ".pdf"
  {
    SafeNameFixpoint(name);
  }

  /** A name with no space and nothing allowed in it, such as "../?", sanitises to nothing. */
  lemma {:induction false} NothingSafe(name: string)
    requires forall i :: 0 <= i < |name| ==> !Allowed(name[i]) && name[i] != ' '
    ensures SafeName(name) == []
    decreases |name|
  {
    if name != [] {
      SafeNameCons(name);
      assert forall i :: 0 <= i < |name[1..]| ==> name[1..][i] == name[i + 1];
      NothingSafe(name[1..]);
    }
  }

  /** Such a name falls back to the generated one. */
  lemma NothingSafeFallsBack(name: string, userId: string, uuidHex: string)
    requires forall i :: 0 <= i < |name| ==> !Allowed(name[i]) && name[i] != ' '
    ensures PdfFilename(Some(name), userId, uuidHex) == FallbackName(userId, uuidHex)
  {
    NothingSafe(name);
  }

  // ---------------------------------------------------------------------------
  // Completing the form from the company profile and the client.
  // ---------------------------------------------------------------------------

  /** The company profile's fields used here; None stands for a user without a profile. */
  datatype Profile = Profile(iban: Option<string>, vatId: Option<string>)

  /**
   * A row of the clients table as crud.get_client returns it: the columns of
   * models.Client, which has no leitweg_id column. None stands for no
   * client_id or a client not found.
   */
  datatype StoredClient = StoredClient(name: string, address: string, zipCode: string, city: string)

  /** The client as the schemas describe it, with its Leitweg-ID. */
  datatype Client = Client(leitwegId: Option<string>)

  /** An exception that ends the request: reading an attribute the object does not have. */
  datatype RequestError = MissingAttribute(name: string)

  /** A Python value that is truthy: present and not the empty string. */
  predicate Truthy(v: Option<string>)
  {
    v.Some? && v.value != ""
  }

  /** The form after the IBAN and VAT ID completions, which look only at the profile. */
  function ProfileCompleted(form: Form, profile: Option<Profile>): Form
  {
    var f1 := if "sender_iban" !in form && profile.Some? && Truthy(profile.value.iban)
              then form["sender_iban" := profile.value.iban.value] else form;
    if "sender_vat_id" !in f1 && profile.Some? && Truthy(profile.value.vatId)
    then f1["sender_vat_id" := profile.value.vatId.value] else f1
  }

  /**
   * The three completions as create_rechnung performs them: a found client is
   * asked for client.leitweg_id, which its row does not have, so the request
   * fails there.
   */
  function FilledAsWritten(form: Form, profile: Option<Profile>, client: Option<StoredClient>): Result<Form, RequestError>
  {
    if client.Some? then Err(MissingAttribute("leitweg_id")) else Ok(ProfileCompleted(form, profile))
  }

  /** form_data_dict updated in place, step by step, until the client's Leitweg-ID is read. */
  method FillFromProfile(form: Form, profile: Option<Profile>, client: Option<StoredClient>)
    returns (r: Result<Form, RequestError>)
    ensures r == FilledAsWritten(form, profile, client)
  {
    var filled := form;
    if "sender_iban" !in filled && profile.Some? && Truthy(profile.value.iban) {
      filled := filled["sender_iban" := profile.value.iban.value];
    }
    if "sender_vat_id" !in filled && profile.Some? && Truthy(profile.value.vatId) {
      filled := filled["sender_vat_id" := profile.value.vatId.value];
    }
    if client.Some? {
      return Err(MissingAttribute("leitweg_id"));
    }
    r := Ok(filled);
  }

  /**
   * What the completion does as written: a found client always ends the
   * request; otherwise a submitted IBAN or VAT ID is never replaced, a
   * missing one is taken from the profile when it has one, and every other
   * field, the Leitweg-ID included, is left alone.
   */
  lemma FilledAsWrittenFields(form: Form, profile: Option<Profile>, client: Option<StoredClient>)
    ensures FilledAsWritten(form, profile, client).Err? <==> client.Some?
    ensures client.Some? ==> FilledAsWritten(form, profile, client) == Err(MissingAttribute("leitweg_id"))
    ensures var r := FilledAsWritten(form, profile, client);
            r.Ok? ==>
            var f := r.value;
            ("sender_iban" in form ==> "sender_iban" in f && f["sender_iban"] == form["sender_iban"]) &&
            ("sender_iban" !in form ==>
               ("sender_iban" in f <==> profile.Some? && Truthy(profile.value.iban)) &&
               ("sender_iban" in f ==> f["sender_iban"] == profile.value.iban.value)) &&
            ("sender_vat_id" in form ==> "sender_vat_id" in f && f["sender_vat_id"] == form["sender_vat_id"]) &&
            ("sender_vat_id" !in form ==>
               ("sender_vat_id" in f <==> profile.Some? && Truthy(profile.value.vatId)) &&
               ("sender_vat_id" in f ==> f["sender_vat_id"] == profile.value.vatId.value)) &&
            (forall k :: k != "sender_iban" && k != "sender_vat_id" ==>
               (k in f <==> k in form) && (k in form ==> f[k] == form[k]))
  {
  }

  /** Selecting an existing client, whatever its row holds, produces no invoice. */
  lemma FoundClientRaises(form: Form, profile: Option<Profile>, client: StoredClient)
    ensures FilledAsWritten(form, profile, Some(client)).Err?
    ensures FilledAsWritten(form, profile, None).Ok?
  {
  }

  /**
   * The completion evidently intended: the client's Leitweg-ID, as the
   * schemas carry it, overrides the form's when it is set.
   */
  function WithProfile(form: Form, profile: Option<Profile>, client: Option<Client>): Form
  {
    var f2 := ProfileCompleted(form, profile);
    if client.Some? && Truthy(client.value.leitwegId) then f2["leitweg_id" := client.value.leitwegId.value] else f2
  }

  /** The intended completion, step by step. */
  method IntendedFillFromProfile(form: Form, profile: Option<Profile>, client: Option<Client>) returns (filled: Form)
    ensures filled == WithProfile(form, profile, client)
  {
    filled := form;
    if "sender_iban" !in filled && profile.Some? && Truthy(profile.value.iban) {
      filled := filled["sender_iban" := profile.value.iban.value];
    }
    if "sender_vat_id" !in filled && profile.Some? && Truthy(profile.value.vatId) {
      filled := filled["sender_vat_id" := profile.value.vatId.value];
    }
    if client.Some? && Truthy(client.value.leitwegId) {
      filled := filled["leitweg_id" := client.value.leitwegId.value];
    }
  }

  /**
   * The intended completion, key by key: the same IBAN and VAT ID handling
   * as written, the client's Leitweg-ID winning over the submitted one, and
   * every other field left alone. Without a client it is what the code does.
   */
  lemma WithProfileFields(form: Form, profile: Option<Profile>, client: Option<Client>)
    ensures var f := WithProfile(form, profile, client);
            ("sender_iban" in form ==> "sender_iban" in f && f["sender_iban"] == form["sender_iban"]) &&
            ("sender_iban" !in form ==>
               ("sender_iban" in f <==> profile.Some? && Truthy(profile.value.iban)) &&
               ("sender_iban" in f ==> f["sender_iban"] == profile.value.iban.value)) &&
            ("sender_vat_id" in form ==> "sender_vat_id" in f && f["sender_vat_id"] == form["sender_vat_id"]) &&
            ("sender_vat_id" !in form ==>
               ("sender_vat_id" in f <==> profile.Some? && Truthy(profile.value.vatId)) &&
               ("sender_vat_id" in f ==> f["sender_vat_id"] == profile.value.vatId.value)) &&
            (client.Some? && Truthy(client.value.leitwegId) ==> "leitweg_id" in f && f["leitweg_id"] == client.value.leitwegId.value) &&
            (!(client.Some? && Truthy(client.value.leitwegId)) ==>
               ("leitweg_id" in f <==> "leitweg_id" in form) && ("leitweg_id" in form ==> f["leitweg_id"] == form["leitweg_id"])) &&
            (forall k :: k != "sender_iban" && k != "sender_vat_id" && k != "leitweg_id" ==>
               (k in f <==> k in form) && (k in form ==> f[k] == form[k]))
    ensures FilledAsWritten(form, profile, None) == Ok(WithProfile(form, profile, None))
  {
  }

  /** A profile IBAN the form did not carry ends up as the document's payee IBAN, when the request gets that far. */
  lemma ProfileIbanInDocument(form: Form, profile: Option<Profile>, client: Option<StoredClient>, t: Totals)
    requires "sender_iban" !in form && profile.Some? && Truthy(profile.value.iban)
    ensures var r := FilledAsWritten(form, profile, client);
            r.Ok? ==>
              TextAt(SettlementXml(r.value, t),
                     [SpecifiedTradeSettlementPaymentMeans, PayeePartyCreditorFinancialAccount, IBANID])
              == Some(profile.value.iban.value)
  {
    FilledAsWrittenFields(form, profile, client);
    if client.None? {
      PaymentMeansPresent(ProfileCompleted(form, profile), t);
    }
  }

  /**
   * The profile is consulted only when the key is missing, not when it is
   * empty: a form that submits an empty sender_iban keeps it empty, and the
   * document then carries no payment means at all, whatever the profile says.
   */
  lemma EmptyIbanBlocksProfile(form: Form, profile: Option<Profile>, client: Option<StoredClient>, t: Totals)
    requires "sender_iban" in form && form["sender_iban"] == ""
    ensures var r := FilledAsWritten(form, profile, client);
            r.Ok? ==> !HasChild(SettlementXml(r.value, t), SpecifiedTradeSettlementPaymentMeans)
  {
    FilledAsWrittenFields(form, profile, client);
    if client.None? {
      PaymentMeansAbsent(ProfileCompleted(form, profile), t);
    }
  }

  /** Under the intended completion, a selected client's Leitweg-ID becomes the document's BuyerReference. */
  lemma ClientLeitwegInDocument(form: Form, profile: Option<Profile>, client: Option<Client>)
    requires client.Some? && Truthy(client.value.leitwegId)
    ensures TextAt(BuyerXml(WithProfile(form, profile, client)), [BuyerReference]) == Some(client.value.leitwegId.value)
  {
    WithProfileFields(form, profile, client);
    BuyerReferencePresence(WithProfile(form, profile, client));
  }

  // ---------------------------------------------------------------------------
  // total_amount of the database record.
  // ---------------------------------------------------------------------------

  /** The gross the loop stores: the net plus each line's unrounded VAT at the item's own rate. */
  function StoredGross(items: seq<LineItem>): real
  {
    SumNet(items) + SumExactVat(items, false)
  }

  /**
   * The loop of create_rechnung over the items: total_netto += quantity *
   * unit_price and total_vat += line_netto * (vat_rate / 100), each number
   * read with Decimal(str(item.get(key) or "0")).
   */
  method DatabaseTotal(items: seq<LineItem>) returns (total: real)
    ensures total == StoredGross(items)
  {
    var totalNet := 0.0;
    var totalVat := 0.0;
    var i := 0;
    while i < |items|
      invariant i <= |items|
      invariant totalNet == SumNet(items[..i])
      invariant totalVat == SumExactVat(items[..i], false)
    {
      var item := items[i];
      var vatRate := ReadNumber(item.vatRate);
      var lineNet := LineNet(item);
      var lineVat := Percent(lineNet, Value(vatRate));
      SumsStep(items, i, false);
      totalNet := totalNet + lineNet;
      totalVat := totalVat + lineVat;
      i := i + 1;
    }
    assert items[..i] == items;
    total := totalNet + totalVat;
  }

  lemma SumsStep(items: seq<LineItem>, i: nat, smallBusiness: bool)
    requires i < |items|
    ensures SumNet(items[..i + 1]) == SumNet(items[..i]) + LineNet(items[i])
    ensures SumExactVat(items[..i + 1], smallBusiness) == SumExactVat(items[..i], smallBusiness) + ExactLineVat(items[i], smallBusiness)
  {
    assert items[..i + 1][..i] == items[..i];
  }

  /**
   * For a regular invoice the stored total differs from the printed gross
   * only by the per-line rounding of the VAT: at most half a cent per line.
   */
  lemma StoredGrossNearPrinted(items: seq<LineItem>)
    ensures var d := TotalsOf(items, false).gross - StoredGross(items);
            -0.005 * |items| as real <= d <= 0.005 * |items| as real
  {
    TotalsConsistent(items, false);
    VatRoundingBound(items, false);
  }

  /** One item of 1 x 100.00 at 19 %. */
  function SampleItem(): LineItem
  {
    LineItem(None, Some(Decimal(1, 0)), Some(Decimal(10000, -2)), Some(Decimal(19, 0)))
  }

  /**
   * The loop ignores is_small_business: for a small business invoicing one
   * item of 1 x 100.00 at 19 %, the PDF shows a gross of 100 but the record
   * stores 119.
   */
  lemma StoredGrossIgnoresSmallBusiness()
    ensures TotalsOf([SampleItem()], true).gross == 100.0
    ensures StoredGross([SampleItem()]) == 119.0
  {
    var items := [SampleItem()];
    SmallBusinessTotals(items);
    TotalsConsistent(items, true);
    assert items[..0] == [];
    assert Value(Decimal(10000, -2)) == 100.0 by {
      assert Scale(-2) == 0.01;
    }
    assert LineNet(SampleItem()) == 100.0;
    assert ExactLineVat(SampleItem(), false) == 19.0;
  }

  /** The stored gross with the invoice's own rates: 0 for every line of a small business. */
  function IntendedStoredGross(items: seq<LineItem>, smallBusiness: bool): real
  {
    SumNet(items) + SumExactVat(items, smallBusiness)
  }

  /** The loop taking is_small_business into account, as the totals engine does. */
  method IntendedDatabaseTotal(items: seq<LineItem>, smallBusiness: bool) returns (total: real)
    ensures total == IntendedStoredGross(items, smallBusiness)
  {
    var totalNet := 0.0;
    var totalVat := 0.0;
    var i := 0;
    while i < |items|
      invariant i <= |items|
      invariant totalNet == SumNet(items[..i])
      invariant totalVat == SumExactVat(items[..i], smallBusiness)
    {
      var item := items[i];
      var vatRate := EffectiveRate(item, smallBusiness);
      var lineNet := LineNet(item);
      var lineVat := Percent(lineNet, Value(vatRate));
      SumsStep(items, i, smallBusiness);
      totalNet := totalNet + lineNet;
      totalVat := totalVat + lineVat;
      i := i + 1;
    }
    assert items[..i] == items;
    total := totalNet + totalVat;
  }

  /**
   * The corrected total agrees with the printed gross: exactly for a small
   * business, and up to half a cent per line otherwise.
   */
  lemma IntendedStoredGrossMatchesPrinted(items: seq<LineItem>, smallBusiness: bool)
    ensures smallBusiness ==> IntendedStoredGross(items, true) == TotalsOf(items, true).gross
    ensures var d := TotalsOf(items, smallBusiness).gross - IntendedStoredGross(items, smallBusiness);
            -0.005 * |items| as real <= d <= 0.005 * |items| as real
  {
    TotalsConsistent(items, smallBusiness);
    VatRoundingBound(items, smallBusiness);
    if smallBusiness {
      SmallBusinessTotals(items);
      TotalsConsistent(items, true);
      UniformExactVat(items, true, 0.0);
    }
  }
}
