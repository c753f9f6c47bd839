/**
 * The footer text of every page (_draw_header_and_footer): the notes block on
 * the left, with the section 19 UStG sentence put in front for a small
 * business, and the company details on the right, one line per filled field.
 * Both are ReportLab markup; drawing them is not modelled.
 */
module InvoiceFooter {
  import opened Forms
  import opened Text
  import opened Amounts

  /** The sentence a small business must print. */
  const SmallBusinessSentence := "Gemäß " + [SectionSign] + " 19 UStG wird keine Umsatzsteuer berechnet."

  /** U+00A7, the section sign. */
  const SectionSign: char := '\U{A7}'

  /** The sentence as the source prepends it to the notes, with its newline. */
  const SmallBusinessNote := SmallBusinessSentence + "\n"

  const NotesHeading := "<b>Anmerkungen / Zahlungsbedingungen:</b><br/>"

  const LineBreak := "<br/>"

  /** The notes the footer shows: form_data.get('notes', ''), with the sentence in front for a small business. */
  function NotesText(form: Form): string
  {
    var notes := Get(form, "notes", "");
    if SmallBusiness(form) then SmallBusinessNote + notes else notes
  }

  /** footer_lines: one line when the notes are not blank, its newlines turned into line breaks. */
  function NotesLines(form: Form): seq<string>
  {
    var notes := Strip(NotesText(form));
    if notes != "" then [NotesHeading + ReplaceChar(notes, '\n', LineBreak)] else []
  }

  const DirectorTitle := "Geschäftsführer"

  /** The five fields of the details block with their titles. */
  predicate IsDetailField(key: string, title: string)
  {
    (key == "sender_iban" && title == "IBAN") ||
    (key == "sender_tax_id" && title == "Steuernummer") ||
    (key == "register_court" && title == "Amtsgericht") ||
    (key == "register_number" && title == "Registernummer") ||
    (key == "managing_director" && title == DirectorTitle)
  }

  function DetailLine(title: string, value: string): string
  {
    "<b>" + title + ":</b> " + value
  }

  /** The line a field contributes: one when the field is filled, none otherwise. */
  function FieldLine(form: Form, key: string, title: string): (lines: seq<string>)
    ensures |lines| <= 1
  {
    if Filled(form, key) then [DetailLine(title, form[key])] else []
  }

  /** details_lines: IBAN, Steuernummer, Amtsgericht, Registernummer, Geschäftsführer, each when filled. */
  function DetailLines(form: Form): seq<string>
  {
    FieldLine(form, "sender_iban", "IBAN") +
    FieldLine(form, "sender_tax_id", "Steuernummer") +
    FieldLine(form, "register_court", "Amtsgericht") +
    FieldLine(form, "register_number", "Registernummer") +
    FieldLine(form, "managing_director", DirectorTitle)
  }

  /** The notes paragraph: the lines of footer_lines joined with line breaks. */
  method NotesParagraph(form: Form) returns (markup: string)
    ensures markup == Join(LineBreak, NotesLines(form))
  {
    var footerLines: seq<string> := [];
    var notes := Get(form, "notes", "");
    if SmallBusiness(form) {
      notes := SmallBusinessNote + notes;
    }
    if Strip(notes) != "" {
      footerLines := footerLines + [NotesHeading + ReplaceChar(Strip(notes), '\n', LineBreak)];
    }
    assert footerLines == NotesLines(form);
    markup := Join(LineBreak, footerLines);
  }

  /** The details paragraph: a line per filled field, in the fixed order, joined with line breaks. */
  method DetailsParagraph(form: Form) returns (markup: string)
    ensures markup == Join(LineBreak, DetailLines(form))
  {
    var lines: seq<string> := [];
    if Filled(form, "sender_iban") {
      lines := lines + [DetailLine("IBAN", form["sender_iban"])];
    }
    assert lines == FieldLine(form, "sender_iban", "IBAN");
    if Filled(form, "sender_tax_id") {
      lines := lines + [DetailLine("Steuernummer", form["sender_tax_id"])];
    }
    assert lines == FieldLine(form, "sender_iban", "IBAN") + FieldLine(form, "sender_tax_id", "Steuernummer");
    if Filled(form, "register_court") {
      lines := lines + [DetailLine("Amtsgericht", form["register_court"])];
    }
    assert lines == FieldLine(form, "sender_iban", "IBAN") + FieldLine(form, "sender_tax_id", "Steuernummer") +
                    FieldLine(form, "register_court", "Amtsgericht");
    if Filled(form, "register_number") {
      lines := lines + [DetailLine("Registernummer", form["register_number"])];
    }
    assert lines == FieldLine(form, "sender_iban", "IBAN") + FieldLine(form, "sender_tax_id", "Steuernummer") +
                    FieldLine(form, "register_court", "Amtsgericht") + FieldLine(form, "register_number", "Registernummer");
    if Filled(form, "managing_director") {
      lines := lines + [DetailLine(DirectorTitle, form["managing_director"])];
    }
    assert lines == DetailLines(form);
    markup := Join(LineBreak, lines);
  }

  /** The two footer paragraphs, side by side in the footer table. */
  method BuildFooter(form: Form) returns (notes: string, details: string)
    ensures notes == Join(LineBreak, NotesLines(form))
    ensures details == Join(LineBreak, DetailLines(form))
  {
    notes := NotesParagraph(form);
    details := DetailsParagraph(form);
  }

  // ---------------------------------------------------------------------------
  // The notes block.
  // ---------------------------------------------------------------------------

  /** Replacing a character by a text without it leaves no occurrence of it. */
  lemma {:induction false} ReplaceCharRemoves(s: string, a: char, b: string)
    requires a !in b
    ensures a !in ReplaceChar(s, a, b)
  {
    if s != [] {
      ReplaceCharRemoves(s[1..], a, b);
    }
  }

  /** Stripping keeps a prefix that starts and ends with non-whitespace. */
  lemma StripKeepsPrefix(p: string, s: string)
    requires p != [] && !IsSpace(p[0]) && !IsSpace(p[|p| - 1])
    requires StartsWith(s, p)
    ensures StartsWith(Strip(s), p)
  {
    assert s[0] == p[0];
    assert StripLeft(s) == s;
    var r := StripRight(s);
    assert s[|p| - 1] == p[|p| - 1];
    assert r[..|p|] == s[..|p|];
  }

  lemma PrefixOfConcat(p: string, a: string, b: string)
    ensures StartsWith(p + a + b, p)
  {
    assert (p + a + b)[..|p|] == p;
  }

  /**
   * A small business always gets the notes block, and its text opens with the
   * section 19 UStG sentence, whatever the notes say.
   */
  lemma SmallBusinessNotes(form: Form)
    requires SmallBusiness(form)
    ensures |NotesLines(form)| == 1
    ensures StartsWith(Strip(NotesText(form)), SmallBusinessSentence)
  {
    var p := SmallBusinessSentence;
    assert p[0] == 'G' && p[49] == '.';
    PrefixOfConcat(p, "\n", Get(form, "notes", ""));
    StripKeepsPrefix(p, NotesText(form));
  }

  /** Otherwise the notes block is left out exactly when the notes are blank. */
  lemma RegularNotes(form: Form)
    requires !SmallBusiness(form)
    ensures var notes := Get(form, "notes", "");
            NotesLines(form) == [] <==> forall i :: 0 <= i < |notes| ==> IsSpace(notes[i])
  {
    StripEmpty(Get(form, "notes", ""));
  }

  /** Every newline of the notes has become a line break: after the heading, the markup holds no raw newline. */
  lemma NotesSingleLine(form: Form)
    ensures forall k :: 0 <= k < |NotesLines(form)| ==>
              StartsWith(NotesLines(form)[k], NotesHeading) && '\n' !in NotesLines(form)[k][|NotesHeading|..]
  {
    var notes := Strip(NotesText(form));
    if notes != "" {
      var body := ReplaceChar(notes, '\n', LineBreak);
      ReplaceCharRemoves(notes, '\n', LineBreak);
      assert (NotesHeading + body)[|NotesHeading|..] == body;
    }
  }

  // ---------------------------------------------------------------------------
  // The details block.
  // ---------------------------------------------------------------------------

  /** The character right after "<b>" is the title's first one. */
  lemma DetailLineTitle(title: string, value: string)
    requires title != []
    ensures DetailLine(title, value)[3] == title[0]
  {
  }

  /** A line of the block has the title of a filled field and that field's value. */
  lemma DetailLineOrigin(form: Form, line: string) returns (key: string, title: string)
    requires line in DetailLines(form)
    ensures IsDetailField(key, title) && Filled(form, key) && line == DetailLine(title, form[key])
  {
    var a := FieldLine(form, "sender_iban", "IBAN");
    var b := FieldLine(form, "sender_tax_id", "Steuernummer");
    var c := FieldLine(form, "register_court", "Amtsgericht");
    var d := FieldLine(form, "register_number", "Registernummer");
    var e := FieldLine(form, "managing_director", DirectorTitle);
    assert DetailLines(form) == a + b + c + d + e;
    if line in a {
      key, title := "sender_iban", "IBAN";
    } else if line in b {
      key, title := "sender_tax_id", "Steuernummer";
    } else if line in c {
      key, title := "register_court", "Amtsgericht";
    } else if line in d {
      key, title := "register_number", "Registernummer";
    } else {
      key, title := "managing_director", DirectorTitle;
    }
  }

  /**
   * A field's detail line is printed exactly when the field is filled; the
   * five titles start with different letters, so no other line can pass for it.
   */
  lemma DetailShown(form: Form, key: string, title: string)
    requires IsDetailField(key, title)
    ensures DetailLine(title, Get(form, key, "")) in DetailLines(form) <==> Filled(form, key)
  {
    var line := DetailLine(title, Get(form, key, ""));
    if !Filled(form, key) && line in DetailLines(form) {
      var key', title' := DetailLineOrigin(form, line);
      DetailLineTitle(title, Get(form, key, ""));
      DetailLineTitle(title', form[key']);
      assert false;
    }
  }
}
