/**
 * The PDF/A-3 step (_make_pdfa_compliant): the rendered pages are copied into
 * a new writer, and the document catalog gets the XMP metadata, an output
 * intent when an ICC profile is available, and the trade document as an
 * associated embedded file "factur-x.xml". PDF objects are modelled as values;
 * the byte-level reading and writing are not.
 */
module PdfAssembly {
  import opened Wrappers
  import XmlTree

  /** What a stream object carries. */
  datatype Payload =
    | Bytes(data: seq<bv8>)
    /** The XMP packet; only the two form fields it quotes are kept. */
    | XmpPacket(invoiceNumber: string, creator: string)
    /** ET.tostring(root, encoding='UTF-8', xml_declaration=True) of a tree. */
    | XmlDocument(root: XmlTree.Element)

  /** The PDF names the step writes, and any other name by its spelling. */
  datatype PdfName =
    | Type | Subtype | Catalog | Metadata | XML
    | OutputIntents | OutputIntent | S | GTS_PDFA1 | OutputConditionIdentifier | Info | DestOutputProfile
    | N | Alternate | DeviceRGB
    | EmbeddedFile | TextXml | Params | ModDate
    | Filespec | F | EF | Desc | AFRelationship | Data
    | Names | EmbeddedFiles | AF
    | Other(spelling: string)

  /** How a name is written in the file. */
  function Spelling(n: PdfName): string
  {
    match n
    case Type => "/Type"
    case Subtype => "/Subtype"
    case Catalog => "/Catalog"
    case Metadata => "/Metadata"
    case XML => "/XML"
    case OutputIntents => "/OutputIntents"
    case OutputIntent => "/OutputIntent"
    case S => "/S"
    case GTS_PDFA1 => "/GTS_PDFA1"
    case OutputConditionIdentifier => "/OutputConditionIdentifier"
    case Info => "/Info"
    case DestOutputProfile => "/DestOutputProfile"
    case N => "/N"
    case Alternate => "/Alternate"
    case DeviceRGB => "/DeviceRGB"
    case EmbeddedFile => "/EmbeddedFile"
    case TextXml => "/text/xml"
    case Params => "/Params"
    case ModDate => "/ModDate"
    case Filespec => "/Filespec"
    case F => "/F"
    case EF => "/EF"
    case Desc => "/Desc"
    case AFRelationship => "/AFRelationship"
    case Data => "/Data"
    case Names => "/Names"
    case EmbeddedFiles => "/EmbeddedFiles"
    case AF => "/AF"
    case Other(spelling) => spelling
  }

  /** A PDF object: names, text strings, indirect references, arrays, dictionaries and streams. */
  datatype PdfValue =
    | Name(name: PdfName)
    | Text(text: string)
    | Ref(index: nat)
    | Array(items: seq<PdfValue>)
    | Dict(entries: map<PdfName, PdfValue>)
    | Stream(header: map<PdfName, PdfValue>, payload: Payload)

  type Catalog = map<PdfName, PdfValue>

  // ---------------------------------------------------------------------------
  // The two catalog updates the source uses.
  // ---------------------------------------------------------------------------

  /**
   * root.setdefault(key, ArrayObject()).append(v): a missing entry becomes
   * [v], an array grows by v; any other value has no append (None).
   */
  function AppendEntry(root: Catalog, key: PdfName, v: PdfValue): Option<Catalog>
  {
    if key !in root then Some(root[key := Array([v])])
    else if root[key].Array? then Some(root[key := Array(root[key].items + [v])])
    else None
  }

  /**
   * root.setdefault(outer, DictionaryObject()).setdefault(inner, v): the
   * dictionary under outer is created when missing and gets inner only when
   * it has no such entry yet; a value under outer that is no dictionary has
   * no setdefault (None).
   */
  function SetDefaultIn(root: Catalog, outer: PdfName, inner: PdfName, v: PdfValue): Option<Catalog>
  {
    if outer !in root then Some(root[outer := Dict(map[inner := v])])
    else if root[outer].Dict? then
      (if inner in root[outer].entries then Some(root)
       else Some(root[outer := Dict(root[outer].entries[inner := v])]))
    else None
  }

  /** Appending fails exactly on an entry that is not an array; otherwise v ends the array and nothing else changes. */
  lemma AppendEntryKeeps(root: Catalog, key: PdfName, v: PdfValue)
    ensures var r := AppendEntry(root, key, v);
            (r.None? <==> key in root && !root[key].Array?) &&
            (r.Some? ==>
               r.value.Keys == root.Keys + {key} &&
               r.value[key] == Array((if key in root then root[key].items else []) + [v]) &&
               forall k :: k in root && k != key ==> r.value[k] == root[k])
  {
  }

  /** Items already in the array stay in front, in their order. */
  lemma AppendEntryPrefix(root: Catalog, key: PdfName, v: PdfValue)
    requires key in root && root[key].Array?
    ensures var r := AppendEntry(root, key, v);
            r.Some? && r.value[key].Array? &&
            |r.value[key].items| == |root[key].items| + 1 &&
            r.value[key].items[..|root[key].items|] == root[key].items &&
            r.value[key].items[|root[key].items|] == v
  {
    var r := AppendEntry(root, key, v);
    assert r.value[key].items == root[key].items + [v];
  }

  /**
   * setdefault never overrides: an existing inner entry keeps its value and
   * the catalog is unchanged; a new one is added beside the old entries.
   */
  lemma SetDefaultInKeeps(root: Catalog, outer: PdfName, inner: PdfName, v: PdfValue)
    ensures var r := SetDefaultIn(root, outer, inner, v);
            (r.None? <==> outer in root && !root[outer].Dict?) &&
            (r.Some? ==>
               r.value.Keys == root.Keys + {outer} &&
               r.value[outer].Dict? && inner in r.value[outer].entries &&
               r.value[outer].entries[inner] == (if outer in root && inner in root[outer].entries then root[outer].entries[inner] else v) &&
               (forall k :: k in root && k != outer ==> r.value[k] == root[k]) &&
               (outer in root ==> forall k :: k in root[outer].entries ==> r.value[outer].entries[k] == root[outer].entries[k]))
  {
  }

  // ---------------------------------------------------------------------------
  // The writer.
  // ---------------------------------------------------------------------------

  /** The part of pypdf's PdfWriter the source touches: pages, added objects and the root catalog. */
  class PdfWriter {
    var pages: seq<PdfValue>
    var objects: seq<PdfValue>
    var root: Catalog

    /** A new writer: no pages, no added objects, a bare catalog. */
    constructor()
      ensures pages == [] && objects == [] && root == map[Type := Name(Catalog)]
    {
      pages := [];
      objects := [];
      root := map[Type := Name(Catalog)];
    }

    /** writer.add_page(page). */
    method AddPage(page: PdfValue)
      modifies this
      ensures pages == old(pages) + [page]
      ensures objects == old(objects) && root == old(root)
    {
      pages := pages + [page];
    }

    /** writer._add_object(obj): the object is stored and a reference to it returned. */
    method AddObject(obj: PdfValue) returns (r: PdfValue)
      modifies this
      ensures objects == old(objects) + [obj]
      ensures r == Ref(|old(objects)|) && objects[r.index] == obj
      ensures pages == old(pages) && root == old(root)
    {
      r := Ref(|objects|);
      objects := objects + [obj];
    }

    /** writer._root_object[key] = v. */
    method SetEntry(key: PdfName, v: PdfValue)
      modifies this
      ensures root == old(root)[key := v]
      ensures pages == old(pages) && objects == old(objects)
    {
      root := root[key := v];
    }

    /** writer._root_object.setdefault(key, ArrayObject()).append(v); false when the entry cannot take it. */
    method AppendTo(key: PdfName, v: PdfValue) returns (ok: bool)
      modifies this
      ensures ok == AppendEntry(old(root), key, v).Some?
      ensures root == (if ok then AppendEntry(old(root), key, v).value else old(root))
      ensures pages == old(pages) && objects == old(objects)
    {
      var grown := AppendEntry(root, key, v);
      ok := grown.Some?;
      if ok {
        root := grown.value;
      }
    }

    /** writer._root_object.setdefault(outer, DictionaryObject()).setdefault(inner, v). */
    method SetDefaultNested(outer: PdfName, inner: PdfName, v: PdfValue) returns (ok: bool)
      modifies this
      ensures ok == SetDefaultIn(old(root), outer, inner, v).Some?
      ensures root == (if ok then SetDefaultIn(old(root), outer, inner, v).value else old(root))
      ensures pages == old(pages) && objects == old(objects)
    {
      var updated := SetDefaultIn(root, outer, inner, v);
      ok := updated.Some?;
      if ok {
        root := updated.value;
      }
    }
  }

  // ---------------------------------------------------------------------------
  // The objects _make_pdfa_compliant adds.
  // ---------------------------------------------------------------------------

  const FacturXName := "factur-x.xml"

  /** The XMP metadata stream. */
  function MetadataStream(xmp: Payload): PdfValue
  {
    Stream(map[Type := Name(Metadata), Subtype := Name(XML)], xmp)
  }

  /** The ICC profile stream: three components, DeviceRGB as the alternate. */
  function IccStream(icc: seq<bv8>): PdfValue
  {
    Stream(map[N := Name(Other("3")), Alternate := Name(DeviceRGB)], Bytes(icc))
  }

  /** The output intent pointing at the ICC profile stream. */
  function IntentFor(profile: PdfValue): PdfValue
  {
    Dict(map[
      Type := Name(OutputIntent),
      S := Name(GTS_PDFA1),
      OutputConditionIdentifier := Text("sRGB IEC61966-2.1"),
      Info := Text("sRGB IEC61966-2.1"),
      DestOutputProfile := profile])
  }

  /** The embedded file stream of the invoice XML, with its MIME subtype and modification date. */
  function EmbeddedXml(xml: Payload, modDate: string): PdfValue
  {
    Stream(map[
      Type := Name(EmbeddedFile),
      Subtype := Name(TextXml),
      Params := Dict(map[ModDate := Text(modDate)])], xml)
  }

  /** The file specification of factur-x.xml, related to the document as its data. */
  function FileSpec(stream: PdfValue): PdfValue
  {
    Dict(map[
      Type := Name(Filespec),
      F := Text(FacturXName),
      EF := Dict(map[F := stream]),
      Desc := Text("Factur-X Invoice"),
      AFRelationship := Name(Data)])
  }

  /** The name tree entry: the file name, then the file specification. */
  function EmbeddedFilesEntry(spec: PdfValue): PdfValue
  {
    Dict(map[Names := Array([Text(FacturXName), spec])])
  }

  /** The PDF date of the embedded file: D:YYYYMMDDHHMMSS+00'00' from a fourteen-digit stamp of now(). */
  function PdfDate(stamp: string): string
  {
    "D:" + stamp + "+00'00'"
  }

  /** A new writer holding the pages read from the rendered document, in order. */
  method CopyPages(pages: seq<PdfValue>) returns (w: PdfWriter)
    ensures fresh(w)
    ensures w.pages == pages && w.objects == [] && w.root == map[Type := Name(Catalog)]
  {
    w := new PdfWriter();
    var i := 0;
    while i < |pages|
      invariant 0 <= i <= |pages|
      invariant w.pages == pages[..i]
      invariant w.objects == [] && w.root == map[Type := Name(Catalog)]
    {
      w.AddPage(pages[i]);
      assert pages[..i + 1] == pages[..i] + [pages[i]];
      i := i + 1;
    }
    assert pages[..i] == pages;
  }

  /** An update that succeeded, or the catalog as it was. */
  function Updated(r: Option<Catalog>, before: Catalog): Catalog
  {
    if r.Some? then r.value else before
  }

  /** The catalog after the step: metadata, the output intent if any, the name tree entry, /AF. */
  function CompliantCatalog(hasIcc: bool): Catalog
  {
    var metadata := map[Type := Name(Catalog)][Metadata := Ref(0)];
    var intents := if hasIcc then Updated(AppendEntry(metadata, OutputIntents, IntentFor(Ref(1))), metadata) else metadata;
    var spec := Ref(if hasIcc then 3 else 2);
    var named := Updated(SetDefaultIn(intents, Names, EmbeddedFiles, EmbeddedFilesEntry(spec)), intents);
    Updated(AppendEntry(named, AF, spec), named)
  }

  /** The objects the step adds, in the order it adds them. */
  function CompliantObjects(xml: Payload, xmp: Payload, icc: Option<seq<bv8>>, stamp: string): seq<PdfValue>
  {
    var stream := Ref(if icc.Some? then 2 else 1);
    [MetadataStream(xmp)] + (if icc.Some? then [IccStream(icc.value)] else []) +
    [EmbeddedXml(xml, PdfDate(stamp))] + [FileSpec(stream)]
  }

  /**
   * _make_pdfa_compliant: a new writer with the rendered pages in order and
   * the catalog and objects above. The profile file's existence and content,
   * the clock and the XMP text are parameters.
   */
  method MakePdfaCompliant(pages: seq<PdfValue>, xml: Payload, xmp: Payload, icc: Option<seq<bv8>>, stamp: string)
    returns (w: PdfWriter)
    ensures fresh(w)
    ensures w.pages == pages
    ensures w.objects == CompliantObjects(xml, xmp, icc, stamp)
    ensures w.root == CompliantCatalog(icc.Some?)
  {
    w := CopyPages(pages);

    // 1. XMP metadata.
    var metadata := w.AddObject(MetadataStream(xmp));
    w.SetEntry(Metadata, metadata);
    assert w.objects == [MetadataStream(xmp)];

    // 2. Output intent, when the ICC profile exists.
    if icc.Some? {
      var profile := w.AddObject(IccStream(icc.value));
      var ok := w.AppendTo(OutputIntents, IntentFor(profile));
    }
    assert w.objects == [MetadataStream(xmp)] + (if icc.Some? then [IccStream(icc.value)] else []);

    // 3. The embedded invoice XML and its file specification.
    var stream := w.AddObject(EmbeddedXml(xml, PdfDate(stamp)));
    var spec := w.AddObject(FileSpec(stream));
    var named := w.SetDefaultNested(Names, EmbeddedFiles, EmbeddedFilesEntry(spec));
    var associated := w.AppendTo(AF, spec);
  }

  /**
   * The catalog has exactly /Type, /Metadata, /Names, /AF and, with a
   * profile, /OutputIntents; the file specification is both in the
   * EmbeddedFiles name tree under "factur-x.xml" and the only associated file.
   */
  lemma CatalogEntries(hasIcc: bool)
    ensures var root := CompliantCatalog(hasIcc);
            var spec := Ref(if hasIcc then 3 else 2);
            root.Keys == {Type, Metadata, Names, AF} + (if hasIcc then {OutputIntents} else {}) &&
            root[Type] == Name(Catalog) && root[Metadata] == Ref(0) &&
            (hasIcc ==> root[OutputIntents] == Array([IntentFor(Ref(1))])) &&
            root[Names] == Dict(map[EmbeddedFiles := Dict(map[Names := Array([Text(FacturXName), spec])])]) &&
            root[AF] == Array([spec])
  {
  }

  /**
   * Every reference of the catalog points at the intended object: the XMP
   * stream, the ICC profile, and the file specification whose /EF leads to
   * the embedded XML stream.
   */
  lemma CatalogReferences(xml: Payload, xmp: Payload, icc: Option<seq<bv8>>, stamp: string)
    ensures var objects := CompliantObjects(xml, xmp, icc, stamp);
            var root := CompliantCatalog(icc.Some?);
            var spec := root[AF].items[0].index;
            root[Metadata].index < |objects| && objects[root[Metadata].index] == MetadataStream(xmp) &&
            (icc.Some? ==> objects[root[OutputIntents].items[0].entries[DestOutputProfile].index] == IccStream(icc.value)) &&
            spec < |objects| && objects[spec] == FileSpec(Ref(spec - 1)) &&
            objects[spec - 1] == EmbeddedXml(xml, PdfDate(stamp))
  {
    CatalogEntries(icc.Some?);
  }
}
