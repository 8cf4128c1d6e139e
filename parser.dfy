/** Document parsing (services/knowledge/services/parser.py): the format is
    chosen from the content type or the file extension, first matching
    branch first, and each branch assembles text and metadata from what its
    library reads out of the file. Those library outputs are the inputs of
    this model. */
module Parser {
  import opened Common
  import opened Text

  /** `{"text": ..., "metadata": ...}`. */
  datatype ParsedDoc = ParsedDoc(text: string, metadata: Metadata)

  // ---------------------------------------------------------------------
  // Extension and dispatch

  /** The text after the last '.', or all of `s` when it has none. */
  function AfterLastDot(s: string): (r: string)
    ensures |r| <= |s| && r == s[|s| - |r|..]
    ensures '.' !in r
    ensures |r| < |s| ==> s[|s| - |r| - 1] == '.'
  {
    if |s| == 0 then ""
    else if s[|s| - 1] == '.' then ""
    else
      var t := AfterLastDot(s[..|s| - 1]);
      assert s[..|s| - 1][|s| - 1 - |t|..] + [s[|s| - 1]] == s[|s| - |t| - 1..];
      t + [s[|s| - 1]]
  }

  /** `filename.lower().split('.')[-1] if '.' in filename else ''`. */
  function Extension(filename: string): (r: string)
    ensures '.' !in filename ==> r == ""
    ensures '.' in filename ==>
      |r| < |filename| && r == Lower(filename)[|filename| - |r|..] && '.' !in r
      && Lower(filename)[|filename| - |r| - 1] == '.'
  {
    if '.' in filename then
      var low := Lower(filename);
      var i :| 0 <= i < |filename| && filename[i] == '.';
      assert low[i] == '.';
      var r := AfterLastDot(low);
      assert r != low && low[0..] == low;
      r
    else ""
  }

  /** The branches of `parse`, in the order they are tried. */
  datatype Format = Pdf | Docx | PlainText | Csv | Excel | Json | Html | Pptx | Rtf | Image | Fallback

  function Order(f: Format): nat {
    match f
    case Pdf => 0 case Docx => 1 case PlainText => 2 case Csv => 3 case Excel => 4
    case Json => 5 case Html => 6 case Pptx => 7 case Rtf => 8 case Image => 9 case Fallback => 10
  }

  const DOCX_TYPE := "application/vnd.openxmlformats-officedocument.wordprocessingml.document"
  const XLSX_TYPE := "application/vnd.openxmlformats-officedocument.spreadsheetml.sheet"
  const PPTX_TYPE := "application/vnd.openxmlformats-officedocument.presentationml.presentation"

  /** The condition of each branch on its own. */
  predicate Matches(f: Format, ct: string, ext: string) {
    match f
    case Pdf => ct == "application/pdf" || ext == "pdf"
    case Docx => ct == DOCX_TYPE || ext == "docx"
    case PlainText => ct in ["text/plain", "text/markdown"] || ext in ["txt", "md"]
    case Csv => ct == "text/csv" || ext == "csv"
    case Excel => ct in [XLSX_TYPE, "application/vnd.ms-excel"] || ext in ["xlsx", "xls"]
    case Json => ct == "application/json" || ext == "json"
    case Html => ct == "text/html" || ext in ["html", "htm"]
    case Pptx => ct == PPTX_TYPE || ext == "pptx"
    case Rtf => ct == "application/rtf" || ext == "rtf"
    case Image => StartsWith(ct, "image/") || ext in ["png", "jpg", "jpeg", "gif", "bmp", "tiff"]
    case Fallback => true
  }

  /** The `if`/`elif` chain of `parse`. */
  function ChooseFormat(ct: string, ext: string): Format {
    if Matches(Pdf, ct, ext) then Pdf
    else if Matches(Docx, ct, ext) then Docx
    else if Matches(PlainText, ct, ext) then PlainText
    else if Matches(Csv, ct, ext) then Csv
    else if Matches(Excel, ct, ext) then Excel
    else if Matches(Json, ct, ext) then Json
    else if Matches(Html, ct, ext) then Html
    else if Matches(Pptx, ct, ext) then Pptx
    else if Matches(Rtf, ct, ext) then Rtf
    else if Matches(Image, ct, ext) then Image
    else Fallback
  }

  /** The chosen branch is the first whose condition holds; the fallback is
      taken exactly when no other branch's condition holds. */
  lemma ChooseFormatFirstMatch(ct: string, ext: string)
    ensures Matches(ChooseFormat(ct, ext), ct, ext)
    ensures forall g :: Order(g) < Order(ChooseFormat(ct, ext)) ==> !Matches(g, ct, ext)
    ensures ChooseFormat(ct, ext) == Fallback <==> forall g :: g != Fallback ==> !Matches(g, ct, ext)
  {
    var f := ChooseFormat(ct, ext);
    forall g | Order(g) < Order(f) ensures !Matches(g, ct, ext) {
      match g
      case Pdf => case Docx => case PlainText => case Csv => case Excel =>
      case Json => case Html => case Pptx => case Rtf => case Image =>
      case Fallback =>
    }
  }

  /** The content type `application/pdf` selects the PDF branch whatever the
      file is called, and so does the extension `.pdf` (in any case) whatever
      the content type. */
  lemma PdfWins(ct: string, filename: string)
    ensures ct == "application/pdf" ==> ChooseFormat(ct, Extension(filename)) == Pdf
    ensures Extension(filename) == "pdf" ==> ChooseFormat(ct, Extension(filename)) == Pdf
  {
  }

  // ---------------------------------------------------------------------
  // What the libraries read out of a file

  /** pypdf: the text of each page, and the document information dictionary
      (empty when the file has none). */
  datatype PdfView = PdfView(pages: seq<string>, info: map<string, string>)

  /** python-docx: the paragraph texts and the core properties, whose fields
      may be unset. python-docx always supplies a (truthy) core-properties
      object, so `core` is None for no real file; the option keeps the
      code's `if doc.core_properties` test. */
  datatype CoreProps = CoreProps(title: Option<string>, author: Option<string>, subject: Option<string>)
  datatype DocxView = DocxView(paragraphs: seq<string>, core: Option<CoreProps>)

  /** csv.DictReader: each row as its (column, value) pairs in header order. */
  type CsvRow = seq<(string, string)>

  /** openpyxl: each sheet's name and rows; a cell is None when empty and
      otherwise its `str()`. */
  datatype Sheet = Sheet(name: string, rows: seq<seq<Option<string>>>)

  /** BeautifulSoup, after `script`, `style`, `nav`, `header` and `footer`
      are removed. */
  datatype ElementKind = Heading(level: nat) | Paragraph | ListItem | Blockquote
  /** One of `h1`..`h6`, `p`, `li`, `blockquote` under the main content, with its `get_text()`. */
  datatype Element = Element(kind: ElementKind, text: string)
  /** `soup.title`: absent, or present with its `.string` (None when the tag
      does not hold exactly one string). */
  datatype TitleTag = NoTitle | TitleTag(str: Option<string>)
  datatype HtmlView = HtmlView(
    title: TitleTag,
    /** `soup.find('h1').get_text()`, if there is an h1 */
    firstH1: Option<string>,
    /** the candidate elements under the first `article`, `main` or `body`
       tag, when the page has one */
    article: Option<seq<Element>>,
    main: Option<seq<Element>>,
    body: Option<seq<Element>>,
    /** the candidate elements of the whole page */
    whole: seq<Element>,
    /** `<meta attr="value" content=...>`: the first such tag for each
       (attr, value), with its content attribute if it has one */
    metaTags: map<(string, string), Option<string>>)

  /** Everything the branches' libraries produce for one file. Err is the
      message of the exception a library raised. */
  datatype LibraryOutputs = LibraryOutputs(
    /** `content.decode('utf-8')` */
    utf8: Result<string, string>,
    pdf: Result<PdfView, string>,
    docx: Result<DocxView, string>,
    /** csv.DictReader over the decoded text */
    csvRows: Result<seq<CsvRow>, string>,
    /** None when openpyxl is not installed */
    excel: Option<Result<seq<Sheet>, string>>,
    /** `json.dumps(json.loads(text), indent=2)` */
    json: Result<string, string>,
    /** BeautifulSoup over the decoded text */
    html: Result<HtmlView, string>,
    /** each slide's shapes, with the text of those that have one; None when
       python-pptx is not installed */
    pptx: Option<Result<seq<seq<Option<string>>>, string>>,
    /** `rtf_to_text(...)`; None when striprtf is not installed */
    rtf: Option<string>,
    /** the text the RTF fallback's substitutions leave */
    rtfFallback: string,
    /** `pytesseract.image_to_string(...)`; None when it is not installed */
    ocr: Option<Result<string, string>>)

  // ---------------------------------------------------------------------
  // PDF

  function PdfMetadata(view: PdfView, filename: string): Metadata {
    var base := map["pages" := Int(|view.pages|), "source" := Str(filename), "format" := Str("pdf")];
    if |view.info| == 0 then base
    else base + map[
      "title" := Str(if "/Title" in view.info then view.info["/Title"] else ""),
      "author" := Str(if "/Author" in view.info then view.info["/Author"] else ""),
      "subject" := Str(if "/Subject" in view.info then view.info["/Subject"] else "")]
  }

  /** `_parse_pdf`: the page texts in order, joined by a blank line. */
  method ParsePdf(view: PdfView, filename: string) returns (r: ParsedDoc)
    ensures r == ParsedDoc(Join(view.pages, "\n\n"), PdfMetadata(view, filename))
  {
    var parts: seq<string> := [];
    var i := 0;
    while i < |view.pages|
      invariant 0 <= i <= |view.pages|
      invariant parts == view.pages[..i]
    {
      parts := parts + [view.pages[i]];
      i := i + 1;
    }
    assert parts == view.pages;
    r := ParsedDoc(Join(parts, "\n\n"), PdfMetadata(view, filename));
  }

  /** The PDF metadata counts the pages and names the file; the title,
      author and subject are added, defaulting to "", exactly when the file
      carries document information. */
  lemma PdfMetadataSpec(view: PdfView, filename: string)
    ensures var m := PdfMetadata(view, filename);
      m["pages"] == Int(|view.pages|) && m["source"] == Str(filename) && m["format"] == Str("pdf")
      && ("title" in m <==> |view.info| > 0)
      && ("title" in m ==> m["title"] == Str(if "/Title" in view.info then view.info["/Title"] else ""))
      && ("author" in m <==> |view.info| > 0)
      && ("author" in m ==> m["author"] == Str(if "/Author" in view.info then view.info["/Author"] else ""))
      && ("subject" in m <==> |view.info| > 0)
      && ("subject" in m ==> m["subject"] == Str(if "/Subject" in view.info then view.info["/Subject"] else ""))
      && m.Keys <= {"pages", "source", "format", "title", "author", "subject"}
  {
  }

  // ---------------------------------------------------------------------
  // DOCX

  /** The paragraphs that are not blank, in order. */
  function NonBlankParagraphs(ps: seq<string>): (r: seq<string>)
    ensures forall p :: p in r ==> p in ps && !IsBlank(p)
    ensures forall p :: p in ps && !IsBlank(p) ==> p in r
  {
    if |ps| == 0 then []
    else (if IsBlank(ps[0]) then [] else [ps[0]]) + NonBlankParagraphs(ps[1..])
  }

  /** The paragraph filter keeps order: the kept paragraphs of `a + b` are
      those of `a` followed by those of `b`. */
  lemma {:induction false} NonBlankParagraphsAppend(a: seq<string>, b: seq<string>)
    ensures NonBlankParagraphs(a + b) == NonBlankParagraphs(a) + NonBlankParagraphs(b)
    decreases |a|
  {
    if |a| == 0 {
      assert a + b == b;
    } else {
      var kept := if IsBlank(a[0]) then [] else [a[0]];
      assert (a + b)[0] == a[0];
      assert (a + b)[1..] == a[1..] + b;
      NonBlankParagraphsAppend(a[1..], b);
      calc {
        NonBlankParagraphs(a + b);
        kept + NonBlankParagraphs(a[1..] + b);
        kept + (NonBlankParagraphs(a[1..]) + NonBlankParagraphs(b));
        (kept + NonBlankParagraphs(a[1..])) + NonBlankParagraphs(b);
      }
    }
  }

  /** A single paragraph is kept exactly when it is not blank. */
  lemma NonBlankParagraph(p: string)
    ensures NonBlankParagraphs([p]) == if IsBlank(p) then [] else [p]
  {
    assert [p][1..] == [];
  }

  /** `_parse_docx`. */
  function ParseDocx(view: DocxView, filename: string): (r: ParsedDoc)
    ensures r.text == Join(NonBlankParagraphs(view.paragraphs), "\n\n")
    ensures HasEntry(r.metadata, "paragraphs", Int(|view.paragraphs|)) && HasEntry(r.metadata, "format", Str("docx"))
    ensures HasEntry(r.metadata, "source", Str(filename))
    ensures "title" in r.metadata <==> view.core.Some?
    ensures view.core.Some? ==>
      HasEntry(r.metadata, "title", Str(view.core.value.title.GetOr("")))
      && HasEntry(r.metadata, "author", Str(view.core.value.author.GetOr("")))
      && HasEntry(r.metadata, "subject", Str(view.core.value.subject.GetOr("")))
  {
    var text := Join(NonBlankParagraphs(view.paragraphs), "\n\n");
    var base := map["paragraphs" := Int(|view.paragraphs|), "source" := Str(filename), "format" := Str("docx")];
    if view.core.None? then ParsedDoc(text, base)
    else
      var p := view.core.value;
      var props := map["title" := Str(OrEmpty(p.title)), "author" := Str(OrEmpty(p.author)), "subject" := Str(OrEmpty(p.subject))];
      assert props.Keys !! base.Keys;
      ParsedDoc(text, base + props)
  }

  /** Python's `x or ""` for an optional string: None and "" both give "". */
  function OrEmpty(x: Option<string>): (r: string)
    ensures r == x.GetOr("")
  {
    match x case Some(s) => (if s == "" then "" else s) case None => ""
  }

  // ---------------------------------------------------------------------
  // Plain text

  /** `_parse_text`: the decoded text; the format is "markdown" only for a
      name ending in ".md", with that exact case. */
  function ParseText(text: string, filename: string): (r: ParsedDoc)
    ensures r.text == text
    ensures HasEntry(r.metadata, "format", Str("markdown")) <==> EndsWith(filename, ".md")
    ensures HasEntry(r.metadata, "format", Str("text")) <==> !EndsWith(filename, ".md")
    ensures HasEntry(r.metadata, "source", Str(filename))
  {
    ParsedDoc(text, map["source" := Str(filename), "format" := Str(if EndsWith(filename, ".md") then "markdown" else "text")])
  }

  /** `"NOTES.MD".lower()`. */
  lemma LowerNotes()
    ensures Lower("NOTES.MD") == "notes.md"
  {
    var low := Lower("NOTES.MD");
    assert forall i :: 0 <= i < 8 ==> low[i] == "notes.md"[i];
  }

  /** The last dot of "notes.md" is followed by "md". */
  lemma AfterLastDotNotes()
    ensures AfterLastDot("notes.md") == "md"
  {
    assert "notes.md"[..7] == "notes.m";
    assert "notes.m"[..6] == "notes.";
    assert AfterLastDot("notes.") == "";
  }

  /** Routing lower-cases the extension but the markdown test does not: a
      file "NOTES.MD" is routed to the plain-text branch and labelled "text". */
  lemma MarkdownCaseSensitive()
    ensures Extension("NOTES.MD") == "md"
    ensures ChooseFormat("", Extension("NOTES.MD")) == PlainText
    ensures HasEntry(ParseText("x", "NOTES.MD").metadata, "format", Str("text"))
  {
    ExtensionNotes();
    assert ChooseFormat("", "md") == PlainText;
    assert "NOTES.MD"[5..] == ".MD";
  }

  /** The extension of "NOTES.MD" is "md". */
  lemma ExtensionNotes()
    ensures Extension("NOTES.MD") == "md"
  {
    LowerNotes();
    AfterLastDotNotes();
    assert "NOTES.MD"[5] == '.';
  }

  // ---------------------------------------------------------------------
  // HTML

  function Prefix(k: ElementKind): string {
    match k
    case Heading(n) => Repeat('#', n) + " "
    case ListItem => "- "
    case Blockquote => "> "
    case Paragraph => ""
  }

  /** The formatted part for one element, with its stripped text. */
  function Formatted(e: Element): string {
    Prefix(e.kind) + Strip(e.text)
  }

  /** The loop of `parse_html` over the elements, as written: blank elements
      are skipped, the others formatted. */
  function HtmlParts(els: seq<Element>): seq<string> {
    if |els| == 0 then []
    else HtmlParts(els[..|els| - 1]) + (if IsBlank(els[|els| - 1].text) then [] else [Formatted(els[|els| - 1])])
  }

  /** The elements whose text is not blank, in order. */
  function NonBlankElements(els: seq<Element>): seq<Element> {
    if |els| == 0 then []
    else NonBlankElements(els[..|els| - 1]) + (if IsBlank(els[|els| - 1].text) then [] else [els[|els| - 1]])
  }

  /** There is one part per non-blank element, in order, each the
      element's prefix ("#" times the heading level and a space, "- ",
      "> " or nothing) followed by its stripped, non-empty text. */
  lemma {:induction false} HtmlPartsSpec(els: seq<Element>)
    ensures |HtmlParts(els)| == |NonBlankElements(els)|
    ensures forall k :: 0 <= k < |HtmlParts(els)| ==>
      HtmlParts(els)[k] == Prefix(NonBlankElements(els)[k].kind) + Strip(NonBlankElements(els)[k].text)
      && Strip(NonBlankElements(els)[k].text) != ""
    ensures forall e :: e in NonBlankElements(els) ==> e in els && !IsBlank(e.text)
    decreases |els|
  {
    if |els| > 0 {
      var pre := els[..|els| - 1];
      var e := els[|els| - 1];
      HtmlPartsSpec(pre);
      if !IsBlank(e.text) {
        var ps := HtmlParts(pre);
        var ns := NonBlankElements(pre);
        assert HtmlParts(els) == ps + [Formatted(e)];
        assert NonBlankElements(els) == ns + [e];
      }
      forall x | x in NonBlankElements(pre) ensures x in els {
        assert x in pre;
      }
    }
  }

  function MetaContent(tags: map<(string, string), Option<string>>, a: (string, string), b: (string, string)): Option<string> {
    if a in tags then Some(tags[a].GetOr(""))
    else if b in tags then Some(tags[b].GetOr(""))
    else None
  }

  function WithOptional(m: Metadata, key: string, v: Option<string>): Metadata {
    match v case Some(s) => m[key := Str(s)] case None => m
  }

  function HtmlMetadata(view: HtmlView, url: string, title: string): Metadata {
    var m := map["source" := Str(url), "format" := Str("article"), "title" := Str(title)];
    var m1 := WithOptional(m, "author", MetaContent(view.metaTags, ("name", "author"), ("property", "article:author")));
    var m2 := WithOptional(m1, "published_date", MetaContent(view.metaTags, ("property", "article:published_time"), ("name", "date")));
    WithOptional(m2, "description", MetaContent(view.metaTags, ("name", "description"), ("property", "og:description")))
  }

  /** The title: the `<title>` string stripped; else the first h1's text
      stripped; else "". A `<title>` without a single string raises. */
  function HtmlTitle(view: HtmlView): Result<string, string> {
    match view.title
    case TitleTag(s) => if s.Some? then Ok(Strip(s.value)) else Err("'NoneType' object has no attribute 'strip'")
    case NoTitle => Ok(if view.firstH1.Some? then Strip(view.firstH1.value) else "")
  }

  /** The first of `article`, `main` and `body` the page has, else the whole
      page. (`soup.find('[role="main"]')` looks for a tag of that name, so
      that candidate never matches.) */
  function MainElements(view: HtmlView): seq<Element> {
    if view.article.Some? then view.article.value
    else if view.main.Some? then view.main.value
    else if view.body.Some? then view.body.value
    else view.whole
  }

  /** `parse_html`. */
  method ParseHtml(view: HtmlView, url: string) returns (r: Result<ParsedDoc, string>)
    ensures HtmlTitle(view).Err? ==> r == Err(HtmlTitle(view).error)
    ensures HtmlTitle(view).Ok? ==> r == Ok(HtmlDoc(view, url, HtmlTitle(view).value))
  {
    var title := HtmlTitle(view);
    if title.Err? {
      return Err(title.error);
    }
    var els := MainElements(view);
    var parts: seq<string> := [];
    var i := 0;
    while i < |els|
      invariant 0 <= i <= |els|
      invariant parts == HtmlParts(els[..i])
    {
      assert els[..i + 1][..i] == els[..i];
      var e := els[i];
      if !IsBlank(e.text) {
        parts := parts + [Prefix(e.kind) + Strip(e.text)];
      }
      i := i + 1;
    }
    assert els[..i] == els;
    r := Ok(ParsedDoc(Join(parts, "\n\n"), HtmlMetadata(view, url, title.value)));
  }

  function HtmlDoc(view: HtmlView, url: string, title: string): ParsedDoc {
    ParsedDoc(Join(HtmlParts(MainElements(view)), "\n\n"), HtmlMetadata(view, url, title))
  }

  /** The HTML metadata always names the source, the format "article" and
      the title, and carries an author, a date or a description exactly when
      one of the two meta tags looked up for it is present. */
  lemma HtmlMetadataSpec(view: HtmlView, url: string, title: string)
    ensures var m := HtmlMetadata(view, url, title);
      m["source"] == Str(url) && m["format"] == Str("article") && m["title"] == Str(title)
      && ("author" in m <==> ("name", "author") in view.metaTags || ("property", "article:author") in view.metaTags)
      && ("description" in m <==> ("name", "description") in view.metaTags || ("property", "og:description") in view.metaTags)
      && ("published_date" in m <==> ("property", "article:published_time") in view.metaTags || ("name", "date") in view.metaTags)
  {
  }

  // ---------------------------------------------------------------------
  // CSV

  /** `f"  {key}: {value}\n"` for each field, concatenated. */
  function FieldLines(row: CsvRow): string {
    if |row| == 0 then "" else FieldLines(row[..|row| - 1]) + "  " + row[|row| - 1].0 + ": " + row[|row| - 1].1 + "\n"
  }

  function RowBlock(i: nat, row: CsvRow): string {
    "Row " + NatToString(i + 1) + ":\n" + FieldLines(row)
  }

  function CsvBlocks(rows: seq<CsvRow>): (r: seq<string>)
    ensures |r| == |rows|
    ensures forall i :: 0 <= i < |rows| ==> r[i] == RowBlock(i, rows[i])
  {
    if |rows| == 0 then [] else CsvBlocks(rows[..|rows| - 1]) + [RowBlock(|rows| - 1, rows[|rows| - 1])]
  }

  function CsvMetadata(rows: seq<CsvRow>, filename: string): Metadata {
    map["source" := Str(filename), "format" := Str("csv"), "rows" := Int(|rows|),
        "columns" := Int(if |rows| > 0 then |rows[0]| else 0)]
  }

  /** `_parse_csv`: one block per row, joined by a newline. */
  method ParseCsv(rows: seq<CsvRow>, filename: string) returns (r: ParsedDoc)
    ensures r == ParsedDoc(Join(CsvBlocks(rows), "\n"), CsvMetadata(rows, filename))
  {
    var parts: seq<string> := [];
    var i := 0;
    while i < |rows|
      invariant 0 <= i <= |rows|
      invariant parts == CsvBlocks(rows[..i])
    {
      var row := rows[i];
      var rowText := "Row " + NatToString(i + 1) + ":\n";
      var j := 0;
      while j < |row|
        invariant 0 <= j <= |row|
        invariant rowText == "Row " + NatToString(i + 1) + ":\n" + FieldLines(row[..j])
      {
        assert row[..j + 1][..j] == row[..j];
        rowText := rowText + "  " + row[j].0 + ": " + row[j].1 + "\n";
        j := j + 1;
      }
      assert row[..j] == row;
      assert rows[..i + 1][..i] == rows[..i];
      parts := parts + [rowText];
      i := i + 1;
    }
    assert rows[..i] == rows;
    r := ParsedDoc(Join(parts, "\n"), CsvMetadata(rows, filename));
  }

  /** A row's block has one `"  key: value\n"` line per field, in field
      order: the lines of `a + b` are those of `a` followed by those of `b`. */
  lemma {:induction false} FieldLinesPerField(a: CsvRow, b: CsvRow)
    ensures FieldLines(a + b) == FieldLines(a) + FieldLines(b)
    ensures forall f: (string, string) :: FieldLines([f]) == "  " + f.0 + ": " + f.1 + "\n"
    decreases |b|
  {
    forall f: (string, string) ensures FieldLines([f]) == "  " + f.0 + ": " + f.1 + "\n" {
      assert [f][..0] == [];
    }
    if |b| == 0 {
      assert a + b == a;
    } else {
      var b' := b[..|b| - 1];
      var f := b[|b| - 1];
      assert (a + b)[..|a + b| - 1] == a + b';
      assert (a + b)[|a + b| - 1] == f;
      FieldLinesPerField(a, b');
      assert [f][..0] == [];
      assert FieldLines(b) == FieldLines(b') + FieldLines([f]);
    }
  }

  /** The field lines of a non-empty row end with the last field's newline. */
  lemma FieldLinesEndLine(row: CsvRow)
    requires |row| > 0
    ensures FieldLines(row)[|FieldLines(row)| - 1] == '\n'
  {
    var f := row[|row| - 1];
    FieldLinesPerField(row[..|row| - 1], [f]);
    assert row[..|row| - 1] + [f] == row;
  }

  /** Each CSV block starts with its 1-based row header and ends with a newline. */
  lemma CsvBlockShape(rows: seq<CsvRow>, i: nat)
    requires i < |rows|
    ensures StartsWith(CsvBlocks(rows)[i], "Row " + NatToString(i + 1) + ":\n")
    ensures EndsWith(CsvBlocks(rows)[i], "\n")
  {
    var head := "Row " + NatToString(i + 1) + ":\n";
    var b := CsvBlocks(rows)[i];
    assert b == head + FieldLines(rows[i]);
    assert b[..|head|] == head;
    if |rows[i]| > 0 {
      FieldLinesEndLine(rows[i]);
      assert b[|b| - 1..] == [FieldLines(rows[i])[|FieldLines(rows[i])| - 1]];
    } else {
      assert b[|b| - 1..] == [head[|head| - 1]];
    }
  }

  // ---------------------------------------------------------------------
  // Excel

  function CellText(c: Option<string>): string {
    c.GetOr("")
  }

  function CellTexts(row: seq<Option<string>>): (r: seq<string>)
    ensures |r| == |row| && forall i :: 0 <= i < |row| ==> r[i] == CellText(row[i])
  {
    if |row| == 0 then [] else CellTexts(row[..|row| - 1]) + [CellText(row[|row| - 1])]
  }

  /** `" | ".join(...)` of a row's cells. */
  function RowText(row: seq<Option<string>>): string {
    Join(CellTexts(row), " | ")
  }

  /** The texts of the rows that are not blank, in order. */
  function KeptRows(rows: seq<seq<Option<string>>>): seq<string> {
    if |rows| == 0 then []
    else KeptRows(rows[..|rows| - 1]) + (if IsBlank(RowText(rows[|rows| - 1])) then [] else [RowText(rows[|rows| - 1])])
  }

  function ExcelParts(sheets: seq<Sheet>): seq<string> {
    if |sheets| == 0 then []
    else ExcelParts(sheets[..|sheets| - 1]) + (["Sheet: " + sheets[|sheets| - 1].name + "\n"] + KeptRows(sheets[|sheets| - 1].rows))
  }

  /** `_parse_excel` once the workbook is open: per sheet a header then its
      kept rows, all joined by a newline. */
  method ParseExcel(sheets: seq<Sheet>, filename: string) returns (r: ParsedDoc)
    ensures r == ParsedDoc(Join(ExcelParts(sheets), "\n"), ExcelMetadata(sheets, filename))
  {
    var parts: seq<string> := [];
    var i := 0;
    while i < |sheets|
      invariant 0 <= i <= |sheets|
      invariant parts == ExcelParts(sheets[..i])
    {
      var sheet := sheets[i];
      ghost var before := parts;
      parts := parts + ["Sheet: " + sheet.name + "\n"];
      var j := 0;
      while j < |sheet.rows|
        invariant 0 <= j <= |sheet.rows|
        invariant parts == before + (["Sheet: " + sheet.name + "\n"] + KeptRows(sheet.rows[..j]))
      {
        assert sheet.rows[..j + 1][..j] == sheet.rows[..j];
        var rowText := RowText(sheet.rows[j]);
        if !IsBlank(rowText) {
          parts := parts + [rowText];
        }
        j := j + 1;
      }
      assert sheet.rows[..j] == sheet.rows;
      assert sheets[..i + 1][..i] == sheets[..i];
      i := i + 1;
    }
    assert sheets[..i] == sheets;
    r := ParsedDoc(Join(parts, "\n"), ExcelMetadata(sheets, filename));
  }

  function ExcelMetadata(sheets: seq<Sheet>, filename: string): Metadata {
    map["source" := Str(filename), "format" := Str("excel"), "sheets" := Int(|sheets|)]
  }

  /** Every kept row text is a non-blank `" | "` join of a row's cells,
      empty cells rendered as "", and every row whose text is not blank is
      kept. */
  lemma {:induction false} KeptRowsSpec(rows: seq<seq<Option<string>>>)
    ensures forall t :: t in KeptRows(rows) ==> !IsBlank(t) && exists row :: row in rows && t == RowText(row)
    ensures forall row :: row in rows && !IsBlank(RowText(row)) ==> RowText(row) in KeptRows(rows)
    ensures |KeptRows(rows)| <= |rows|
    decreases |rows|
  {
    NonBlankRowsKept(rows);
    if |rows| > 0 {
      KeptRowsSpec(rows[..|rows| - 1]);
      forall t | t in KeptRows(rows) ensures !IsBlank(t) && exists row :: row in rows && t == RowText(row) {
        if t in KeptRows(rows[..|rows| - 1]) {
          var row :| row in rows[..|rows| - 1] && t == RowText(row);
          assert row in rows;
        } else {
          assert rows[|rows| - 1] in rows;
        }
      }
    }
  }

  /** The row filter keeps order: the kept rows of `a + b` are those of `a`
      followed by those of `b`. */
  lemma {:induction false} KeptRowsAppend(a: seq<seq<Option<string>>>, b: seq<seq<Option<string>>>)
    ensures KeptRows(a + b) == KeptRows(a) + KeptRows(b)
    decreases |b|
  {
    if |b| == 0 {
      assert a + b == a;
    } else {
      var b' := b[..|b| - 1];
      var last := b[|b| - 1];
      var kept := if IsBlank(RowText(last)) then [] else [RowText(last)];
      assert (a + b)[..|a + b| - 1] == a + b';
      assert (a + b)[|a + b| - 1] == last;
      KeptRowsAppend(a, b');
      calc {
        KeptRows(a + b);
        KeptRows(a + b') + kept;
        (KeptRows(a) + KeptRows(b')) + kept;
        KeptRows(a) + (KeptRows(b') + kept);
      }
    }
  }

  /** A single row is kept, as its text, exactly when that text is not blank. */
  lemma KeptRow(row: seq<Option<string>>)
    ensures KeptRows([row]) == if IsBlank(RowText(row)) then [] else [RowText(row)]
  {
    assert [row][..0] == [];
  }

  /** Every row whose text is not blank is kept. */
  lemma {:induction false} NonBlankRowsKept(rows: seq<seq<Option<string>>>)
    ensures forall row :: row in rows && !IsBlank(RowText(row)) ==> RowText(row) in KeptRows(rows)
    decreases |rows|
  {
    if |rows| > 0 {
      var front := rows[..|rows| - 1];
      NonBlankRowsKept(front);
      assert rows == front + [rows[|rows| - 1]];
    }
  }

  /** A row of two or more cells is never dropped, even when every cell is
      empty: its text contains the separator " | ". Only a row of at most one
      cell can be blank. */
  lemma MultiCellRowsKept(row: seq<Option<string>>)
    requires |row| >= 2
    ensures !IsBlank(RowText(row))
  {
    var cs := CellTexts(row);
    assert RowText(row) == cs[0] + " | " + Join(cs[1..], " | ");
    assert RowText(row)[|cs[0]| + 1] == '|';
  }

  // ---------------------------------------------------------------------
  // The remaining branches, from their library outputs

  function ParsePptx(slides: seq<seq<Option<string>>>, filename: string): ParsedDoc {
    ParsedDoc(Join(SlideParts(slides), "\n\n"), map["source" := Str(filename), "format" := Str("pptx"), "slides" := Int(|slides|)])
  }

  function ShapeTexts(shapes: seq<Option<string>>): seq<string> {
    if |shapes| == 0 then [] else (if shapes[0].Some? then [shapes[0].value] else []) + ShapeTexts(shapes[1..])
  }

  function SlideParts(slides: seq<seq<Option<string>>>): seq<string> {
    if |slides| == 0 then []
    else SlideParts(slides[..|slides| - 1]) + (["Slide " + NatToString(|slides|) + ":"] + ShapeTexts(slides[|slides| - 1]))
  }

  /** `parse` as a function of the library outputs; the methods above
      compute its PDF, CSV, HTML and Excel cases. */
  function ParseSpec(ct: string, filename: string, lib: LibraryOutputs): Result<ParsedDoc, string> {
    ParseBranch(ChooseFormat(ct, Extension(filename)), ct, filename, lib)
  }

  /** What branch `f` of `parse` returns. */
  function ParseBranch(f: Format, ct: string, filename: string, lib: LibraryOutputs): Result<ParsedDoc, string> {
    match f
    case Pdf =>
      if lib.pdf.Err? then Err(lib.pdf.error)
      else Ok(ParsedDoc(Join(lib.pdf.value.pages, "\n\n"), PdfMetadata(lib.pdf.value, filename)))
    case Docx =>
      if lib.docx.Err? then Err(lib.docx.error) else Ok(ParseDocx(lib.docx.value, filename))
    case PlainText =>
      if lib.utf8.Err? then Err(lib.utf8.error) else Ok(ParseText(lib.utf8.value, filename))
    case Csv =>
      if lib.utf8.Err? then Err(lib.utf8.error)
      else if lib.csvRows.Err? then Err(lib.csvRows.error)
      else Ok(ParsedDoc(Join(CsvBlocks(lib.csvRows.value), "\n"), CsvMetadata(lib.csvRows.value, filename)))
    case Excel =>
      if lib.excel.None? then
        Ok(ParsedDoc("Excel file: " + filename + " (Excel parser not available)",
                     map["source" := Str(filename), "format" := Str("excel"), "error" := Str("parser_unavailable")]))
      else if lib.excel.value.Err? then Err(lib.excel.value.error)
      else Ok(ParsedDoc(Join(ExcelParts(lib.excel.value.value), "\n"), ExcelMetadata(lib.excel.value.value, filename)))
    case Json =>
      if lib.utf8.Err? then Err(lib.utf8.error)
      else if lib.json.Err? then Err(lib.json.error)
      else Ok(ParsedDoc(lib.json.value, map["source" := Str(filename), "format" := Str("json")]))
    case Html =>
      if lib.utf8.Err? then Err(lib.utf8.error)
      else if lib.html.Err? then Err(lib.html.error)
      else
        var title := HtmlTitle(lib.html.value);
        if title.Err? then Err(title.error) else Ok(HtmlDoc(lib.html.value, filename, title.value))
    case Pptx =>
      if lib.pptx.None? then
        Ok(ParsedDoc("PowerPoint file: " + filename + " (PowerPoint parser not available)",
                     map["source" := Str(filename), "format" := Str("pptx"), "error" := Str("parser_unavailable")]))
      else if lib.pptx.value.Err? then Err(lib.pptx.value.error)
      else Ok(ParsePptx(lib.pptx.value.value, filename))
    case Rtf =>
      if lib.rtf.Some? then Ok(ParsedDoc(lib.rtf.value, map["source" := Str(filename), "format" := Str("rtf")]))
      else Ok(ParsedDoc(lib.rtfFallback, map["source" := Str(filename), "format" := Str("rtf"), "note" := Str("Basic RTF parsing")]))
    case Image =>
      if lib.ocr.None? then
        Ok(ParsedDoc("Image file: " + filename + " (OCR not available - install pytesseract and PIL)",
                     map["source" := Str(filename), "format" := Str("image"), "type" := Str(ct), "error" := Str("ocr_unavailable")]))
      else if lib.ocr.value.Err? then Err(lib.ocr.value.error)
      else Ok(ParsedDoc(lib.ocr.value.value, map["source" := Str(filename), "format" := Str("image"), "type" := Str(ct), "ocr" := Str("tesseract")]))
    case Fallback =>
      if lib.utf8.Ok? then Ok(ParsedDoc(lib.utf8.value, map["source" := Str(filename), "format" := Str("text")]))
      else Err("Unsupported content type: " + ct + " (file: " + filename + ")")
  }

  /** The format name each branch records (for plain text it depends on
      the file name). */
  function FormatName(f: Format, filename: string): string {
    match f
    case Pdf => "pdf" case Docx => "docx" case Csv => "csv" case Excel => "excel"
    case Json => "json" case Html => "article" case Pptx => "pptx" case Rtf => "rtf" case Image => "image"
    case PlainText => if EndsWith(filename, ".md") then "markdown" else "text"
    case Fallback => "text"
  }

  /** A successful parse records the branch's format and, except for HTML
      (which records the address it was given, here the file name too),
      the file name as its source. */
  lemma ParseSpecRecords(ct: string, filename: string, lib: LibraryOutputs)
    ensures var r := ParseSpec(ct, filename, lib);
      r.Ok? ==> HasEntry(r.value.metadata, "format", Str(FormatName(ChooseFormat(ct, Extension(filename)), filename)))
                && HasEntry(r.value.metadata, "source", Str(filename))
  {
    BranchRecords(ChooseFormat(ct, Extension(filename)), ct, filename, lib);
  }

  lemma BranchRecords(f: Format, ct: string, filename: string, lib: LibraryOutputs)
    ensures var r := ParseBranch(f, ct, filename, lib);
      r.Ok? ==> HasEntry(r.value.metadata, "format", Str(FormatName(f, filename)))
                && HasEntry(r.value.metadata, "source", Str(filename))
  {
    match f {
      case Pdf => PdfRecords(ct, filename, lib);
      case Html => HtmlRecords(ct, filename, lib);
      case Docx => DocxRecords(ct, filename, lib);
      case Csv => CsvRecords(ct, filename, lib);
      case Excel => ExcelRecords(ct, filename, lib);
      case Pptx => PptxRecords(ct, filename, lib);
      case Image => ImageRecords(ct, filename, lib);
      case _ =>
    }
  }

  lemma PdfRecords(ct: string, filename: string, lib: LibraryOutputs)
    ensures var r := ParseBranch(Pdf, ct, filename, lib);
      r.Ok? ==> HasEntry(r.value.metadata, "format", Str(FormatName(Pdf, filename)))
                && HasEntry(r.value.metadata, "source", Str(filename))
  {
    if ParseBranch(Pdf, ct, filename, lib).Ok? {
      PdfMetadataSpec(lib.pdf.value, filename);
    }
  }

  lemma HtmlRecords(ct: string, filename: string, lib: LibraryOutputs)
    ensures var r := ParseBranch(Html, ct, filename, lib);
      r.Ok? ==> HasEntry(r.value.metadata, "format", Str(FormatName(Html, filename)))
                && HasEntry(r.value.metadata, "source", Str(filename))
  {
    if ParseBranch(Html, ct, filename, lib).Ok? {
      HtmlMetadataSpec(lib.html.value, filename, HtmlTitle(lib.html.value).value);
    }
  }

  lemma DocxRecords(ct: string, filename: string, lib: LibraryOutputs)
    ensures var r := ParseBranch(Docx, ct, filename, lib);
      r.Ok? ==> HasEntry(r.value.metadata, "format", Str(FormatName(Docx, filename)))
                && HasEntry(r.value.metadata, "source", Str(filename))
  {}

  lemma CsvRecords(ct: string, filename: string, lib: LibraryOutputs)
    ensures var r := ParseBranch(Csv, ct, filename, lib);
      r.Ok? ==> HasEntry(r.value.metadata, "format", Str(FormatName(Csv, filename)))
                && HasEntry(r.value.metadata, "source", Str(filename))
  {}

  lemma ExcelRecords(ct: string, filename: string, lib: LibraryOutputs)
    ensures var r := ParseBranch(Excel, ct, filename, lib);
      r.Ok? ==> HasEntry(r.value.metadata, "format", Str(FormatName(Excel, filename)))
                && HasEntry(r.value.metadata, "source", Str(filename))
  {}

  lemma PptxRecords(ct: string, filename: string, lib: LibraryOutputs)
    ensures var r := ParseBranch(Pptx, ct, filename, lib);
      r.Ok? ==> HasEntry(r.value.metadata, "format", Str(FormatName(Pptx, filename)))
                && HasEntry(r.value.metadata, "source", Str(filename))
  {}

  lemma ImageRecords(ct: string, filename: string, lib: LibraryOutputs)
    ensures var r := ParseBranch(Image, ct, filename, lib);
      r.Ok? ==> HasEntry(r.value.metadata, "format", Str(FormatName(Image, filename)))
                && HasEntry(r.value.metadata, "source", Str(filename))
  {}

  /** An unmatched file is read as UTF-8 text, and refused, with the
      content type and file name in the message, when it is not UTF-8. */
  lemma ParseSpecFallback(ct: string, filename: string, lib: LibraryOutputs)
    requires ChooseFormat(ct, Extension(filename)) == Fallback
    ensures lib.utf8.Err? ==> ParseSpec(ct, filename, lib) == Err("Unsupported content type: " + ct + " (file: " + filename + ")")
    ensures lib.utf8.Ok? ==> ParseSpec(ct, filename, lib) == Ok(ParsedDoc(lib.utf8.value, map["source" := Str(filename), "format" := Str("text")]))
  {
  }

  /** `parse`: the chosen branch on the library outputs for the file. */
  method Parse(ct: string, filename: string, lib: LibraryOutputs) returns (r: Result<ParsedDoc, string>)
    ensures r == ParseSpec(ct, filename, lib)
  {
    var f := ChooseFormat(ct, Extension(filename));
    match f {
      case Pdf =>
        if lib.pdf.Err? { return Err(lib.pdf.error); }
        var d := ParsePdf(lib.pdf.value, filename);
        r := Ok(d);
      case Docx =>
        if lib.docx.Err? { return Err(lib.docx.error); }
        r := Ok(ParseDocx(lib.docx.value, filename));
      case PlainText =>
        if lib.utf8.Err? { return Err(lib.utf8.error); }
        r := Ok(ParseText(lib.utf8.value, filename));
      case Csv =>
        if lib.utf8.Err? { return Err(lib.utf8.error); }
        if lib.csvRows.Err? { return Err(lib.csvRows.error); }
        var d := ParseCsv(lib.csvRows.value, filename);
        r := Ok(d);
      case Excel =>
        if lib.excel.None? {
          return Ok(ParsedDoc("Excel file: " + filename + " (Excel parser not available)",
                              map["source" := Str(filename), "format" := Str("excel"), "error" := Str("parser_unavailable")]));
        }
        if lib.excel.value.Err? { return Err(lib.excel.value.error); }
        var d := ParseExcel(lib.excel.value.value, filename);
        r := Ok(d);
      case Json =>
        if lib.utf8.Err? { return Err(lib.utf8.error); }
        if lib.json.Err? { return Err(lib.json.error); }
        r := Ok(ParsedDoc(lib.json.value, map["source" := Str(filename), "format" := Str("json")]));
      case Html =>
        if lib.utf8.Err? { return Err(lib.utf8.error); }
        if lib.html.Err? { return Err(lib.html.error); }
        r := ParseHtml(lib.html.value, filename);
      case Pptx =>
        if lib.pptx.None? {
          return Ok(ParsedDoc("PowerPoint file: " + filename + " (PowerPoint parser not available)",
                              map["source" := Str(filename), "format" := Str("pptx"), "error" := Str("parser_unavailable")]));
        }
        if lib.pptx.value.Err? { return Err(lib.pptx.value.error); }
        r := Ok(ParsePptx(lib.pptx.value.value, filename));
      case Rtf =>
        if lib.rtf.Some? {
          r := Ok(ParsedDoc(lib.rtf.value, map["source" := Str(filename), "format" := Str("rtf")]));
        } else {
          r := Ok(ParsedDoc(lib.rtfFallback, map["source" := Str(filename), "format" := Str("rtf"), "note" := Str("Basic RTF parsing")]));
        }
      case Image =>
        if lib.ocr.None? {
          return Ok(ParsedDoc("Image file: " + filename + " (OCR not available - install pytesseract and PIL)",
                              map["source" := Str(filename), "format" := Str("image"), "type" := Str(ct), "error" := Str("ocr_unavailable")]));
        }
        if lib.ocr.value.Err? { return Err(lib.ocr.value.error); }
        r := Ok(ParsedDoc(lib.ocr.value.value, map["source" := Str(filename), "format" := Str("image"), "type" := Str(ct), "ocr" := Str("tesseract")]));
      case Fallback =>
        if lib.utf8.Ok? {
          r := Ok(ParsedDoc(lib.utf8.value, map["source" := Str(filename), "format" := Str("text")]));
        } else {
          r := Err("Unsupported content type: " + ct + " (file: " + filename + ")");
        }
    }
  }
}
