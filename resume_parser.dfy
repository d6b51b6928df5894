/**
 * Resume parsing (backend/resume_parser.py): text extraction from PDF and
 * DOCX files, the length gate in front of the language model, and the
 * validation and repair of the model's JSON reply.
 *
 * A file on disk is seen through the two document libraries: `pdf` is what
 * PyPDF2 reads from it (a corrupt container, or one text per page, "" for a
 * page without text) and `docx` what python-docx reads (a file that is not a
 * package, or paragraphs and tables of rows of cell texts). The language
 * model is a function parameter from the resume text to its reply.
 */
module ResumeParser {
  import opened Wrappers
  import opened Strings
  import opened JsonValues

  /** Why a step failed; the source's message texts are not modelled. */
  datatype Reason =
    | CorruptPdf
    | PdfWithoutPages
    | PdfWithoutText
    | NotADocxPackage
    | DocxWithoutParagraphs
    | DocxWithoutText
    | UnsupportedFormat(ext: string)
    | FileNotFound
    | EmptyFile
    | TextTooShort
    | ModelCallFailed
    | InvalidJson
    | NotAnObject
    | MissingData
    | DataNotAnObject
    | NoIdentifyingInformation

  /** An exception leaving the parser: a `ValueError`, or any other `Exception`. */
  datatype Raised = ValueError(reason: Reason) | OtherError(reason: Reason)

  /** Extracted text shorter than this never reaches the model. */
  const MinTextLength: nat := 50

  datatype PdfFile = UnreadablePdf | PdfPages(pages: seq<string>)

  type Row = seq<string>
  type Table = seq<Row>

  datatype DocxFile = NotAPackage | DocxBody(paragraphs: seq<string>, tables: seq<Table>)

  /** A stored file: its size in bytes and how each library reads it. */
  datatype Blob = Blob(size: nat, pdf: PdfFile, docx: DocxFile)

  /** The model's reply: the call raised, the content is not JSON, or the decoded value. */
  datatype Reply = CallFailed | NotJson | Parsed(value: Json)

  // ---------------------------------------------------------------- PDF

  /** What one page contributes: its text and a newline, when the text is non-empty. */
  function PageLine(page: string): string {
    if page != [] then page + "\n" else []
  }

  /** The text accumulated over `pages`, in page order. */
  function PdfLines(pages: seq<string>): string {
    if pages == [] then [] else PdfLines(pages[..|pages| - 1]) + PageLine(pages[|pages| - 1])
  }

  /**
   * `extract_text_from_pdf`. The "no pages" and "no text" `ValueError`s are
   * raised inside the `try` and re-raised by its catch-all as a plain
   * `Exception`; only a PyPDF2 read error leaves as a `ValueError`.
   */
  function PdfExtraction(f: PdfFile): (r: Result<string, Raised>)
    ensures r.Failure? ==> (r.error.ValueError? <==> f.UnreadablePdf?)
    ensures r.Success? ==> f.PdfPages? && r.value == Strip(PdfLines(f.pages))
  {
    match f
    case UnreadablePdf => Failure(ValueError(CorruptPdf))
    case PdfPages(pages) =>
      if |pages| == 0 then Failure(OtherError(PdfWithoutPages))
      else if Strip(PdfLines(pages)) == [] then Failure(OtherError(PdfWithoutText))
      else Success(Strip(PdfLines(pages)))
  }

  /** The accumulated PDF text is blank exactly when every page text is. */
  lemma {:induction false} PdfLinesBlank(pages: seq<string>)
    ensures IsBlank(PdfLines(pages)) <==> forall i :: 0 <= i < |pages| ==> IsBlank(pages[i])
  {
    if pages != [] {
      var init, last := pages[..|pages| - 1], pages[|pages| - 1];
      PdfLinesBlank(init);
      BlankConcat(PdfLines(init), PageLine(last));
      if last != [] {
        BlankConcat(last, "\n");
      }
      assert forall i :: 0 <= i < |pages| - 1 ==> pages[i] == init[i];
    }
  }

  /**
   * PDF extraction succeeds exactly when the container reads and some page
   * has non-blank text; the result is then non-empty and stripped.
   */
  lemma PdfExtractionSucceeds(f: PdfFile)
    ensures PdfExtraction(f).Success? <==>
      f.PdfPages? && exists i :: 0 <= i < |f.pages| && !IsBlank(f.pages[i])
    ensures PdfExtraction(f).Success? ==>
      var t := PdfExtraction(f).value;
      t != [] && !IsSpace(t[0]) && !IsSpace(t[|t| - 1])
  {
    if f.PdfPages? {
      PdfLinesBlank(f.pages);
      StripEmptyIffBlank(PdfLines(f.pages));
      StripEnds(PdfLines(f.pages));
    }
  }

  /** The page loop of `extract_text_from_pdf`, appending to `text` page by page. */
  method ExtractTextFromPdf(f: PdfFile) returns (r: Result<string, Raised>)
    ensures r == PdfExtraction(f)
  {
    match f {
      case UnreadablePdf =>
        return Failure(ValueError(CorruptPdf));
      case PdfPages(pages) =>
        if |pages| == 0 {
          return Failure(OtherError(PdfWithoutPages));
        }
        var text := "";
        var i := 0;
        while i < |pages|
          invariant 0 <= i <= |pages|
          invariant text == PdfLines(pages[..i])
        {
          assert pages[..i + 1][..i] == pages[..i];
          if pages[i] != "" {
            text := text + (pages[i] + "\n");
          }
          i := i + 1;
        }
        assert pages[..i] == pages;
        if Strip(text) == "" {
          return Failure(OtherError(PdfWithoutText));
        }
        return Success(Strip(text));
    }
  }

  // ---------------------------------------------------------------- DOCX

  /**
   * What one paragraph or cell contributes: its text and a newline, unless
   * `text.strip()` is empty, which is the case exactly for blank text
   * (StripEmptyIffBlank).
   */
  function ItemLine(text: string): string {
    if !IsBlank(text) then text + "\n" else []
  }

  function DocxLines(items: seq<string>): string {
    if items == [] then [] else DocxLines(items[..|items| - 1]) + ItemLine(items[|items| - 1])
  }

  /** The text of one table, row by row and cell by cell. */
  function TableText(rows: seq<Row>): string {
    if rows == [] then [] else TableText(rows[..|rows| - 1]) + DocxLines(rows[|rows| - 1])
  }

  function TablesText(tables: seq<Table>): string {
    if tables == [] then [] else TablesText(tables[..|tables| - 1]) + TableText(tables[|tables| - 1])
  }

  /** The cells of a table in row order. */
  function TableCells(rows: seq<Row>): seq<string> {
    if rows == [] then [] else TableCells(rows[..|rows| - 1]) + rows[|rows| - 1]
  }

  /** All table cells in table, row, cell order. */
  function Cells(tables: seq<Table>): seq<string> {
    if tables == [] then [] else Cells(tables[..|tables| - 1]) + TableCells(tables[|tables| - 1])
  }

  /**
   * `extract_text_from_docx`: paragraphs first, then table cells. As for
   * PDFs, only a missing package leaves as a `ValueError`.
   */
  function DocxExtraction(f: DocxFile): (r: Result<string, Raised>)
    ensures r.Failure? ==> (r.error.ValueError? <==> f.NotAPackage?)
    ensures r.Success? ==> f.DocxBody? && |f.paragraphs| > 0
  {
    match f
    case NotAPackage => Failure(ValueError(NotADocxPackage))
    case DocxBody(paragraphs, tables) =>
      if |paragraphs| == 0 then Failure(OtherError(DocxWithoutParagraphs))
      else
        var text := DocxLines(paragraphs) + TablesText(tables);
        if Strip(text) == [] then Failure(OtherError(DocxWithoutText))
        else Success(Strip(text))
  }

  /** `ItemLine` is the `if text.strip():` test of the extraction loops. */
  lemma ItemLineByStrip(text: string)
    ensures ItemLine(text) == if Strip(text) != "" then text + "\n" else []
  {
    StripEmptyIffBlank(text);
  }

  /** One more item adds its line. */
  lemma DocxLinesStep(items: seq<string>, i: nat)
    requires i < |items|
    ensures DocxLines(items[..i + 1]) == DocxLines(items[..i]) + ItemLine(items[i])
  {
    assert items[..i + 1][..i] == items[..i];
  }

  lemma AppendStep(text0: string, items: seq<string>, i: nat)
    requires i < |items|
    ensures text0 + DocxLines(items[..i + 1]) == (text0 + DocxLines(items[..i])) + ItemLine(items[i])
  {
    DocxLinesStep(items, i);
  }

  lemma TableStep(text0: string, rows: seq<Row>, i: nat)
    requires i < |rows|
    ensures text0 + TableText(rows[..i + 1]) == (text0 + TableText(rows[..i])) + DocxLines(rows[i])
  {
    assert rows[..i + 1][..i] == rows[..i];
  }

  lemma TablesStep(text0: string, tables: seq<Table>, i: nat)
    requires i < |tables|
    ensures text0 + TablesText(tables[..i + 1]) == (text0 + TablesText(tables[..i])) + TableText(tables[i])
  {
    assert tables[..i + 1][..i] == tables[..i];
  }

  lemma {:induction false} DocxLinesAppend(a: seq<string>, b: seq<string>)
    ensures DocxLines(a + b) == DocxLines(a) + DocxLines(b)
  {
    if b == [] {
      assert a + b == a;
    } else {
      var init, last := b[..|b| - 1], b[|b| - 1];
      assert (a + b)[..|a + b| - 1] == a + init;
      assert (a + b)[|a + b| - 1] == last;
      DocxLinesAppend(a, init);
      AppendAssoc(DocxLines(a), DocxLines(init), ItemLine(last));
    }
  }

  lemma {:induction false} TableTextIsCellLines(rows: seq<Row>)
    ensures TableText(rows) == DocxLines(TableCells(rows))
  {
    if rows != [] {
      TableTextIsCellLines(rows[..|rows| - 1]);
      DocxLinesAppend(TableCells(rows[..|rows| - 1]), rows[|rows| - 1]);
    }
  }

  lemma {:induction false} TablesTextIsCellLines(tables: seq<Table>)
    ensures TablesText(tables) == DocxLines(Cells(tables))
  {
    if tables != [] {
      TablesTextIsCellLines(tables[..|tables| - 1]);
      TableTextIsCellLines(tables[|tables| - 1]);
      DocxLinesAppend(Cells(tables[..|tables| - 1]), TableCells(tables[|tables| - 1]));
    }
  }

  /** The DOCX text is blank exactly when every paragraph and cell is. */
  lemma {:induction false} DocxLinesBlank(items: seq<string>)
    ensures IsBlank(DocxLines(items)) <==> forall i :: 0 <= i < |items| ==> IsBlank(items[i])
  {
    if items != [] {
      var init, last := items[..|items| - 1], items[|items| - 1];
      DocxLinesBlank(init);
      BlankConcat(DocxLines(init), ItemLine(last));
      if !IsBlank(last) {
        BlankConcat(last, "\n");
      }
      assert forall i :: 0 <= i < |items| - 1 ==> items[i] == init[i];
    }
  }

  /**
   * DOCX extraction is the stripped text of the non-blank paragraphs followed
   * by the non-blank cells, each with a newline; it succeeds exactly when the
   * package has a paragraph and some paragraph or cell is non-blank.
   */
  lemma DocxExtractionOrder(f: DocxFile)
    ensures f.DocxBody? ==>
      var items := f.paragraphs + Cells(f.tables);
      && (DocxExtraction(f).Success? <==>
            |f.paragraphs| > 0 && exists i :: 0 <= i < |items| && !IsBlank(items[i]))
      && (DocxExtraction(f).Success? ==> DocxExtraction(f).value == Strip(DocxLines(items)))
  {
    if f.DocxBody? {
      var items := f.paragraphs + Cells(f.tables);
      TablesTextIsCellLines(f.tables);
      DocxLinesAppend(f.paragraphs, Cells(f.tables));
      DocxLinesBlank(items);
      StripEmptyIffBlank(DocxLines(items));
    }
  }

  /** The cell loop of `extract_text_from_docx` for one row. */
  method AppendRow(text0: string, cells: Row) returns (text: string)
    ensures text == text0 + DocxLines(cells)
  {
    text := text0;
    var c := 0;
    while c < |cells|
      invariant 0 <= c <= |cells|
      invariant text == text0 + DocxLines(cells[..c])
    {
      var cell := cells[c];
      ItemLineByStrip(cell);
      AppendStep(text0, cells, c);
      if Strip(cell) != "" {
        text := text + (cell + "\n");
      }
      c := c + 1;
    }
    assert cells[..c] == cells;
  }

  /** The row loop of `extract_text_from_docx` for one table. */
  method AppendTable(text0: string, rows: Table) returns (text: string)
    ensures text == text0 + TableText(rows)
  {
    text := text0;
    var r := 0;
    while r < |rows|
      invariant 0 <= r <= |rows|
      invariant text == text0 + TableText(rows[..r])
    {
      TableStep(text0, rows, r);
      text := AppendRow(text, rows[r]);
      r := r + 1;
    }
    assert rows[..r] == rows;
  }

  /** The table loop of `extract_text_from_docx`. */
  method AppendTables(text0: string, tables: seq<Table>) returns (text: string)
    ensures text == text0 + TablesText(tables)
  {
    text := text0;
    var t := 0;
    while t < |tables|
      invariant 0 <= t <= |tables|
      invariant text == text0 + TablesText(tables[..t])
    {
      TablesStep(text0, tables, t);
      text := AppendTable(text, tables[t]);
      t := t + 1;
    }
    assert tables[..t] == tables;
  }

  /** `extract_text_from_docx`: the paragraph loop, then the table loops. */
  method ExtractTextFromDocx(f: DocxFile) returns (r: Result<string, Raised>)
    ensures r == DocxExtraction(f)
  {
    match f {
      case NotAPackage =>
        return Failure(ValueError(NotADocxPackage));
      case DocxBody(paragraphs, tables) =>
        if |paragraphs| == 0 {
          return Failure(OtherError(DocxWithoutParagraphs));
        }
        var text := "";
        var p := 0;
        while p < |paragraphs|
          invariant 0 <= p <= |paragraphs|
          invariant text == DocxLines(paragraphs[..p])
        {
          DocxLinesStep(paragraphs, p);
          ItemLineByStrip(paragraphs[p]);
          if Strip(paragraphs[p]) != "" {
            text := text + (paragraphs[p] + "\n");
          }
          p := p + 1;
        }
        assert paragraphs[..p] == paragraphs;
        text := AppendTables(text, tables);
        if Strip(text) == "" {
          return Failure(OtherError(DocxWithoutText));
        }
        return Success(Strip(text));
    }
  }

  // ---------------------------------------------------------------- dispatch

  /** `extract_text`: dispatch on the lower-cased `os.path.splitext` extension. */
  function ExtractText(path: string, blob: Blob): (r: Result<string, Raised>)
    ensures r.Success? ==> Lower(SplitExt(path)) in {".pdf", ".docx"}
    ensures Lower(SplitExt(path)) == ".pdf" ==> r == PdfExtraction(blob.pdf)
    ensures Lower(SplitExt(path)) == ".docx" ==> r == DocxExtraction(blob.docx)
    ensures Lower(SplitExt(path)) !in {".pdf", ".docx"} ==>
      r == Failure(ValueError(UnsupportedFormat(Lower(SplitExt(path)))))
  {
    var ext := Lower(SplitExt(path));
    if ext == ".pdf" then PdfExtraction(blob.pdf)
    else if ext == ".docx" then DocxExtraction(blob.docx)
    else Failure(ValueError(UnsupportedFormat(ext)))
  }

  /**
   * A file saved as `<folder>/<stem>.txt`, the stem having some character
   * other than '.', is refused by the extractor with a `ValueError`.
   */
  lemma TxtIsUnsupported(folder: string, stem: string, blob: Blob)
    requires forall i :: 0 <= i < |stem| ==> stem[i] != '/'
    requires exists i :: 0 <= i < |stem| && stem[i] != '.'
    ensures SplitExt(folder + "/" + stem + ".txt") == ".txt"
    ensures ExtractText(folder + "/" + stem + ".txt", blob) == Failure(ValueError(UnsupportedFormat(".txt")))
  {
    TxtExtension();
    SplitExtOfSuffix(folder + "/", stem, ".txt");
  }

  /** ".txt" is already lower-case, is neither of the two handled extensions, and has one '.'. */
  lemma TxtExtension()
    ensures Lower(".txt") == ".txt" && ".txt" != ".pdf" && ".txt" != ".docx"
    ensures '.' !in ".txt"[1..] && '/' !in ".txt"
  {
    LowerOfNoCapitals(".txt");
    assert ".txt"[1] != ".pdf"[1];
    assert |".txt"| != |".docx"|;
    assert ".txt"[1..] == "txt";
  }

  /** A non-empty `.txt` file fails in `parse_resume` before the model is called. */
  lemma TxtNeverReachesModel(disk: map<string, Blob>, folder: string, stem: string, model: string -> Reply)
    requires forall i :: 0 <= i < |stem| ==> stem[i] != '/'
    requires exists i :: 0 <= i < |stem| && stem[i] != '.'
    requires var path := folder + "/" + stem + ".txt"; path in disk && disk[path].size > 0
    ensures ParseResume(disk, folder + "/" + stem + ".txt", model) == Failure(ValueError(UnsupportedFormat(".txt")))
  {
    TxtIsUnsupported(folder, stem, disk[folder + "/" + stem + ".txt"]);
  }

  // ---------------------------------------------------------------- model reply

  /**
   * One identity field passes the rule: truthy, non-blank after `strip`, and
   * not the text "null" in any letter case (compared without stripping).
   * The `str()` rendering of a truthy non-string value (a number, `True`, a
   * non-empty list or object) is never blank and never "null".
   */
  predicate Identifying(v: Json)
    ensures Identifying(v) ==> Truthy(v)
    ensures v.JStr? ==> (Identifying(v) <==> !IsBlank(v.s) && Lower(v.s) != "null")
  {
    && Truthy(v)
    && match v
       case JStr(s) => StripEmptyIffBlank(s); Strip(s) != [] && Lower(s) != "null"
       case _ => true
  }

  /** Some identity field passes the rule; then some identity field is truthy. */
  predicate HasIdentity(data: map<string, Json>)
    ensures HasIdentity(data) ==> Truthy(Get(data, "name")) || Truthy(Get(data, "email")) || Truthy(Get(data, "phone"))
  {
    Identifying(Get(data, "name")) || Identifying(Get(data, "email")) || Identifying(Get(data, "phone"))
  }

  /** The scores substituted when the reply has none: 0.5 for each of the six fields. */
  function DefaultScores(): Json {
    JObj(map["name" := JNum(0.5), "email" := JNum(0.5), "phone" := JNum(0.5),
             "company" := JNum(0.5), "designation" := JNum(0.5), "skills" := JNum(0.5)])
  }

  /** The in-place repairs: add missing scores, and replace a non-list `skills` by `[]`. */
  function Repaired(result: map<string, Json>, data: map<string, Json>): (r: map<string, Json>)
    ensures r.Keys == result.Keys + {"confidence_scores", "data"}
    ensures "confidence_scores" in result ==> r["confidence_scores"] == result["confidence_scores"]
    ensures r["data"].JObj? && r["data"].fields.Keys == data.Keys + {"skills"} && r["data"].fields["skills"].JArr?
    ensures forall k :: k in result && k != "data" && k != "confidence_scores" ==> r[k] == result[k]
    ensures forall k :: k in data && k != "skills" ==> r["data"].fields[k] == data[k]
  {
    var scored := if "confidence_scores" in result then result else result["confidence_scores" := DefaultScores()];
    var fixed := if "skills" in data && data["skills"].JArr? then data else data["skills" := JArr([])];
    scored["data" := JObj(fixed)]
  }

  /** The shape every accepted result has. */
  predicate WellShaped(result: map<string, Json>) {
    && "confidence_scores" in result
    && "data" in result && result["data"].JObj?
    && "skills" in result["data"].fields && result["data"].fields["skills"].JArr?
    && HasIdentity(result["data"].fields)
  }

  /**
   * The part of `parse_resume_with_llm` after the model call. A `data` that is
   * not an object makes `data.get` raise, which the catch-all turns into a
   * plain `Exception`, as it does for a failing model call.
   */
  function ValidateReply(reply: Reply): (r: Result<map<string, Json>, Raised>)
    ensures r.Success? ==> WellShaped(r.value)
    ensures r.Success? ==> reply.Parsed? && reply.value.JObj? && r.value.Keys == reply.value.fields.Keys + {"confidence_scores"}
  {
    match reply
    case CallFailed => Failure(OtherError(ModelCallFailed))
    case NotJson => Failure(ValueError(InvalidJson))
    case Parsed(v) =>
      if !v.JObj? then Failure(ValueError(NotAnObject))
      else if "data" !in v.fields then Failure(ValueError(MissingData))
      else
        var data := v.fields["data"];
        if !data.JObj? then Failure(OtherError(DataNotAnObject))
        else if !HasIdentity(data.fields) then Failure(ValueError(NoIdentifyingInformation))
        else Success(Repaired(v.fields, data.fields))
  }

  /** The reply is rejected with a `ValueError` when it is not JSON, not an object, or has no `data`. */
  lemma StructuralRejections(reply: Reply)
    ensures reply.NotJson? ==> ValidateReply(reply) == Failure(ValueError(InvalidJson))
    ensures reply.Parsed? && !reply.value.JObj? ==> ValidateReply(reply) == Failure(ValueError(NotAnObject))
    ensures reply.Parsed? && reply.value.JObj? && "data" !in reply.value.fields ==>
      ValidateReply(reply) == Failure(ValueError(MissingData))
  {
  }

  /** For a structurally valid reply, acceptance is exactly the identity rule. */
  lemma IdentityRuleDecides(fields: map<string, Json>, data: map<string, Json>)
    requires "data" in fields && fields["data"] == JObj(data)
    ensures ValidateReply(Parsed(JObj(fields))).Success? <==> HasIdentity(data)
    ensures !HasIdentity(data) ==>
      ValidateReply(Parsed(JObj(fields))) == Failure(ValueError(NoIdentifyingInformation))
  {
  }

  /**
   * The repairs: missing scores become the defaults and present ones are kept;
   * a list of skills is kept and anything else becomes `[]`; every other entry
   * of the reply and of its `data` is unchanged.
   */
  lemma RepairDefaults(fields: map<string, Json>, data: map<string, Json>)
    requires "data" in fields && fields["data"] == JObj(data) && HasIdentity(data)
    ensures var r := ValidateReply(Parsed(JObj(fields)));
      && r.Success?
      && r.value["confidence_scores"] ==
           (if "confidence_scores" in fields then fields["confidence_scores"] else DefaultScores())
      && r.value["data"].fields["skills"] ==
           (if "skills" in data && data["skills"].JArr? then data["skills"] else JArr([]))
      && (forall k :: k in data && k != "skills" ==> k in r.value["data"].fields && r.value["data"].fields[k] == data[k])
      && r.value["data"].fields.Keys == data.Keys + {"skills"}
      && (forall k :: k in fields && k != "data" && k != "confidence_scores" ==> r.value[k] == fields[k])
  {
  }

  // ---------------------------------------------------------------- parse_resume

  /** Everything `parse_resume` checks before the model call. */
  function TextForModel(disk: map<string, Blob>, path: string): (r: Result<string, Raised>)
    ensures r.Success? ==> |r.value| >= MinTextLength
    ensures r.Success? ==> path in disk && disk[path].size > 0 && ExtractText(path, disk[path]) == Success(r.value)
    ensures path !in disk ==> r == Failure(ValueError(FileNotFound))
    ensures path in disk && disk[path].size == 0 ==> r == Failure(ValueError(EmptyFile))
    ensures path in disk && disk[path].size > 0 && ExtractText(path, disk[path]).Failure? ==>
      r == ExtractText(path, disk[path])
    ensures path in disk && disk[path].size > 0 && ExtractText(path, disk[path]).Success? ==>
      r == (if |ExtractText(path, disk[path]).value| < MinTextLength then Failure(ValueError(TextTooShort))
            else ExtractText(path, disk[path]))
  {
    if path !in disk then Failure(ValueError(FileNotFound))
    else if disk[path].size == 0 then Failure(ValueError(EmptyFile))
    else match ExtractText(path, disk[path])
      case Failure(e) => Failure(e)
      case Success(text) =>
        if |text| < MinTextLength then Failure(ValueError(TextTooShort)) else Success(text)
  }

  /** `parse_resume`: the gate, then one model call on the extracted text, then validation. */
  function ParseResume(disk: map<string, Blob>, path: string, model: string -> Reply): (r: Result<map<string, Json>, Raised>)
    ensures r.Success? ==> WellShaped(r.value)
    ensures r.Success? ==> TextForModel(disk, path).Success?
    ensures TextForModel(disk, path).Failure? ==> r == Failure(TextForModel(disk, path).error)
  {
    match TextForModel(disk, path)
    case Failure(e) => Failure(e)
    case Success(text) => ValidateReply(model(text))
  }

  /**
   * Past the gate, a reply whose `data` is an object with an identity is
   * accepted, and the result is that reply repaired.
   */
  lemma ParseAccepts(disk: map<string, Blob>, path: string, model: string -> Reply,
                     fields: map<string, Json>, data: map<string, Json>)
    requires TextForModel(disk, path).Success?
    requires model(TextForModel(disk, path).value) == Parsed(JObj(fields))
    requires "data" in fields && fields["data"] == JObj(data) && HasIdentity(data)
    ensures ParseResume(disk, path, model) == Success(Repaired(fields, data))
  {
  }

  /**
   * A file saved as `<folder>/<stem>.pdf` goes to the PDF extractor; when
   * it has no pages or only blank ones, `parse_resume` fails with a plain
   * exception (not a `ValueError`) before the model is called.
   */
  lemma BlankPdfFails(disk: map<string, Blob>, folder: string, stem: string, model: string -> Reply)
    requires forall i :: 0 <= i < |stem| ==> stem[i] != '/'
    requires exists i :: 0 <= i < |stem| && stem[i] != '.'
    requires var path := folder + "/" + stem + ".pdf";
      && path in disk && disk[path].size > 0 && disk[path].pdf.PdfPages?
      && forall i :: 0 <= i < |disk[path].pdf.pages| ==> IsBlank(disk[path].pdf.pages[i])
    ensures var pages := disk[folder + "/" + stem + ".pdf"].pdf.pages;
      ParseResume(disk, folder + "/" + stem + ".pdf", model) ==
        Failure(OtherError(if pages == [] then PdfWithoutPages else PdfWithoutText))
  {
    var path := folder + "/" + stem + ".pdf";
    PdfSavedPath(folder, stem, disk[path]);
    PdfLinesBlank(disk[path].pdf.pages);
    StripEmptyIffBlank(PdfLines(disk[path].pdf.pages));
  }

  /** A file saved as `<folder>/<stem>.pdf` has the extension ".pdf" and goes to the PDF extractor. */
  lemma PdfSavedPath(folder: string, stem: string, blob: Blob)
    requires forall i :: 0 <= i < |stem| ==> stem[i] != '/'
    requires exists i :: 0 <= i < |stem| && stem[i] != '.'
    ensures SplitExt(folder + "/" + stem + ".pdf") == ".pdf"
    ensures ExtractText(folder + "/" + stem + ".pdf", blob) == PdfExtraction(blob.pdf)
  {
    LowerOfNoCapitals(".pdf");
    assert ".pdf"[1..] == "pdf";
    SplitExtOfSuffix(folder + "/", stem, ".pdf");
  }

  /**
   * A missing file, an empty file or a text under 50 characters is a
   * `ValueError` whatever the model would answer: the model is not consulted.
   */
  lemma GateFailsWithoutModel(disk: map<string, Blob>, path: string, text: string, model: string -> Reply)
    requires path !in disk || disk[path].size == 0 ||
             (ExtractText(path, disk[path]) == Success(text) && |text| < MinTextLength)
    ensures ParseResume(disk, path, model).Failure? && ParseResume(disk, path, model).error.ValueError?
    ensures forall other: string -> Reply :: ParseResume(disk, path, other) == ParseResume(disk, path, model)
  {
  }
}
