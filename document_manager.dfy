/** The document conversion of app/document_manager.py: the factory that
    picks a converter by file extension, and the text the Excel and
    PowerPoint converters assemble before rendering it as a PDF. Decoding
    the input formats (images, Office files, UTF-8 text) and rendering PDF
    pages are done by foreign libraries; what they extract from a file is
    given as input here, and rendering is a parameter. */
module DocumentManager {
  import opened Outcomes
  import opened Text

  datatype ConverterKind = ImageConverter | TextConverter | PowerPointConverter | PdfConverter | ExcelConverter

  const ImageExtensions: seq<string> := ["png", "jpg", "jpeg", "tiff", "bmp"]
  const TextExtensions: seq<string> := ["doc", "docx", "txt", "rtf"]
  const PowerPointExtensions: seq<string> := ["ppt", "pptx"]
  const ExcelExtensions: seq<string> := ["xls", "xlsx"]

  /** The extensions each converter handles. */
  function ExtensionsOf(kind: ConverterKind): seq<string>
  {
    match kind
    case ImageConverter => ImageExtensions
    case TextConverter => TextExtensions
    case PowerPointConverter => PowerPointExtensions
    case PdfConverter => ["pdf"]
    case ExcelConverter => ExcelExtensions
  }

  /** DocumentConverterFactory.get_converter: the converter for an extension,
      or the ValueError text for one it does not know. The extension is
      compared as given, case included. */
  function GetConverter(extension: string): Result<ConverterKind, string>
  {
    if extension in ImageExtensions then Ok(ImageConverter)
    else if extension in TextExtensions then Ok(TextConverter)
    else if extension in PowerPointExtensions then Ok(PowerPointConverter)
    else if extension == "pdf" then Ok(PdfConverter)
    else if extension in ExcelExtensions then Ok(ExcelConverter)
    else Err("Unsupported file type: " + extension)
  }

  /** No extension belongs to two converters, so the order of the tests
      does not matter. */
  lemma ExtensionsDisjoint(a: ConverterKind, b: ConverterKind, extension: string)
    requires extension in ExtensionsOf(a) && extension in ExtensionsOf(b)
    ensures a == b
  {
  }

  /** A converter is returned exactly for the extensions it lists, and every
      other extension is refused with a message naming it. */
  lemma GetConverterSpec(extension: string)
    ensures forall kind :: GetConverter(extension) == Ok(kind) <==> extension in ExtensionsOf(kind)
    ensures GetConverter(extension).Err? <==> forall kind :: extension !in ExtensionsOf(kind)
    ensures GetConverter(extension).Err? ==> GetConverter(extension).error == "Unsupported file type: " + extension
  {
    if GetConverter(extension).Err? {
      forall kind ensures extension !in ExtensionsOf(kind) {
        match kind
        case ImageConverter =>
        case TextConverter =>
        case PowerPointConverter =>
        case PdfConverter =>
        case ExcelConverter =>
      }
    }
  }

  /** Extensions are case sensitive: "PDF" is refused. */
  lemma UpperCasePdfRefused()
    ensures GetConverter("PDF") == Err("Unsupported file type: " + "PDF")
  {
    assert "PDF" != "pdf" by { assert "PDF"[0] != "pdf"[0]; }
    assert "PDF" !in ImageExtensions && "PDF" !in TextExtensions;
    assert "PDF" !in PowerPointExtensions && "PDF" !in ExcelExtensions;
  }

  // ---------------------------------------------------------------------
  // Excel text
  // ---------------------------------------------------------------------

  /** A cell value as openpyxl returns it (dates and floats are not modelled). */
  datatype Cell = EmptyCell | IntCell(i: int) | TextCell(s: string) | BoolCell(b: bool)

  /** Python's `str(cell)`. */
  function CellText(c: Cell): string
  {
    match c
    case EmptyCell => "None"
    case IntCell(i) => IntToString(i)
    case TextCell(s) => s
    case BoolCell(b) => if b then "True" else "False"
  }

  datatype Sheet = Sheet(name: string, rows: seq<seq<Cell>>)

  /** The texts of a row's cells, in order. */
  function CellTexts(row: seq<Cell>): (texts: seq<string>)
    ensures |texts| == |row|
  {
    seq(|row|, i requires 0 <= i < |row| => CellText(row[i]))
  }

  /** One row: its cells' texts joined by tabs, then a newline. */
  function RowLine(row: seq<Cell>): string
  {
    Join(CellTexts(row), "\t") + "\n"
  }

  /** One line per row, in sheet order. */
  function RowLines(rows: seq<seq<Cell>>): (lines: seq<string>)
    ensures |lines| == |rows|
    ensures forall i :: 0 <= i < |rows| ==> lines[i] == RowLine(rows[i])
  {
    seq(|rows|, i requires 0 <= i < |rows| => RowLine(rows[i]))
  }

  /** The block of one sheet: a header line, its rows, and a blank line. */
  function SheetText(sheet: Sheet): string
  {
    "Sheet: " + sheet.name + "\n" + Concat(RowLines(sheet.rows)) + "\n"
  }

  function SheetTexts(sheets: seq<Sheet>): (texts: seq<string>)
    ensures |texts| == |sheets|
  {
    seq(|sheets|, i requires 0 <= i < |sheets| => SheetText(sheets[i]))
  }

  /** The text ExcelManager.convert_to_pdf assembles: the sheet blocks in workbook order. */
  function WorkbookText(sheets: seq<Sheet>): string
  {
    Concat(SheetTexts(sheets))
  }

  /** Sheets appear in workbook order: a workbook split anywhere gives the
      text of the first part followed by that of the second. */
  lemma WorkbookTextAppend(a: seq<Sheet>, b: seq<Sheet>)
    ensures WorkbookText(a + b) == WorkbookText(a) + WorkbookText(b)
  {
    var all := SheetTexts(a + b);
    var split := SheetTexts(a) + SheetTexts(b);
    forall i | 0 <= i < |all| ensures all[i] == split[i] {
      if i < |a| {
        assert (a + b)[i] == a[i];
      } else {
        assert (a + b)[i] == b[i - |a|];
      }
    }
    assert all == split;
    ConcatAppend(SheetTexts(a), SheetTexts(b));
  }

  /** A sheet block starts with its header line and always ends with a
      blank line: the last row line, or the header when there are no rows,
      ends with a newline before the closing one. */
  lemma SheetTextShape(sheet: Sheet)
    ensures var t := SheetText(sheet);
      var header := "Sheet: " + sheet.name + "\n";
      && |header| < |t| && t[..|header|] == header && t[|t| - 2..] == "\n\n"
      && (sheet.rows == [] ==> t == header + "\n")
  {
    var header := "Sheet: " + sheet.name + "\n";
    var body := Concat(RowLines(sheet.rows));
    var t := SheetText(sheet);
    assert t == header + body + "\n";
    if sheet.rows != [] {
      var lines := RowLines(sheet.rows);
      var last := lines[|lines| - 1];
      assert last == RowLine(sheet.rows[|sheet.rows| - 1]);
      assert body == Concat(lines[..|lines| - 1]) + last;
      assert last[|last| - 1] == '\n';
      assert body[|body| - 1] == '\n';
      assert t[|t| - 2..] == [body[|body| - 1], '\n'];
    } else {
      assert body == "";
      assert t[|t| - 2..] == [header[|header| - 1], '\n'];
    }
  }

  /** One more row adds its line. */
  lemma RowLinesStep(rows: seq<seq<Cell>>, r: nat)
    requires r < |rows|
    ensures Concat(RowLines(rows[..r + 1])) == Concat(RowLines(rows[..r])) + RowLine(rows[r])
  {
    assert RowLines(rows[..r + 1]) == RowLines(rows[..r]) + [RowLine(rows[r])];
    ConcatAppend(RowLines(rows[..r]), [RowLine(rows[r])]);
    ConcatSingle(RowLine(rows[r]));
  }

  /** One more sheet adds its block. */
  lemma WorkbookTextStep(sheets: seq<Sheet>, s: nat)
    requires s < |sheets|
    ensures WorkbookText(sheets[..s + 1]) == WorkbookText(sheets[..s]) + SheetText(sheets[s])
  {
    assert sheets[..s + 1] == sheets[..s] + [sheets[s]];
    WorkbookTextAppend(sheets[..s], [sheets[s]]);
    assert SheetTexts([sheets[s]]) == [SheetText(sheets[s])];
    ConcatSingle(SheetText(sheets[s]));
  }

  /** The inner ExcelManager loop: each row's cells stringified, joined by
      tabs and ended by a newline, appended to `text`. */
  method AppendRows(text: string, rows: seq<seq<Cell>>) returns (out: string)
    ensures out == text + Concat(RowLines(rows))
  {
    out := text;
    for r := 0 to |rows|
      invariant out == text + Concat(RowLines(rows[..r]))
    {
      RowLinesStep(rows, r);
      out := out + (Join(CellTexts(rows[r]), "\t") + "\n");
    }
    assert rows[..|rows|] == rows;
  }

  /** The ExcelManager loops: for every sheet its header, then its rows,
      then a blank line. */
  method ExcelText(sheets: seq<Sheet>) returns (text: string)
    ensures text == WorkbookText(sheets)
  {
    text := "";
    for s := 0 to |sheets|
      invariant text == WorkbookText(sheets[..s])
    {
      var sheet := sheets[s];
      ghost var before := text;
      var header := "Sheet: " + sheet.name + "\n";
      text := AppendRows(text + header, sheet.rows);
      text := text + "\n";
      assert text == before + SheetText(sheet);
      WorkbookTextStep(sheets, s);
    }
    assert sheets[..|sheets|] == sheets;
  }

  // ---------------------------------------------------------------------
  // PowerPoint text
  // ---------------------------------------------------------------------

  /** A shape, with its text when it has a `text` attribute. */
  datatype Shape = Shape(text: Option<string>)

  datatype Slide = Slide(shapes: seq<Shape>)

  /** What one shape contributes: its text and a newline, or nothing. */
  function ShapeText(shape: Shape): string
  {
    match shape.text
    case Some(t) => t + "\n"
    case None => ""
  }

  /** The shapes of all slides, in slide order and then shape order. */
  function AllShapes(slides: seq<Slide>): seq<Shape>
  {
    if slides == [] then [] else AllShapes(slides[..|slides| - 1]) + slides[|slides| - 1].shapes
  }

  function ShapeTexts(shapes: seq<Shape>): (texts: seq<string>)
    ensures |texts| == |shapes|
  {
    seq(|shapes|, i requires 0 <= i < |shapes| => ShapeText(shapes[i]))
  }

  /** The text PowerPointManager.convert_to_pdf assembles. */
  function PresentationText(slides: seq<Slide>): string
  {
    Concat(ShapeTexts(AllShapes(slides)))
  }

  lemma ShapeTextsAppend(a: seq<Shape>, b: seq<Shape>)
    ensures ShapeTexts(a + b) == ShapeTexts(a) + ShapeTexts(b)
  {
    var all := ShapeTexts(a + b);
    var split := ShapeTexts(a) + ShapeTexts(b);
    forall i | 0 <= i < |all| ensures all[i] == split[i] {
      if i < |a| {
        assert (a + b)[i] == a[i];
      } else {
        assert (a + b)[i] == b[i - |a|];
      }
    }
  }

  /** Shapes without text contribute nothing: removing them does not change
      the assembled text. */
  lemma {:induction false} TextlessShapesIgnored(shapes: seq<Shape>)
    ensures Concat(ShapeTexts(shapes)) == Concat(ShapeTexts(WithText(shapes)))
    decreases |shapes|
  {
    if shapes != [] {
      var init := shapes[..|shapes| - 1];
      var last := shapes[|shapes| - 1];
      TextlessShapesIgnored(init);
      assert shapes == init + [last];
      ShapeTextsAppend(init, [last]);
      ConcatAppend(ShapeTexts(init), ShapeTexts([last]));
      assert ShapeTexts([last]) == [ShapeText(last)];
      ConcatSingle(ShapeText(last));
      if last.text.Some? {
        ShapeTextsAppend(WithText(init), [last]);
        ConcatAppend(ShapeTexts(WithText(init)), ShapeTexts([last]));
      } else {
        assert Concat(ShapeTexts(shapes)) == Concat(ShapeTexts(init)) + "";
      }
    }
  }

  /** The shapes that have text, in order. */
  function WithText(shapes: seq<Shape>): (r: seq<Shape>)
    ensures forall s :: s in r <==> s in shapes && s.text.Some?
  {
    if shapes == [] then []
    else
      var rest := WithText(shapes[..|shapes| - 1]);
      var last := shapes[|shapes| - 1];
      assert shapes == shapes[..|shapes| - 1] + [last];
      if last.text.Some? then rest + [last] else rest
  }

  /** A presentation without any text gives the empty text. */
  lemma NoTextNoOutput(slides: seq<Slide>)
    requires forall s :: s in AllShapes(slides) ==> s.text.None?
    ensures PresentationText(slides) == ""
  {
    TextlessShapesIgnored(AllShapes(slides));
    assert WithText(AllShapes(slides)) == [];
    assert ShapeTexts([]) == [];
  }

  /** One more shape adds what it contributes. */
  lemma ShapeTextsStep(before: seq<Shape>, shapes: seq<Shape>, k: nat)
    requires k < |shapes|
    ensures Concat(ShapeTexts(before + shapes[..k + 1]))
         == Concat(ShapeTexts(before + shapes[..k])) + ShapeText(shapes[k])
  {
    assert before + shapes[..k + 1] == (before + shapes[..k]) + [shapes[k]];
    ShapeTextsAppend(before + shapes[..k], [shapes[k]]);
    assert ShapeTexts([shapes[k]]) == [ShapeText(shapes[k])];
    ConcatAppend(ShapeTexts(before + shapes[..k]), [ShapeText(shapes[k])]);
    ConcatSingle(ShapeText(shapes[k]));
  }

  /** One more slide adds its shapes. */
  lemma AllShapesStep(slides: seq<Slide>, s: nat)
    requires s < |slides|
    ensures AllShapes(slides[..s + 1]) == AllShapes(slides[..s]) + slides[s].shapes
  {
    assert slides[..s + 1][..s] == slides[..s];
  }

  /** The PowerPointManager loops over slides and their shapes. */
  method PowerPointText(slides: seq<Slide>) returns (text: string)
    ensures text == PresentationText(slides)
  {
    text := "";
    for s := 0 to |slides|
      invariant text == PresentationText(slides[..s])
    {
      var shapes := slides[s].shapes;
      ghost var before := AllShapes(slides[..s]);
      assert before + shapes[..0] == before;
      for k := 0 to |shapes|
        invariant text == Concat(ShapeTexts(before + shapes[..k]))
      {
        ShapeTextsStep(before, shapes, k);
        if shapes[k].text.Some? {
          text := text + (shapes[k].text.value + "\n");
        }
      }
      assert shapes[..|shapes|] == shapes;
      AllShapesStep(slides, s);
    }
    assert slides[..|slides|] == slides;
  }

  // ---------------------------------------------------------------------
  // Conversion
  // ---------------------------------------------------------------------

  /** What the foreign decoders extract from an uploaded file: its bytes,
      the OCR text of an image, the UTF-8 text of a text file, the cells of
      a workbook and the shapes of a presentation. */
  datatype Document = Document(
    bytes: seq<bv8>,
    ocrText: string,
    decodedText: string,
    sheets: seq<Sheet>,
    slides: seq<Slide>)

  datatype Conversion = PdfBytes(bytes: seq<bv8>) | AttributeError(message: string)

  /** The text a converter other than the PDF one assembles. */
  function AssembledText(kind: ConverterKind, doc: Document): string
  {
    match kind
    case ImageConverter => doc.ocrText
    case TextConverter => doc.decodedText
    case PowerPointConverter => PresentationText(doc.slides)
    case ExcelConverter => WorkbookText(doc.sheets)
    case PdfConverter => ""
  }

  function ClassName(kind: ConverterKind): string
  {
    match kind
    case ImageConverter => "ImageManager"
    case TextConverter => "TextManager"
    case PowerPointConverter => "PowerPointManager"
    case PdfConverter => "PDFManager"
    case ExcelConverter => "ExcelManager"
  }

  /** convert_to_pdf as written: only PDFManager defines `_text_to_pdf`, so
      every other converter fails once its text is assembled. */
  function ConvertAsWritten(kind: ConverterKind, doc: Document): Conversion
  {
    if kind == PdfConverter then PdfBytes(doc.bytes)
    else AttributeError("'" + ClassName(kind) + "' object has no attribute '_text_to_pdf'")
  }

  /** Whatever the file, only a PDF is ever converted as written. */
  lemma OnlyPdfConverts(kind: ConverterKind, doc: Document)
    ensures ConvertAsWritten(kind, doc).PdfBytes? <==> kind == PdfConverter
  {
  }

  /** convert_to_pdf as intended: a PDF passes through unchanged, every other
      converter renders its assembled text with `render`. */
  function Convert(kind: ConverterKind, doc: Document, render: string -> seq<bv8>): Conversion
  {
    if kind == PdfConverter then PdfBytes(doc.bytes) else PdfBytes(render(AssembledText(kind, doc)))
  }

  /** Every converter succeeds; a PDF's bytes come back unchanged whatever the
      renderer, every other file comes back as the rendering of the text its
      converter assembles, and two files whose assembled texts agree convert
      alike. */
  lemma ConvertSpec(kind: ConverterKind, doc: Document, other: Document, render: string -> seq<bv8>)
    ensures Convert(kind, doc, render).PdfBytes?
    ensures kind == PdfConverter ==> Convert(kind, doc, render).bytes == doc.bytes
    ensures kind != PdfConverter ==> Convert(kind, doc, render) == PdfBytes(render(AssembledText(kind, doc)))
    ensures kind != PdfConverter && AssembledText(kind, doc) == AssembledText(kind, other) ==>
      Convert(kind, doc, render) == Convert(kind, other, render)
  {
  }
}
