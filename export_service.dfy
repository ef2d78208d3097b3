/**
 * The document exporter: file naming, the per-format exporters and the
 * dispatch on a format tag. Clock readings and the temporary directory are
 * parameters; a PDF, a DOCX document and a text file are modelled as the
 * sequence of calls, blocks and writes made on them.
 */
module ExportService {
  import opened Outcomes
  import opened Strings
  import opened DocumentModels

  /** The metadata dictionary the exporters read with `.get`. */
  type Metadata = map<string, string>

  /** `metadata.get(key, default)`. */
  function Get(metadata: Metadata, key: string, default: string): string {
    if key in metadata then metadata[key] else default
  }

  /** TUM corporate blue, the heading colour of the PDF. */
  const TumBlue: (nat, nat, nat) := (0, 101, 189)

  /** A `DocumentExporter`: its temporary directory, read once by the constructor. */
  datatype Exporter = Exporter(tempDir: string)

  // -------------------------------------------------------------- naming

  /** `doc_type.lower().replace(" ", "_")`. */
  function SafeDocType(docType: string): string {
    ReplaceChar(Lower(docType), ' ', '_')
  }

  /**
   * `_create_filename`: "TUM_", the sanitised type, "_", the timestamp
   * (`%Y%m%d_%H%M%S` of the clock reading), "." and the extension.
   */
  function CreateFilename(docType: string, extension: string, stamp: string): string {
    "TUM_" + SafeDocType(docType) + "_" + stamp + "." + extension
  }

  /**
   * The filename's parts, position by position: the prefix, each character
   * of the type lower-cased with spaces turned into '_', the separator, the
   * timestamp verbatim and the extension after the last '.'.
   */
  lemma CreateFilenameParts(docType: string, extension: string, stamp: string)
    ensures var r := CreateFilename(docType, extension, stamp);
      && |r| == 4 + |docType| + 1 + |stamp| + 1 + |extension|
      && r[..4] == "TUM_"
      && (forall i :: 0 <= i < |docType| ==>
            r[4 + i] == (if docType[i] == ' ' then '_' else LowerChar(docType[i])))
      && r[4 + |docType|] == '_'
      && r[4 + |docType| + 1..4 + |docType| + 1 + |stamp|] == stamp
      && r[|r| - |extension| - 1..] == "." + extension
  {
    var safe := SafeDocType(docType);
    var r := CreateFilename(docType, extension, stamp);
    assert r == "TUM_" + safe + "_" + stamp + "." + extension;
    forall i | 0 <= i < |docType|
      ensures r[4 + i] == (if docType[i] == ' ' then '_' else LowerChar(docType[i]))
    {
      assert r[4 + i] == safe[i];
    }
  }

  /** The sanitised part of a filename carries no space and no upper-case ASCII letter. */
  lemma SafeDocTypeClean(docType: string)
    ensures |SafeDocType(docType)| == |docType|
    ensures forall i :: 0 <= i < |SafeDocType(docType)| ==>
              SafeDocType(docType)[i] != ' ' && !('A' <= SafeDocType(docType)[i] <= 'Z')
  {
    var r := SafeDocType(docType);
    forall i | 0 <= i < |r| ensures r[i] != ' ' && !('A' <= r[i] <= 'Z') {
      assert r[i] == (if Lower(docType)[i] == ' ' then '_' else Lower(docType)[i]);
    }
  }

  /** Sanitising changes nothing in a type that is already lower-case and has no space. */
  lemma SafeDocTypeKeepsClean(docType: string)
    requires forall i :: 0 <= i < |docType| ==> docType[i] != ' ' && !('A' <= docType[i] <= 'Z')
    ensures SafeDocType(docType) == docType
  {
    var r := SafeDocType(docType);
    assert |r| == |docType|;
    forall i | 0 <= i < |r| ensures r[i] == docType[i] {
      assert Lower(docType)[i] == LowerChar(docType[i]);
    }
  }

  // ---------------------------------------------------------- file objects

  /** A text file opened for writing: what has been written so far. */
  class TextFile {
    var contents: string

    constructor ()
      ensures contents == ""
    {
      contents := "";
    }

    /** `f.write(s)`. */
    method Write(s: string)
      modifies this
      ensures contents == old(contents) + s
    {
      contents := contents + s;
    }
  }

  /** The calls made on an `FPDF` page, in order. */
  datatype PdfCall =
    | SetFont(family: string, style: string, size: nat)
    | SetTextColor(red: nat, green: nat, blue: nat)
    | Cell(text: string, newLine: bool, centered: bool)
    | MultiCell(text: string)

  class PdfDocument {
    var calls: seq<PdfCall>

    constructor ()
      ensures calls == []
    {
      calls := [];
    }

    method Add(call: PdfCall)
      modifies this
      ensures calls == old(calls) + [call]
    {
      calls := calls + [call];
    }
  }

  /** The blocks added to a python-docx `Document`, in order. */
  datatype DocxBlock = Heading(text: string, level: nat, centered: bool) | Paragraph(text: string)

  class DocxDocument {
    var blocks: seq<DocxBlock>

    constructor ()
      ensures blocks == []
    {
      blocks := [];
    }

    method Add(block: DocxBlock)
      modifies this
      ensures blocks == old(blocks) + [block]
    {
      blocks := blocks + [block];
    }
  }

  // ------------------------------------------------------------ layouts

  /** The heading every exporter writes: the type, defaulting to "Document". */
  function Title(metadata: Metadata): string {
    "TUM " + Get(metadata, "doc_type", "Document")
  }

  /** The tone line every exporter writes: the tone, defaulting to "Standard". */
  function ToneLine(metadata: Metadata): string {
    "Tone: " + Get(metadata, "tone", "Standard")
  }

  /** The type the filename is built from: defaulting to "document". */
  function FilenameType(metadata: Metadata): string {
    Get(metadata, "doc_type", "document")
  }

  function Rule(): string {
    Repeat('=', 50)
  }

  /** The header of the text export, everything written before the content. */
  function TxtHeader(metadata: Metadata, shownStamp: string): string {
    Title(metadata) + "\n"
    + (Rule() + "\n\n")
    + ("Generated on: " + shownStamp + "\n")
    + (ToneLine(metadata) + "\n")
    + (Rule() + "\n\n")
  }

  /** What `export_to_txt` writes to its file. */
  function TxtLayout(content: string, metadata: Metadata, shownStamp: string): string {
    TxtHeader(metadata, shownStamp) + content
  }

  /**
   * The text export is a header, independent of the content, followed by
   * the content verbatim as its final part.
   */
  lemma TxtLayoutParts(content: string, metadata: Metadata, shownStamp: string)
    ensures var text := TxtLayout(content, metadata, shownStamp);
            var header := TxtHeader(metadata, shownStamp);
      && |text| == |header| + |content|
      && text[..|header|] == header
      && text[|header|..] == content
  {
  }

  /** Two exports with the same metadata and time differ exactly in their content. */
  lemma TxtLayoutInjective(c1: string, c2: string, metadata: Metadata, shownStamp: string)
    ensures TxtLayout(c1, metadata, shownStamp) == TxtLayout(c2, metadata, shownStamp) <==> c1 == c2
  {
    var h := TxtHeader(metadata, shownStamp);
    if TxtLayout(c1, metadata, shownStamp) == TxtLayout(c2, metadata, shownStamp) {
      assert c1 == TxtLayout(c1, metadata, shownStamp)[|h|..];
      assert c2 == TxtLayout(c2, metadata, shownStamp)[|h|..];
    }
  }

  /** The calls `export_to_pdf` makes on its page: the heading, the information lines, then the body. */
  function PdfLayout(content: string, metadata: Metadata, shownStamp: string): seq<PdfCall> {
    PdfHeading(metadata) + PdfInfo(metadata, shownStamp) + PdfBody(content)
  }

  function PdfHeading(metadata: Metadata): seq<PdfCall> {
    [SetFont("Arial", "B", 16), SetTextColor(TumBlue.0, TumBlue.1, TumBlue.2), Cell(Title(metadata), true, true)]
  }

  function PdfInfo(metadata: Metadata, shownStamp: string): seq<PdfCall> {
    [SetFont("Arial", "I", 10), SetTextColor(128, 128, 128),
     Cell("Generated on: " + shownStamp, true, false), Cell(ToneLine(metadata), true, false)]
  }

  function PdfBody(content: string): seq<PdfCall> {
    [SetFont("Arial", "", 12), SetTextColor(0, 0, 0), MultiCell(content)]
  }

  /** The blocks `export_to_docx` adds to its document. */
  function DocxLayout(content: string, metadata: Metadata, shownStamp: string): seq<DocxBlock> {
    [ Heading(Title(metadata), 1, true),
      Paragraph("Generated on: " + shownStamp),
      Paragraph(ToneLine(metadata)),
      Paragraph(Rule()),
      Paragraph(content) ]
  }

  /** The three layouts carry the same heading and tone line, and the content as their last part. */
  lemma LayoutsAgree(content: string, metadata: Metadata, shownStamp: string)
    ensures PdfLayout(content, metadata, shownStamp)[2].text == Title(metadata)
    ensures DocxLayout(content, metadata, shownStamp)[0].text == Title(metadata)
    ensures PdfLayout(content, metadata, shownStamp)[6].text == ToneLine(metadata)
    ensures DocxLayout(content, metadata, shownStamp)[2].text == ToneLine(metadata)
    ensures PdfLayout(content, metadata, shownStamp)[9] == MultiCell(content)
    ensures DocxLayout(content, metadata, shownStamp)[4] == Paragraph(content)
    ensures TxtLayout(content, metadata, shownStamp)[|TxtHeader(metadata, shownStamp)|..] == content
  {
  }

  /**
   * The defaults differ by use: a missing type makes the heading say
   * "Document" while the filename is built from "document"; a missing tone
   * makes the tone line say "Standard". A present key is shown as given.
   */
  lemma MetadataDefaults(metadata: Metadata)
    ensures "doc_type" !in metadata ==> Title(metadata) == "TUM Document" && FilenameType(metadata) == "document"
    ensures "tone" !in metadata ==> ToneLine(metadata) == "Tone: Standard"
    ensures "doc_type" in metadata ==>
              Title(metadata) == "TUM " + metadata["doc_type"] && FilenameType(metadata) == metadata["doc_type"]
    ensures "tone" in metadata ==> ToneLine(metadata) == "Tone: " + metadata["tone"]
  {
  }

  // ---------------------------------------------------------- exporters

  /** The path an exporter returns: the temporary directory joined with a filename of its own extension. */
  function ExportPath(exporter: Exporter, metadata: Metadata, extension: string, fileStamp: string): (r: string)
    ensures var name := CreateFilename(FilenameType(metadata), extension, fileStamp);
            && |r| >= |exporter.tempDir| + |name|
            && r[..|exporter.tempDir|] == exporter.tempDir
            && r[|r| - |name|..] == name
  {
    PathJoin(exporter.tempDir, CreateFilename(FilenameType(metadata), extension, fileStamp))
  }

  /** `export_to_pdf`: the page's calls and the path it is saved under. */
  method ExportToPdf(exporter: Exporter, content: string, metadata: Metadata, shownStamp: string, fileStamp: string)
    returns (path: string, calls: seq<PdfCall>)
    ensures path == ExportPath(exporter, metadata, "pdf", fileStamp)
    ensures calls == PdfLayout(content, metadata, shownStamp)
  {
    calls := RenderPdf(content, metadata, shownStamp);
    var filename := CreateFilename(FilenameType(metadata), "pdf", fileStamp);
    path := PathJoin(exporter.tempDir, filename);
  }

  /** The drawing part of `export_to_pdf`: a new page and its calls, in order. */
  method RenderPdf(content: string, metadata: Metadata, shownStamp: string) returns (calls: seq<PdfCall>)
    ensures calls == PdfLayout(content, metadata, shownStamp)
  {
    var pdf := new PdfDocument();
    DrawHeading(pdf, metadata);
    DrawInfo(pdf, metadata, shownStamp);
    DrawBody(pdf, content);
    calls := pdf.calls;
  }

  method DrawHeading(pdf: PdfDocument, metadata: Metadata)
    modifies pdf
    ensures pdf.calls == old(pdf.calls) + PdfHeading(metadata)
  {
    pdf.Add(SetFont("Arial", "B", 16));
    pdf.Add(SetTextColor(TumBlue.0, TumBlue.1, TumBlue.2));
    pdf.Add(Cell(Title(metadata), true, true));
  }

  method DrawInfo(pdf: PdfDocument, metadata: Metadata, shownStamp: string)
    modifies pdf
    ensures pdf.calls == old(pdf.calls) + PdfInfo(metadata, shownStamp)
  {
    pdf.Add(SetFont("Arial", "I", 10));
    pdf.Add(SetTextColor(128, 128, 128));
    pdf.Add(Cell("Generated on: " + shownStamp, true, false));
    pdf.Add(Cell(ToneLine(metadata), true, false));
  }

  method DrawBody(pdf: PdfDocument, content: string)
    modifies pdf
    ensures pdf.calls == old(pdf.calls) + PdfBody(content)
  {
    pdf.Add(SetFont("Arial", "", 12));
    pdf.Add(SetTextColor(0, 0, 0));
    pdf.Add(MultiCell(content));
  }

  /** `export_to_docx`: the document's blocks and the path it is saved under. */
  method ExportToDocx(exporter: Exporter, content: string, metadata: Metadata, shownStamp: string, fileStamp: string)
    returns (path: string, blocks: seq<DocxBlock>)
    ensures path == ExportPath(exporter, metadata, "docx", fileStamp)
    ensures blocks == DocxLayout(content, metadata, shownStamp)
  {
    var doc := new DocxDocument();
    doc.Add(Heading(Title(metadata), 1, true));
    doc.Add(Paragraph("Generated on: " + shownStamp));
    doc.Add(Paragraph(ToneLine(metadata)));
    doc.Add(Paragraph(Repeat('=', 50)));
    doc.Add(Paragraph(content));
    blocks := doc.blocks;
    assert blocks == DocxLayout(content, metadata, shownStamp);
    var filename := CreateFilename(FilenameType(metadata), "docx", fileStamp);
    path := PathJoin(exporter.tempDir, filename);
  }

  /** `export_to_txt`: the text written to the file and the file's path. */
  method ExportToTxt(exporter: Exporter, content: string, metadata: Metadata, shownStamp: string, fileStamp: string)
    returns (path: string, written: string)
    ensures path == ExportPath(exporter, metadata, "txt", fileStamp)
    ensures written == TxtLayout(content, metadata, shownStamp)
  {
    var filename := CreateFilename(FilenameType(metadata), "txt", fileStamp);
    path := PathJoin(exporter.tempDir, filename);
    var f := new TextFile();
    f.Write(Title(metadata) + "\n");
    assert f.contents == Title(metadata) + "\n";
    f.Write(Repeat('=', 50) + "\n\n");
    f.Write("Generated on: " + shownStamp + "\n");
    f.Write(ToneLine(metadata) + "\n");
    f.Write(Repeat('=', 50) + "\n\n");
    assert f.contents == TxtHeader(metadata, shownStamp);
    f.Write(content);
    written := f.contents;
  }

  // ------------------------------------------------------------ dispatch

  /** What an export produces: the page calls, the document blocks or the written text. */
  datatype Output = PdfOutput(calls: seq<PdfCall>) | DocxOutput(blocks: seq<DocxBlock>) | TxtOutput(text: string)

  datatype Exported = Exported(path: string, output: Output)

  /** The `if`/`elif` chain of `export_document`: exact, case-sensitive comparison of the tag. */
  function ExportTarget(format: string): (r: Result<ExportFormat>)
    ensures r.Err? ==> r.error == UnsupportedFormat(format)
  {
    if format == "pdf" then Ok(Pdf)
    else if format == "docx" then Ok(Docx)
    else if format == "txt" then Ok(Txt)
    else Err(UnsupportedFormat(format))
  }

  /**
   * The accepted tags are exactly the values of `ExportFormat`, each routed
   * to the exporter of that format; any other string, upper-case spellings
   * included, is refused.
   */
  lemma ExportTargetIsEnum(format: string)
    ensures ExportTarget(format).Ok? <==> ParseExportFormat(format).Ok?
    ensures ExportTarget(format).Ok? ==> ExportTarget(format).value.Value() == format
    ensures forall f: ExportFormat :: ExportTarget(f.Value()) == Ok(f)
    ensures ExportTarget("PDF").Err? && ExportTarget("Txt").Err?
  {
  }

  /** `export_document`: dispatch on the tag, ValueError for any other. */
  method ExportDocument(exporter: Exporter, content: string, metadata: Metadata, format: string,
                        shownStamp: string, fileStamp: string) returns (r: Result<Exported>)
    ensures r.Ok? <==> ExportTarget(format).Ok?
    ensures r.Err? ==> r.error == UnsupportedFormat(format)
    ensures r.Ok? ==> r.value.path == ExportPath(exporter, metadata, format, fileStamp)
    ensures r.Ok? && format == "pdf" ==> r.value.output == PdfOutput(PdfLayout(content, metadata, shownStamp))
    ensures r.Ok? && format == "docx" ==> r.value.output == DocxOutput(DocxLayout(content, metadata, shownStamp))
    ensures r.Ok? && format == "txt" ==> r.value.output == TxtOutput(TxtLayout(content, metadata, shownStamp))
  {
    if format == "pdf" {
      var path, calls := ExportToPdf(exporter, content, metadata, shownStamp, fileStamp);
      r := Ok(Exported(path, PdfOutput(calls)));
    } else if format == "docx" {
      var path, blocks := ExportToDocx(exporter, content, metadata, shownStamp, fileStamp);
      r := Ok(Exported(path, DocxOutput(blocks)));
    } else if format == "txt" {
      var path, text := ExportToTxt(exporter, content, metadata, shownStamp, fileStamp);
      r := Ok(Exported(path, TxtOutput(text)));
    } else {
      r := Err(UnsupportedFormat(format));
    }
  }
}
