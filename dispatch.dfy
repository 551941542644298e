/** The upload pipeline's first half, which app.py (`upload_file`) and
    app/services/document_service.py (`process_upload`) write out the same way: convert
    a legacy `.ppt` to `.pptx` and a `.doc`/`.docx` to a PDF, then send the file to the
    chunker its extension selects, with that chunker's default parameters. The
    converters are external programs; each either writes its output or raises. What
    the parsing libraries read from the file at a path is given by `Readers`. Files on
    disk are a set of present paths. */
module Dispatch {
  import opened Common
  import opened Records
  import opened Paths
  import opened Http
  import opened UpsertBatching
  import opened PdfChunker
  import opened ExcelChunker
  import opened PptChunker

  /** The loaders' default parameters, which both callers rely on. */
  const PdfChunkSize: int := 1000
  const PdfOverlap: int := 100
  const RowsPerChunk: int := 5
  const SlideChunkSize: int := 1000
  const SlideOverlap: int := 100

  /** What PyMuPDF, pandas and python-pptx make of the file at a path. */
  datatype Readers = Readers(pdf: string -> PdfDoc, book: string -> Workbook, deck: string -> PptDoc)

  /** The start of the 422 detail both upload paths raise when the `.ppt` block fails. */
  const PptFailurePrefix: string := "PPT conversion failed: "

  /** How an external converter behaves on this upload. */
  datatype Conversion = Converts | Fails(message: string)

  /** An exception raised on the way. */
  datatype PyError =
    | ConverterRaised(message: string)  // a converter's own error
    | NotFound(path: string)            // `os.remove` or a reader on a missing path
    | Unreadable(path: string)          // a reader that cannot parse the file
    | NothingToUnpack                   // unpacking the `None` the PDF loader returns for a missing file
    | SheetsRaised(sheetError: ExcelError) // what the spreadsheet loader lets escape
    | IndexRaised(indexError: UpsertError) // what `embed_and_upsert` lets escape
    | Refused(httpError: HttpError)        // an `HTTPException`

  /** The chunker a file goes to. */
  datatype Route = ExcelRoute | PptRoute | PdfRoute

  /** `if ext in ['.xlsx', '.xls'] ... elif ext == '.pptx' ... else`: everything that is
      neither a spreadsheet nor a `.pptx` deck is read as a PDF. */
  function Loader(ext: string): (r: Route)
    ensures r == ExcelRoute <==> ext == ".xlsx" || ext == ".xls"
    ensures r == PptRoute <==> ext == ".pptx"
  {
    if ext == ".xlsx" || ext == ".xls" then ExcelRoute
    else if ext == ".pptx" then PptRoute
    else PdfRoute
  }

  /** The state after the conversions: the path the spreadsheet and deck loaders read
      (`save_path`), the extension that selects the chunker, the path the PDF loader
      reads, whether the saved original is removed at the end (`flag`), and the disk. */
  datatype Staged = Staged(savePath: string, ext: string, pdfPath: string, cleanup: bool, disk: set<string>)

  /** A conversion that raised: `inPpt` when it was inside the `.ppt` block's `try`,
      with the disk as the exception left it and the value `save_path` had then. */
  datatype StageError = StageError(inPpt: bool, cause: PyError, disk: set<string>, savePath: string)

  /** The conversion steps, from the saved file at `savePath`. A `.ppt` is replaced by
      `<stem>.pptx`, and `<stem of that>.ppt` is removed (raising when no such file
      exists, for instance when the original's extension was not lower case). A `.doc`
      or `.docx` is converted next to itself to `<stem>.pdf` and is removed after
      ingestion. */
  function Stage(savePath: string, disk: set<string>, ppt: Conversion, doc: Conversion): Result<Staged, StageError>
  {
    var ext := LowerExt(savePath);
    if ext == ".ppt" then
      match ppt
      case Fails(m) => Err(StageError(true, ConverterRaised(m), disk, savePath))
      case Converts =>
        var pptx := WithExt(savePath, ".pptx");
        var original := WithExt(pptx, ".ppt");
        var written := disk + {pptx};
        if original !in written then Err(StageError(true, NotFound(original), written, pptx))
        else Ok(Staged(pptx, ".pptx", pptx, false, written - {original}))
    else if ext == ".doc" || ext == ".docx" then
      match doc
      case Fails(m) => Err(StageError(false, ConverterRaised(m), disk, savePath))
      case Converts =>
        var pdf := WithExt(savePath, ".pdf");
        Ok(Staged(savePath, ext, pdf, true, disk + {pdf}))
    else Ok(Staged(savePath, ext, savePath, false, disk))
  }

  /** The conversion steps for an upload named `name`, saved into the upload directory. */
  function Staging(name: string, disk: set<string>, ppt: Conversion, doc: Conversion): Result<Staged, StageError>
  {
    var savePath := JoinPath(UploadDir, name);
    Stage(savePath, disk + {savePath}, ppt, doc)
  }

  /** The path the selected chunker reads. */
  function LoaderPath(st: Staged): string
  {
    if Loader(st.ext) == PdfRoute then st.pdfPath else st.savePath
  }

  /** Which chunker each upload reaches, on which path, and what is left on disk: the
      dispatch table of both upload paths. */
  lemma StageTable(savePath: string, disk: set<string>, ppt: Conversion, doc: Conversion)
    requires savePath in disk
    ensures var ext := LowerExt(savePath);
      var r := Stage(savePath, disk, ppt, doc);
      && (ext == ".ppt" && ppt.Fails? ==> r.Err? && r.error.inPpt)
      && (ext == ".ppt" && r.Ok? ==>
            && Loader(r.value.ext) == PptRoute && LoaderPath(r.value) == WithExt(savePath, ".pptx")
            && LoaderPath(r.value) in r.value.disk && WithExt(LoaderPath(r.value), ".ppt") !in r.value.disk
            && !r.value.cleanup)
      && ((ext == ".doc" || ext == ".docx") ==>
            (doc.Fails? <==> r.Err?) && (r.Err? ==> !r.error.inPpt && r.error.disk == disk))
      && ((ext == ".doc" || ext == ".docx") && r.Ok? ==>
            && Loader(r.value.ext) == PdfRoute && LoaderPath(r.value) == WithExt(savePath, ".pdf")
            && LoaderPath(r.value) in r.value.disk && r.value.cleanup && savePath in r.value.disk)
      && (ext != ".ppt" && ext != ".doc" && ext != ".docx" ==>
            r == Ok(Staged(savePath, ext, savePath, false, disk))
            && Loader(ext) == (if ext == ".xlsx" || ext == ".xls" then ExcelRoute else if ext == ".pptx" then PptRoute else PdfRoute))
  {
  }

  /** What the conversions leave once the upload has been ingested (a converted
      `.doc`/`.docx` original is removed last): the file the chunker read is there; the
      `.doc`/`.docx` original is not, nor is a `.ppt` original; anything else stays where
      it was saved. */
  lemma StageLeaves(savePath: string, disk: set<string>, ppt: Conversion, doc: Conversion)
    requires savePath in disk && Stage(savePath, disk, ppt, doc).Ok?
    ensures var ext := LowerExt(savePath);
      var st := Stage(savePath, disk, ppt, doc).value;
      var left := if st.cleanup then st.disk - {st.savePath} else st.disk;
      && LoaderPath(st) in left
      && ((ext == ".doc" || ext == ".docx") ==> savePath !in left && LoaderPath(st) == WithExt(savePath, ".pdf"))
      && (ext == ".ppt" ==> LoaderPath(st) == WithExt(savePath, ".pptx") && WithExt(LoaderPath(st), ".ppt") !in left)
      && (ext != ".ppt" && ext != ".doc" && ext != ".docx" ==> left == disk && LoaderPath(st) == savePath)
  {
    StageTable(savePath, disk, ppt, doc);
    var ext := LowerExt(savePath);
    if ext == ".doc" || ext == ".docx" {
      PdfPathDiffers(savePath);
    }
  }

  /** The PDF a `.doc`/`.docx` converts to is another file. */
  lemma PdfPathDiffers(p: string)
    requires LowerExt(p) == ".doc" || LowerExt(p) == ".docx"
    ensures WithExt(p, ".pdf") != p
  {
    var parts := SplitExt(p);
    assert Lower(parts.1)[1] == 'd';
    assert (parts.0 + ".pdf")[|parts.0| + 1] == 'p';
    assert p[|parts.0| + 1] == parts.1[1];
  }

  /** With its default parameters the deck loader always returns: its stride of 900 is
      positive. */
  lemma DefaultSlidesTerminate(path: string, present: bool, doc: PptDoc)
    ensures PptResult(path, present, doc, SlideChunkSize, SlideOverlap).Returned?
  {
    if present && doc.Deck? && DeckOutcome(Basename(path), doc.slides, SlideChunkSize, SlideChunkSize - SlideOverlap).None? {
      var k := DivergingSlide(Basename(path), doc.slides, SlideChunkSize, SlideChunkSize - SlideOverlap);
    }
  }

  /** What a chunker returns on a path (its chunk list is the texts of these records)
      or raises. A missing PDF makes its loader return `None`, which the caller then
      fails to unpack. */
  function Load(route: Route, path: string, disk: set<string>, readers: Readers): Result<seq<ChunkMeta>, PyError>
  {
    match route
    case ExcelRoute =>
      (match ExcelResult(path, path in disk, readers.book(path), RowsPerChunk)
       case Err(e) => Err(SheetsRaised(e))
       case Ok(p) => Ok(p.1))
    case PptRoute =>
      DefaultSlidesTerminate(path, path in disk, readers.deck(path));
      Ok(PptResult(path, path in disk, readers.deck(path), SlideChunkSize, SlideOverlap).metadata)
    case PdfRoute =>
      if path !in disk then Err(NothingToUnpack)
      else Ok(PdfMetas(path, readers.pdf(path), PdfChunkSize, PdfOverlap))
  }

  /** Calling a chunker with its default parameters. */
  method LoadFile(route: Route, path: string, disk: set<string>, readers: Readers) returns (r: Result<seq<ChunkMeta>, PyError>)
    ensures r == Load(route, path, disk, readers)
  {
    match route
    case ExcelRoute =>
      var x := LoadAndChunkExcel(path, path in disk, readers.book(path), RowsPerChunk);
      if x.Err? {
        return Err(SheetsRaised(x.error));
      }
      return Ok(x.value.1);
    case PptRoute =>
      var o := LoadAndChunkPpt(path, path in disk, readers.deck(path), SlideChunkSize, SlideOverlap);
      DefaultSlidesTerminate(path, path in disk, readers.deck(path));
      return Ok(o.metadata);
    case PdfRoute =>
      var p := LoadAndChunkPdf(path, path in disk, readers.pdf(path), PdfChunkSize, PdfOverlap);
      if p.None? {
        return Err(NothingToUnpack);
      }
      return Ok(p.value.1);
  }

  /** The chunker the staged upload selects, on the path it reads. */
  function Chunked(st: Staged, readers: Readers): Result<seq<ChunkMeta>, PyError>
  {
    Load(Loader(st.ext), LoaderPath(st), st.disk, readers)
  }

  /** Every record names the file the chunker read by its base name: the name the
      index ids are built from. */
  lemma LoadSources(route: Route, path: string, disk: set<string>, readers: Readers)
    requires Load(route, path, disk, readers).Ok?
    ensures forall j :: 0 <= j < |Load(route, path, disk, readers).value| ==> Load(route, path, disk, readers).value[j].source == Basename(path)
  {
    var ms := Load(route, path, disk, readers).value;
    var source := Basename(path);
    match route
    case ExcelRoute =>
      var wb := readers.book(path);
      forall j | 0 <= j < |ms|
        ensures ms[j].source == source
      {
        var k, i := BookRecordOrigin(source, wb.sheets, RowsPerChunk, j);
        SheetRecordShape(source, wb.sheets[k], RowsPerChunk, i);
      }
    case PptRoute =>
      var doc := readers.deck(path);
      if path in disk && doc.Deck? {
        assert doc == Deck(doc.slides);
        DefaultSlidesTerminate(path, true, doc);
        forall j | 0 <= j < |ms|
          ensures ms[j].source == source
        {
          PptRecordShape(path, doc.slides, SlideChunkSize, SlideOverlap, j);
        }
      }
    case PdfRoute =>
      var doc := readers.pdf(path);
      if doc.Pages? {
        forall j | 0 <= j < |ms|
          ensures ms[j].source == source
        {
          PdfMetaShape(path, doc.pages, PdfChunkSize, PdfOverlap, j);
        }
      }
  }
}
