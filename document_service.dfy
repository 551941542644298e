/** `DocumentService.process_upload` (app/services/document_service.py): the versioned
    upload path. It records the upload in the ledger before touching the file, runs the
    same conversions and chunkers as app.py, counts the file's sheets, slides or pages,
    writes one `VectorMetadata` record per chunk, hands the chunks to the service's
    `embed_and_upsert` and marks the row completed. Any exception marks the row failed,
    removes the current saved file and is re-raised as a 500. */
module DocumentService {
  import opened Common
  import opened Records
  import opened Paths
  import opened Http
  import opened VectorStore
  import opened UpsertBatching
  import opened Dispatch
  import opened Ledger
  import opened Answers
  import ExcelChunker
  import EmbeddingService

  /** The batch size the service's `embed_and_upsert` is called with by default. */
  const ServiceBatchSize: int := 100

  const NoContentMessage: string := "No content could be extracted"
  const NoContentDetail: string := "No content could be extracted from the file"
  const ProcessingFailedPrefix: string := "Processing failed: "
  const ProcessedSuffix: string := " uploaded and processed successfully!"

  /** The row `create()` inserts: type from the upload's own name, size 0, the PDF
      chunking settings, status processing. */
  function NewRow(name: string): Row
  {
    Row(name, name, LowerExt(name), 0, PdfChunkSize, PdfOverlap, Processing, None, None, None, None, None, false)
  }

  /** `str(e)`: an `HTTPException` renders as `"<status>: <detail>"`, anything else as
      its own text. */
  function Str(describe: PyError -> string, e: PyError): string
  {
    if e.Refused? then Rendered(e.httpError) else describe(e)
  }

  /** The dict `process_upload` returns; `document_id` is not modelled. */
  datatype UploadReply = UploadReply(message: string, filename: string, chunksCreated: nat)

  /** What an upload did: the row states it saved in order, the records it inserted, the
      requests it sent the index, the disk afterwards, and its reply. */
  datatype Processed = Processed(
    saves: seq<Row>,
    records: seq<VectorRecord>,
    sent: seq<Request>,
    disk: set<string>,
    reply: Result<UploadReply, HttpError>)

  /** The ledger record of chunk `i` of `name`, from the chunk's metadata dict. */
  function RecordFor(name: string, i: nat, d: MetaDict): VectorRecord
  {
    VectorRecord(VectorId(name, i), name, i, d.page, d.slide, d.sheet, d.startRow, d.endRow,
                 |d.text.GetOr("")|, d.hasImages.GetOr(false), d.imageCount.GetOr(0), EmbeddingModel)
  }

  /** One record per metadata dict, in order. */
  function VectorRecords(name: string, metadata: seq<MetaDict>): seq<VectorRecord>
  {
    seq(|metadata|, i requires 0 <= i < |metadata| => RecordFor(name, i, metadata[i]))
  }

  /** The `for i, meta in enumerate(metadata)` loop that builds the records. */
  method BuildRecords(name: string, metadata: seq<MetaDict>) returns (records: seq<VectorRecord>)
    ensures records == VectorRecords(name, metadata)
  {
    records := [];
    var i := 0;
    while i < |metadata|
      invariant 0 <= i <= |metadata|
      invariant records == VectorRecords(name, metadata[..i])
    {
      records := records + [RecordFor(name, i, metadata[i])];
      i := i + 1;
    }
    assert metadata[..i] == metadata;
  }

  function SheetNames(sheets: seq<ExcelChunker.SheetData>): (names: seq<string>)
    ensures |names| == |sheets| && forall k :: 0 <= k < |sheets| ==> names[k] == sheets[k].name
  {
    seq(|sheets|, k requires 0 <= k < |sheets| => sheets[k].name)
  }

  /** The count step after chunking: `pd.ExcelFile(...).sheet_names`,
      `len(Presentation(...).slides)` or `len(fitz.open(...))`, each of which raises on a
      missing or unparsable file. */
  function Counted(st: Staged, readers: Readers, row: Row): Result<Row, PyError>
  {
    match Loader(st.ext)
    case ExcelRoute =>
      var wb := readers.book(st.savePath);
      if st.savePath !in st.disk then Err(NotFound(st.savePath))
      else if wb.Unreadable? then Err(PyError.Unreadable(st.savePath))
      else Ok(row.(sheetNames := Some(SheetNames(wb.sheets))))
    case PptRoute =>
      var deck := readers.deck(st.savePath);
      if st.savePath !in st.disk then Err(NotFound(st.savePath))
      else if deck.Unopenable? then Err(PyError.Unreadable(st.savePath))
      else Ok(row.(totalSlides := Some(|deck.slides|)))
    case PdfRoute =>
      var pdf := readers.pdf(st.pdfPath);
      if st.pdfPath !in st.disk then Err(NotFound(st.pdfPath))
      else if pdf.Unopenable? then Err(PyError.Unreadable(st.pdfPath))
      else Ok(row.(totalPages := Some(|pdf.pages|)))
  }

  /** The `except Exception` handler: the row is saved as failed with `str(e)`, the
      current saved file is removed if it exists, and a 500 is raised. */
  function Failing(saves: seq<Row>, row: Row, cause: PyError, records: seq<VectorRecord>, sent: seq<Request>,
                   disk: set<string>, path: string, describe: PyError -> string): (p: Processed)
    ensures p.saves != []
    ensures |p.saves| == |saves| + 1 && p.saves[..|saves|] == saves
    ensures p.reply.Err? && p.reply.error.status == 500
  {
    var failed := row.(status := Failed, errorMessage := Some(Str(describe, cause)));
    Processed(saves + [failed], records, sent, disk - {path}, Err(HttpError(500, ProcessingFailedPrefix + Str(describe, cause))))
  }

  /** The whole upload of `name` (`size` bytes) onto `disk`. */
  function ProcessResult(name: string, size: nat, disk: set<string>, readers: Readers, ppt: Conversion, doc: Conversion,
                         embed: string -> Vector, failAt: Option<nat>, describe: PyError -> string): (p: Processed)
    ensures p.saves != []
    ensures |p.saves| >= 3 && p.saves[..2] == [NewRow(name), NewRow(name).(fileSize := size)]
  {
    var sized := NewRow(name).(fileSize := size);
    match Staging(name, disk, ppt, doc)
    case Err(e) => StageFailure(name, size, e, describe)
    case Ok(st) => Ingest(name, [NewRow(name), sized], sized, st, Chunked(st, readers), readers, embed, failAt, describe)
  }

  /** A conversion that raised. Inside the `.ppt` block the row is first saved as failed
      with the conversion message, and a 422 is raised, which the outer handler turns
      into a 500. */
  function StageFailure(name: string, size: nat, e: StageError, describe: PyError -> string): (p: Processed)
    ensures p.saves != []
    ensures |p.saves| >= 3 && p.saves[0] == NewRow(name) && p.saves[1] == NewRow(name).(fileSize := size)
    ensures p.reply.Err? && p.records == [] && p.sent == []
  {
    var created := NewRow(name);
    var sized := created.(fileSize := size);
    if e.inPpt then
      var detail := PptFailurePrefix + describe(e.cause);
      var refused := sized.(status := Failed, errorMessage := Some(detail));
      Failing([created, sized, refused], refused, Refused(HttpError(422, detail)), [], [], e.disk, e.savePath, describe)
    else Failing([created, sized], sized, e.cause, [], [], e.disk, e.savePath, describe)
  }

  /** From the chunker's result on the staged file: count, refuse an empty result, then
      index. */
  function Ingest(name: string, saves: seq<Row>, row: Row, st: Staged, loaded: Result<seq<ChunkMeta>, PyError>,
                  readers: Readers, embed: string -> Vector, failAt: Option<nat>, describe: PyError -> string): (p: Processed)
    ensures p.saves != []
    ensures |p.saves| > |saves| && p.saves[..|saves|] == saves
  {
    match loaded
    case Err(c) => Failing(saves, row, c, [], [], st.disk, st.savePath, describe)
    case Ok(ms) =>
      match Counted(st, readers, row)
      case Err(c) => Failing(saves, row, c, [], [], st.disk, st.savePath, describe)
      case Ok(counted) =>
        if ms == [] then
          var empty := counted.(status := Failed, errorMessage := Some(NoContentMessage));
          Failing(saves + [empty], empty, Refused(HttpError(422, NoContentDetail)), [], [], st.disk, st.savePath, describe)
        else Index(name, saves, counted, st, ms, embed, failAt, describe)
  }

  /** From the chunk records: save the count, insert the ledger records, upsert, and
      mark the row completed; a converted `.doc`/`.docx` original is removed last. */
  function Index(name: string, saves: seq<Row>, row: Row, st: Staged, ms: seq<ChunkMeta>,
                 embed: string -> Vector, failAt: Option<nat>, describe: PyError -> string): (p: Processed)
    requires ms != []
    ensures p.saves != []
    ensures |p.saves| > |saves| && p.saves[..|saves|] == saves
  {
    var withCount := row.(totalChunks := Some(|ms|));
    var records := VectorRecords(name, Dicts(ms));
    var call := IndexCall(ms, embed, failAt);
    var sent := call.0;
    match call.1
    case Some(e) => Failing(saves + [withCount], withCount, IndexRaised(e), records, sent, st.disk, st.savePath, describe)
    case None =>
      var done := withCount.(status := Completed, processed := true);
      Processed(saves + [withCount, done], records, sent, if st.cleanup then st.disk - {st.savePath} else st.disk,
                Ok(UploadReply(name + ProcessedSuffix, name, |ms|)))
  }

  /** The service's `embed_and_upsert(chunks, metadata)` on the chunk records: the
      requests it sends and the error it raises, if any. */
  function IndexCall(ms: seq<ChunkMeta>, embed: string -> Vector, failAt: Option<nat>): (seq<Request>, Option<UpsertError>)
    requires ms != []
  {
    var run := Plan(|ms|, |ms|, ServiceBatchSize, failAt);
    (Upserts(EmbeddingService.IdPrefix(Dicts(ms)), EmbeddingService.EmbedChunks(embed, Texts(ms)), Dicts(ms), run.spans), run.error)
  }

  /** The ledger records and the call into the embedding service. */
  method RecordAndEmbed(name: string, ms: seq<ChunkMeta>, embed: string -> Vector, failAt: Option<nat>)
    returns (records: seq<VectorRecord>, sent: seq<Request>, err: Option<UpsertError>)
    requires ms != []
    ensures records == VectorRecords(name, Dicts(ms)) && (sent, err) == IndexCall(ms, embed, failAt)
  {
    var metadata := Dicts(ms);
    records := BuildRecords(name, metadata);
    sent, err := EmbeddingService.EmbedAndUpsert(embed, Texts(ms), metadata, ServiceBatchSize, failAt);
  }

  function LastSaved(p: Processed): Row
    requires p.saves != []
  {
    p.saves[|p.saves| - 1]
  }

  /** `process_upload`: the ledger ends with the upload's row in its last saved state
      and the records it inserted. */
  method ProcessUpload(db: Database, name: string, size: nat, disk: set<string>, readers: Readers,
                       ppt: Conversion, doc: Conversion, embed: string -> Vector, failAt: Option<nat>,
                       describe: PyError -> string)
    returns (p: Processed)
    modifies db
    ensures p == ProcessResult(name, size, disk, readers, ppt, doc, embed, failAt, describe)
    ensures p.saves != [] && db.documents == old(db.documents) + [LastSaved(p)]
    ensures db.vectors == old(db.vectors) + p.records
  {
    var row := NewRow(name);
    var idx := db.Create(row);
    row := row.(fileSize := size);
    db.Save(idx, row);
    SaveLast(old(db.documents), NewRow(name), row);
    var staged := Staging(name, disk, ppt, doc);
    if staged.Err? {
      p := StageFailed(db, idx, name, size, staged.error, describe);
    } else {
      var st := staged.value;
      var loaded := LoadFile(Loader(st.ext), LoaderPath(st), st.disk, readers);
      assert loaded == Chunked(st, readers);
      p := IngestStaged(db, idx, name, [NewRow(name), row], row, st, loaded, readers, embed, failAt, describe);
    }
  }

  lemma SaveLast(rows: seq<Row>, a: Row, b: Row)
    ensures (rows + [a])[|rows| := b] == rows + [b]
    ensures (rows + [a])[..|rows|] == rows
  {
  }

  /** The `.ppt` block's handler, then the outer one. */
  method StageFailed(db: Database, idx: nat, name: string, size: nat, e: StageError, describe: PyError -> string)
    returns (p: Processed)
    requires idx + 1 == |db.documents|
    modifies db
    ensures p == StageFailure(name, size, e, describe)
    ensures p.saves != [] && db.documents == old(db.documents)[..idx] + [LastSaved(p)] && db.vectors == old(db.vectors)
  {
    var row := NewRow(name).(fileSize := size);
    var saves := [NewRow(name), row];
    var cause := e.cause;
    if e.inPpt {
      var detail := PptFailurePrefix + describe(e.cause);
      row := row.(status := Failed, errorMessage := Some(detail));
      db.Save(idx, row);
      saves := saves + [row];
      cause := Refused(HttpError(422, detail));
    }
    p := Fail(db, idx, saves, row, cause, [], [], e.disk, e.savePath, describe);
  }

  /** The exception handler: the row is saved as failed and the file removed. */
  method Fail(db: Database, idx: nat, saves: seq<Row>, row: Row, cause: PyError,
              records: seq<VectorRecord>, sent: seq<Request>, disk: set<string>, path: string,
              describe: PyError -> string)
    returns (p: Processed)
    requires idx + 1 == |db.documents|
    modifies db
    ensures p == Failing(saves, row, cause, records, sent, disk, path, describe)
    ensures p.saves != [] && db.documents == old(db.documents)[..idx] + [LastSaved(p)] && db.vectors == old(db.vectors)
  {
    var message := Str(describe, cause);
    var failed := row.(status := Failed, errorMessage := Some(message));
    db.Save(idx, failed);
    var remaining := if path in disk then disk - {path} else disk;
    p := Processed(saves + [failed], records, sent, remaining, Err(HttpError(500, ProcessingFailedPrefix + message)));
  }

  /** From the chunker's result: the count step, the empty-result refusal, indexing. */
  method IngestStaged(db: Database, idx: nat, name: string, saves: seq<Row>, row: Row, st: Staged,
                      loaded: Result<seq<ChunkMeta>, PyError>, readers: Readers, embed: string -> Vector,
                      failAt: Option<nat>, describe: PyError -> string)
    returns (p: Processed)
    requires idx + 1 == |db.documents|
    modifies db
    ensures p == Ingest(name, saves, row, st, loaded, readers, embed, failAt, describe)
    ensures p.saves != [] && db.documents == old(db.documents)[..idx] + [LastSaved(p)] && db.vectors == old(db.vectors) + p.records
  {
    if loaded.Err? {
      p := Fail(db, idx, saves, row, loaded.error, [], [], st.disk, st.savePath, describe);
      return;
    }
    var ms := loaded.value;
    var counted := Counted(st, readers, row);
    if counted.Err? {
      p := Fail(db, idx, saves, row, counted.error, [], [], st.disk, st.savePath, describe);
      return;
    }
    var current := counted.value;
    if ms == [] {
      current := current.(status := Failed, errorMessage := Some(NoContentMessage));
      db.Save(idx, current);
      p := Fail(db, idx, saves + [current], current, Refused(HttpError(422, NoContentDetail)), [], [], st.disk, st.savePath, describe);
      return;
    }
    p := IndexChunks(db, idx, name, saves, current, st, ms, embed, failAt, describe);
  }

  /** Saving the count, inserting the records, the upsert, and completion. */
  method IndexChunks(db: Database, idx: nat, name: string, saves: seq<Row>, row: Row, st: Staged,
                     ms: seq<ChunkMeta>, embed: string -> Vector, failAt: Option<nat>, describe: PyError -> string)
    returns (p: Processed)
    requires idx + 1 == |db.documents| && ms != []
    modifies db
    ensures p == Index(name, saves, row, st, ms, embed, failAt, describe)
    ensures p.saves != [] && db.documents == old(db.documents)[..idx] + [LastSaved(p)] && db.vectors == old(db.vectors) + p.records
  {
    var current := row.(totalChunks := Some(|ms|));
    db.Save(idx, current);
    var saved := saves + [current];
    var records, sent, err := RecordAndEmbed(name, ms, embed, failAt);
    db.InsertMany(records);
    if err.Some? {
      p := Fail(db, idx, saved, current, IndexRaised(err.value), records, sent, st.disk, st.savePath, describe);
      assert p == Index(name, saves, row, st, ms, embed, failAt, describe);
      return;
    }
    var done := current.(status := Completed, processed := true);
    var before := db.documents;
    db.Save(idx, done);
    SavedOverLast(before, idx, done);
    var remaining := if st.cleanup then st.disk - {st.savePath} else st.disk;
    p := Processed(saved + [done], records, sent, remaining, Ok(UploadReply(name + ProcessedSuffix, name, |ms|)));
    assert saved + [done] == saves + [current, done];
  }

  /** The fields `create()` sets from the upload and the size saved next, which no
      later step changes. */
  predicate Keeps(r: Row, name: string, size: nat)
  {
    && r.filename == name && r.originalFilename == name && r.fileType == LowerExt(name)
    && r.fileSize == size && r.chunkSize == PdfChunkSize && r.overlap == PdfOverlap
  }

  /** An upload succeeds only when the conversion succeeds, the chunker and the count
      step return, at least one chunk is found and no batch is rejected. It then saved
      the row four times, the last as completed, and inserted one record per chunk. */
  lemma ProcessOk(name: string, size: nat, disk: set<string>, readers: Readers, ppt: Conversion, doc: Conversion,
                  embed: string -> Vector, failAt: Option<nat>, describe: PyError -> string)
    requires ProcessResult(name, size, disk, readers, ppt, doc, embed, failAt, describe).reply.Ok?
    ensures Staging(name, disk, ppt, doc).Ok?
    ensures var st := Staging(name, disk, ppt, doc).value;
      var sized := NewRow(name).(fileSize := size);
      && Chunked(st, readers).Ok? && Chunked(st, readers).value != []
      && Counted(st, readers, sized).Ok?
      && IndexCall(Chunked(st, readers).value, embed, failAt).1 == None
    ensures var st := Staging(name, disk, ppt, doc).value;
      var ms := Chunked(st, readers).value;
      var counted := Counted(st, readers, NewRow(name).(fileSize := size)).value.(totalChunks := Some(|ms|));
      ProcessResult(name, size, disk, readers, ppt, doc, embed, failAt, describe)
      == Processed([NewRow(name), NewRow(name).(fileSize := size), counted, counted.(status := Completed, processed := true)],
                   VectorRecords(name, Dicts(ms)), IndexCall(ms, embed, failAt).0,
                   if st.cleanup then st.disk - {st.savePath} else st.disk,
                   Ok(UploadReply(name + ProcessedSuffix, name, |ms|)))
  {
    var p := ProcessResult(name, size, disk, readers, ppt, doc, embed, failAt, describe);
    if Staging(name, disk, ppt, doc).Err? {
      StageFailureEnds(name, size, Staging(name, disk, ppt, doc).error, describe);
      assert false;
    }
    var st := Staging(name, disk, ppt, doc).value;
    var sized := NewRow(name).(fileSize := size);
    assert p == Ingest(name, [NewRow(name), sized], sized, st, Chunked(st, readers), readers, embed, failAt, describe);
    IngestOk(name, [NewRow(name), sized], sized, st, Chunked(st, readers), readers, embed, failAt, describe);
    IndexOk(name, [NewRow(name), sized], Counted(st, readers, sized).value, st, Chunked(st, readers).value, embed, failAt, describe);
  }

  /** A failed conversion never replies. */
  lemma StageFailureEnds(name: string, size: nat, e: StageError, describe: PyError -> string)
    ensures StageFailure(name, size, e, describe).reply.Err?
    ensures EndAgrees(StageFailure(name, size, e, describe), name)
  {
    var sized := NewRow(name).(fileSize := size);
    if e.inPpt {
      var detail := PptFailurePrefix + describe(e.cause);
      var refused := sized.(status := Failed, errorMessage := Some(detail));
      FailingEnds([NewRow(name), sized, refused], refused, Refused(HttpError(422, detail)), [], [], e.disk, e.savePath, describe, name);
    } else {
      FailingEnds([NewRow(name), sized], sized, e.cause, [], [], e.disk, e.savePath, describe, name);
    }
  }

  /** Past the conversions, a reply means the chunker and the count step returned and
      found at least one chunk. */
  lemma IngestOk(name: string, saves: seq<Row>, row: Row, st: Staged, loaded: Result<seq<ChunkMeta>, PyError>,
                 readers: Readers, embed: string -> Vector, failAt: Option<nat>, describe: PyError -> string)
    requires Ingest(name, saves, row, st, loaded, readers, embed, failAt, describe).reply.Ok?
    ensures loaded.Ok? && loaded.value != [] && Counted(st, readers, row).Ok?
    ensures Ingest(name, saves, row, st, loaded, readers, embed, failAt, describe)
         == Index(name, saves, Counted(st, readers, row).value, st, loaded.value, embed, failAt, describe)
  {
  }

  /** Past the count, a reply means no batch was rejected. */
  lemma IndexOk(name: string, saves: seq<Row>, row: Row, st: Staged, ms: seq<ChunkMeta>,
                embed: string -> Vector, failAt: Option<nat>, describe: PyError -> string)
    requires ms != [] && Index(name, saves, row, st, ms, embed, failAt, describe).reply.Ok?
    ensures IndexCall(ms, embed, failAt).1 == None
    ensures var counted := row.(totalChunks := Some(|ms|));
      Index(name, saves, row, st, ms, embed, failAt, describe)
      == Processed(saves + [counted, counted.(status := Completed, processed := true)],
                   VectorRecords(name, Dicts(ms)), IndexCall(ms, embed, failAt).0,
                   if st.cleanup then st.disk - {st.savePath} else st.disk,
                   Ok(UploadReply(name + ProcessedSuffix, name, |ms|)))
  {
  }

  /** The count step only fills in the count of its own format. */
  lemma CountedKeeps(st: Staged, readers: Readers, row: Row)
    requires Counted(st, readers, row).Ok?
    ensures var r := Counted(st, readers, row).value;
      r == row.(sheetNames := r.sheetNames, totalSlides := r.totalSlides, totalPages := r.totalPages)
      && (Loader(st.ext) == ExcelRoute ==> r.sheetNames.Some? && r.totalSlides == row.totalSlides && r.totalPages == row.totalPages)
      && (Loader(st.ext) == PptRoute ==> r.totalSlides.Some? && r.sheetNames == row.sheetNames && r.totalPages == row.totalPages)
      && (Loader(st.ext) == PdfRoute ==> r.totalPages.Some? && r.sheetNames == row.sheetNames && r.totalSlides == row.totalSlides)
  {
  }

  /** The rows an upload saves, as the ledger sees them: created as processing with
      size 0, saved with its size, the fields set from the upload never changed
      afterwards, and completed at most at the last save. */
  predicate SavesKept(p: Processed, name: string, size: nat)
  {
    && 3 <= |p.saves| <= 4
    && p.saves[0] == NewRow(name) && p.saves[0].status == Processing && p.saves[0].fileSize == 0
    && (forall k :: 1 <= k < |p.saves| ==> Keeps(p.saves[k], name, size))
    && (forall k :: 0 <= k < |p.saves| - 1 ==> p.saves[k].status != Completed)
  }

  /** The reply and the last save agree. The upload replied exactly when the last save
      is completed, with the chunk count it saved and one record per chunk; otherwise the
      last save is failed, with the exception's text as its error message and as the
      detail of a 500 after `"Processing failed: "`. */
  predicate EndAgrees(p: Processed, name: string)
  {
    && p.saves != []
    && var last := p.saves[|p.saves| - 1];
    && (p.reply.Ok? <==> last.status == Completed)
    && (p.reply.Err? ==> last.status == Failed && last.errorMessage.Some?
                         && p.reply.error == HttpError(500, ProcessingFailedPrefix + last.errorMessage.value))
    && (p.reply.Ok? ==> last.processed && |p.records| > 0 && last.totalChunks == Some(|p.records|)
                        && p.reply.value == UploadReply(name + ProcessedSuffix, name, |p.records|))
  }

  /** The exception handler always leaves a failed last save and a 500 carrying its
      message. */
  lemma FailingEnds(saves: seq<Row>, row: Row, cause: PyError, records: seq<VectorRecord>, sent: seq<Request>,
                    disk: set<string>, path: string, describe: PyError -> string, name: string)
    ensures EndAgrees(Failing(saves, row, cause, records, sent, disk, path, describe), name)
  {
  }

  /** The saves so far of an upload still in progress. */
  predicate Open(saves: seq<Row>, name: string, size: nat)
  {
    && saves != [] && saves[0] == NewRow(name)
    && (forall k :: 1 <= k < |saves| ==> Keeps(saves[k], name, size))
    && (forall k :: 0 <= k < |saves| ==> saves[k].status != Completed)
  }

  /** One more save of the same upload. */
  lemma KeepSave(saves: seq<Row>, r: Row, name: string, size: nat)
    requires Open(saves, name, size) && Keeps(r, name, size)
    ensures var s := saves + [r];
      && s[0] == NewRow(name)
      && (forall k :: 1 <= k < |s| ==> Keeps(s[k], name, size))
      && (forall k :: 0 <= k < |s| - 1 ==> s[k].status != Completed)
      && (r.status != Completed ==> Open(s, name, size))
  {
    var s := saves + [r];
    assert s[|saves|] == r;
    assert s[0] == saves[0];
    forall k | 1 <= k < |s|
      ensures Keeps(s[k], name, size)
    {
      if k < |saves| {
        assert s[k] == saves[k];
      }
    }
    forall k | 0 <= k < |s| - 1
      ensures s[k].status != Completed
    {
      assert s[k] == saves[k];
    }
  }

  /** The exception handler's save closes an open upload. */
  lemma FailingKept(saves: seq<Row>, row: Row, cause: PyError, records: seq<VectorRecord>, sent: seq<Request>,
                    disk: set<string>, path: string, describe: PyError -> string, name: string, size: nat)
    requires Open(saves, name, size) && Keeps(row, name, size) && 2 <= |saves| <= 3
    ensures SavesKept(Failing(saves, row, cause, records, sent, disk, path, describe), name, size)
  {
    var failed := row.(status := Failed, errorMessage := Some(Str(describe, cause)));
    assert Failing(saves, row, cause, records, sent, disk, path, describe).saves == saves + [failed];
    KeepSave(saves, failed, name, size);
  }

  lemma StageFailureKept(name: string, size: nat, e: StageError, describe: PyError -> string)
    ensures SavesKept(StageFailure(name, size, e, describe), name, size)
  {
    var sized := NewRow(name).(fileSize := size);
    var saves := [NewRow(name), sized];
    OpenAfterSize(name, size);
    if e.inPpt {
      PptRefusalKept(name, size, e, describe);
    } else {
      FailingKept(saves, sized, e.cause, [], [], e.disk, e.savePath, describe, name, size);
    }
  }

  lemma OpenAfterSize(name: string, size: nat)
    ensures Open([NewRow(name), NewRow(name).(fileSize := size)], name, size)
  {
  }

  lemma PptRefusalKept(name: string, size: nat, e: StageError, describe: PyError -> string)
    requires e.inPpt
    ensures SavesKept(StageFailure(name, size, e, describe), name, size)
  {
    var sized := NewRow(name).(fileSize := size);
    var saves := [NewRow(name), sized];
    OpenAfterSize(name, size);
    var detail := PptFailurePrefix + describe(e.cause);
    var refused := sized.(status := Failed, errorMessage := Some(detail));
    var three := [NewRow(name), sized, refused];
    assert saves + [refused] == three;
    KeepSave(saves, refused, name, size);
    FailingKept(three, refused, Refused(HttpError(422, detail)), [], [], e.disk, e.savePath, describe, name, size);
    assert StageFailure(name, size, e, describe)
        == Failing(three, refused, Refused(HttpError(422, detail)), [], [], e.disk, e.savePath, describe);
  }

  lemma IndexKept(name: string, size: nat, row: Row, st: Staged, ms: seq<ChunkMeta>,
                  embed: string -> Vector, failAt: Option<nat>, describe: PyError -> string)
    requires ms != [] && Keeps(row, name, size) && row.status != Completed
    ensures SavesKept(Index(name, [NewRow(name), NewRow(name).(fileSize := size)], row, st, ms, embed, failAt, describe), name, size)
  {
    var saves := [NewRow(name), NewRow(name).(fileSize := size)];
    OpenAfterSize(name, size);
    var withCount := row.(totalChunks := Some(|ms|));
    KeepSave(saves, withCount, name, size);
    var call := IndexCall(ms, embed, failAt);
    var p := Index(name, saves, row, st, ms, embed, failAt, describe);
    match call.1
    case Some(e) =>
      assert p == Failing(saves + [withCount], withCount, IndexRaised(e), VectorRecords(name, Dicts(ms)), call.0,
                          st.disk, st.savePath, describe);
      FailingKept(saves + [withCount], withCount, IndexRaised(e), VectorRecords(name, Dicts(ms)), call.0,
                  st.disk, st.savePath, describe, name, size);
    case None =>
      assert p.saves == saves + [withCount, withCount.(status := Completed, processed := true)];
      KeepSave(saves + [withCount], withCount.(status := Completed, processed := true), name, size);
      assert saves + [withCount] + [withCount.(status := Completed, processed := true)]
          == saves + [withCount, withCount.(status := Completed, processed := true)];
  }

  lemma IndexEnds(name: string, saves: seq<Row>, row: Row, st: Staged, ms: seq<ChunkMeta>,
                  embed: string -> Vector, failAt: Option<nat>, describe: PyError -> string)
    requires ms != []
    ensures EndAgrees(Index(name, saves, row, st, ms, embed, failAt, describe), name)
  {
    assert |VectorRecords(name, Dicts(ms))| == |ms|;
    var withCount := row.(totalChunks := Some(|ms|));
    var call := IndexCall(ms, embed, failAt);
    if call.1.Some? {
      FailingEnds(saves + [withCount], withCount, IndexRaised(call.1.value), VectorRecords(name, Dicts(ms)), call.0,
                  st.disk, st.savePath, describe, name);
    }
  }

  lemma IngestKept(name: string, size: nat, st: Staged, loaded: Result<seq<ChunkMeta>, PyError>, readers: Readers,
                   embed: string -> Vector, failAt: Option<nat>, describe: PyError -> string)
    ensures var sized := NewRow(name).(fileSize := size);
      SavesKept(Ingest(name, [NewRow(name), sized], sized, st, loaded, readers, embed, failAt, describe), name, size)
  {
    var sized := NewRow(name).(fileSize := size);
    var saves := [NewRow(name), sized];
    var p := Ingest(name, saves, sized, st, loaded, readers, embed, failAt, describe);
    OpenAfterSize(name, size);
    match loaded
    case Err(c) =>
      assert p == Failing(saves, sized, c, [], [], st.disk, st.savePath, describe);
      FailingKept(saves, sized, c, [], [], st.disk, st.savePath, describe, name, size);
    case Ok(ms) =>
      match Counted(st, readers, sized)
      case Err(c) =>
        assert p == Failing(saves, sized, c, [], [], st.disk, st.savePath, describe);
        FailingKept(saves, sized, c, [], [], st.disk, st.savePath, describe, name, size);
      case Ok(counted) =>
        CountedKeeps(st, readers, sized);
        if ms == [] {
          var empty := counted.(status := Failed, errorMessage := Some(NoContentMessage));
          assert p == Failing(saves + [empty], empty, Refused(HttpError(422, NoContentDetail)), [], [], st.disk, st.savePath, describe);
          KeepSave(saves, empty, name, size);
          FailingKept(saves + [empty], empty, Refused(HttpError(422, NoContentDetail)), [], [], st.disk, st.savePath, describe, name, size);
        } else {
          assert p == Index(name, saves, counted, st, ms, embed, failAt, describe);
          IndexKept(name, size, counted, st, ms, embed, failAt, describe);
        }
  }

  lemma IngestEnds(name: string, saves: seq<Row>, row: Row, st: Staged, loaded: Result<seq<ChunkMeta>, PyError>,
                   readers: Readers, embed: string -> Vector, failAt: Option<nat>, describe: PyError -> string)
    ensures EndAgrees(Ingest(name, saves, row, st, loaded, readers, embed, failAt, describe), name)
  {
    if loaded.Ok? && Counted(st, readers, row).Ok? && loaded.value != [] {
      IndexEnds(name, saves, Counted(st, readers, row).value, st, loaded.value, embed, failAt, describe);
    }
  }

  /** Every upload's saves follow `SavesKept`, and its reply agrees with its last save. */
  lemma ProcessLife(name: string, size: nat, disk: set<string>, readers: Readers, ppt: Conversion, doc: Conversion,
                    embed: string -> Vector, failAt: Option<nat>, describe: PyError -> string)
    ensures var p := ProcessResult(name, size, disk, readers, ppt, doc, embed, failAt, describe);
      SavesKept(p, name, size) && EndAgrees(p, name)
  {
    var p := ProcessResult(name, size, disk, readers, ppt, doc, embed, failAt, describe);
    match Staging(name, disk, ppt, doc)
    case Err(e) =>
      assert p == StageFailure(name, size, e, describe);
      StageFailureKept(name, size, e, describe);
      StageFailureEnds(name, size, e, describe);
    case Ok(st) =>
      var sized := NewRow(name).(fileSize := size);
      assert p == Ingest(name, [NewRow(name), sized], sized, st, Chunked(st, readers), readers, embed, failAt, describe);
      IngestKept(name, size, st, Chunked(st, readers), readers, embed, failAt, describe);
      IngestEnds(name, [NewRow(name), sized], sized, st, Chunked(st, readers), readers, embed, failAt, describe);
  }

  /** After a successful upload the file the chunker read is on disk; a converted
      `.doc`/`.docx` original is gone, and so is a `.ppt` original; any other upload
      is left where it was saved. */
  lemma ProcessLeaves(name: string, size: nat, disk: set<string>, readers: Readers, ppt: Conversion, doc: Conversion,
                      embed: string -> Vector, failAt: Option<nat>, describe: PyError -> string)
    requires ProcessResult(name, size, disk, readers, ppt, doc, embed, failAt, describe).reply.Ok?
    ensures Staging(name, disk, ppt, doc).Ok?
    ensures var savePath := JoinPath(UploadDir, name);
      var ext := LowerExt(savePath);
      var st := Staging(name, disk, ppt, doc).value;
      var p := ProcessResult(name, size, disk, readers, ppt, doc, embed, failAt, describe);
      && LoaderPath(st) in p.disk
      && ((ext == ".doc" || ext == ".docx") ==> savePath !in p.disk && LoaderPath(st) == WithExt(savePath, ".pdf"))
      && (ext == ".ppt" ==> LoaderPath(st) == WithExt(savePath, ".pptx") && WithExt(LoaderPath(st), ".ppt") !in p.disk)
      && (ext != ".ppt" && ext != ".doc" && ext != ".docx" ==> p.disk == disk + {savePath} && LoaderPath(st) == savePath)
  {
    ProcessOk(name, size, disk, readers, ppt, doc, embed, failAt, describe);
    var savePath := JoinPath(UploadDir, name);
    var st := Staging(name, disk, ppt, doc).value;
    assert ProcessResult(name, size, disk, readers, ppt, doc, embed, failAt, describe).disk
        == if st.cleanup then st.disk - {st.savePath} else st.disk;
    StageLeaves(savePath, disk + {savePath}, ppt, doc);
  }

  /** A failed upload removes the file it was working on: the saved upload, or for a
      `.ppt` the converted deck once it exists. */
  lemma ProcessCleansUp(name: string, size: nat, disk: set<string>, readers: Readers, ppt: Conversion, doc: Conversion,
                        embed: string -> Vector, failAt: Option<nat>, describe: PyError -> string)
    requires ProcessResult(name, size, disk, readers, ppt, doc, embed, failAt, describe).reply.Err?
    ensures var savePath := JoinPath(UploadDir, name);
      var ext := LowerExt(savePath);
      var p := ProcessResult(name, size, disk, readers, ppt, doc, embed, failAt, describe);
      && (ext != ".ppt" ==> savePath !in p.disk)
      && (ext == ".ppt" && ppt.Fails? ==> p.disk == disk - {savePath})
      && (ext == ".ppt" && ppt.Converts? ==> WithExt(savePath, ".pptx") !in p.disk)
  {
    var savePath := JoinPath(UploadDir, name);
    StageTable(savePath, disk + {savePath}, ppt, doc);
    match Staging(name, disk, ppt, doc)
    case Err(e) =>
      assert ProcessResult(name, size, disk, readers, ppt, doc, embed, failAt, describe).disk == e.disk - {e.savePath};
    case Ok(st) =>
      IngestDisk(name, [NewRow(name), NewRow(name).(fileSize := size)], NewRow(name).(fileSize := size), st,
                 Chunked(st, readers), readers, embed, failAt, describe);
  }

  /** Past the conversions, a failure removes the current saved file. */
  lemma IngestDisk(name: string, saves: seq<Row>, row: Row, st: Staged, loaded: Result<seq<ChunkMeta>, PyError>,
                   readers: Readers, embed: string -> Vector, failAt: Option<nat>, describe: PyError -> string)
    ensures var p := Ingest(name, saves, row, st, loaded, readers, embed, failAt, describe);
      p.reply.Err? ==> p.disk == st.disk - {st.savePath}
  {
  }

  /** The `.ppt` block's 422 does not reach the caller: the outer handler saves the row
      once more with the 422 as `str()` renders it and raises a 500 carrying that text. */
  lemma PptRefusalIsServerError(name: string, size: nat, disk: set<string>, readers: Readers, ppt: Conversion, doc: Conversion,
                                embed: string -> Vector, failAt: Option<nat>, describe: PyError -> string)
    requires Staging(name, disk, ppt, doc).Err? && Staging(name, disk, ppt, doc).error.inPpt
    ensures var detail := PptFailurePrefix + describe(Staging(name, disk, ppt, doc).error.cause);
      var p := ProcessResult(name, size, disk, readers, ppt, doc, embed, failAt, describe);
      && |p.saves| == 4
      && p.saves[2] == NewRow(name).(fileSize := size, status := Failed, errorMessage := Some(detail))
      && p.saves[3].status == Failed && p.saves[3].errorMessage == Some(Rendered(HttpError(422, detail)))
      && p.reply == Err(HttpError(500, ProcessingFailedPrefix + Rendered(HttpError(422, detail))))
      && p.records == [] && p.sent == []
  {
    var e := Staging(name, disk, ppt, doc).error;
    assert ProcessResult(name, size, disk, readers, ppt, doc, embed, failAt, describe) == StageFailure(name, size, e, describe);
  }

  /** The same holds for the 422 an empty chunk list raises. */
  lemma EmptyContentIsServerError(name: string, size: nat, disk: set<string>, readers: Readers, ppt: Conversion, doc: Conversion,
                                  embed: string -> Vector, failAt: Option<nat>, describe: PyError -> string)
    requires Staging(name, disk, ppt, doc).Ok?
    requires Chunked(Staging(name, disk, ppt, doc).value, readers) == Ok([])
    requires Counted(Staging(name, disk, ppt, doc).value, readers, NewRow(name).(fileSize := size)).Ok?
    ensures var p := ProcessResult(name, size, disk, readers, ppt, doc, embed, failAt, describe);
      && |p.saves| == 4
      && p.saves[2].status == Failed && p.saves[2].errorMessage == Some(NoContentMessage)
      && p.saves[3].status == Failed && p.saves[3].errorMessage == Some(Rendered(HttpError(422, NoContentDetail)))
      && p.reply == Err(HttpError(500, ProcessingFailedPrefix + Rendered(HttpError(422, NoContentDetail))))
      && p.records == [] && p.sent == []
  {
    var st := Staging(name, disk, ppt, doc).value;
    var sized := NewRow(name).(fileSize := size);
    assert ProcessResult(name, size, disk, readers, ppt, doc, embed, failAt, describe)
        == Ingest(name, [NewRow(name), sized], sized, st, Ok([]), readers, embed, failAt, describe);
  }

  /** Record `i` describes chunk `i` of the upload: its id, its position, the length of
      its text, its locator keys, its image fields (defaulted for a sheet) and the
      embedding model. */
  lemma RecordsFollowChunks(name: string, ms: seq<ChunkMeta>, i: nat)
    requires i < |ms|
    ensures |VectorRecords(name, Dicts(ms))| == |ms|
    ensures var r := VectorRecords(name, Dicts(ms))[i];
      var loc := ms[i].loc;
      && r.vectorId == VectorId(name, i) && r.documentFilename == name && r.chunkIndex == i
      && r.chunkLength == |ms[i].text|
      && (r.page, r.slide, r.sheet, r.startRow, r.endRow) == LocatorKeys(loc)
      && r.hasImages == (if loc.Sheet? then false else loc.hasImages)
      && r.imageCount == (if loc.Sheet? then 0 else loc.imageCount)
      && r.embeddingModel == EmbeddingModel
  {
    assert Dicts(ms)[i] == ToDict(ms[i]);
  }

  /** A successful upload stored every chunk in the index under
      `"<base name of the chunked path>_<i>"`, with the embedding of its text and its
      dict, and left every other id as it was. */
  lemma ServiceStores(entries: map<string, Entry>, name: string, size: nat, disk: set<string>, readers: Readers,
                      ppt: Conversion, doc: Conversion, embed: string -> Vector, failAt: Option<nat>, describe: PyError -> string)
    requires ProcessResult(name, size, disk, readers, ppt, doc, embed, failAt, describe).reply.Ok?
    ensures Staging(name, disk, ppt, doc).Ok? && Chunked(Staging(name, disk, ppt, doc).value, readers).Ok?
    ensures var st := Staging(name, disk, ppt, doc).value;
      var ms := Chunked(st, readers).value;
      var f := Basename(LoaderPath(st));
      var after := ApplyAll(entries, ProcessResult(name, size, disk, readers, ppt, doc, embed, failAt, describe).sent);
      && (forall i :: 0 <= i < |ms| ==> VectorId(f, i) in after && after[VectorId(f, i)] == Entry(embed(ms[i].text), ToDict(ms[i])))
      && (forall key :: key !in IdRange(f, 0, |ms|) ==>
            (key in after <==> key in entries) && (key in entries ==> after[key] == entries[key]))
  {
    ProcessOk(name, size, disk, readers, ppt, doc, embed, failAt, describe);
    var st := Staging(name, disk, ppt, doc).value;
    var ms := Chunked(st, readers).value;
    var sent := ProcessResult(name, size, disk, readers, ppt, doc, embed, failAt, describe).sent;
    assert sent == IndexCall(ms, embed, failAt).0;
    var metas, chunks := Dicts(ms), Texts(ms);
    LoadSources(Loader(st.ext), LoaderPath(st), st.disk, readers);
    assert metas[0].source == Some(ms[0].source);
    assert EmbeddingService.IdPrefix(metas) == Basename(LoaderPath(st));
    EmbeddingService.UpsertEffect(entries, embed, chunks, metas, ServiceBatchSize, failAt, sent);
    assert forall i :: 0 <= i < |ms| ==> chunks[i] == ms[i].text && metas[i] == ToDict(ms[i]);
  }

  /** For an upload that is not converted and whose name has no `/`, the ledger and the
      index agree: the id in record `i` is where chunk `i` is stored. */
  lemma LedgerMatchesIndex(entries: map<string, Entry>, name: string, size: nat, disk: set<string>, readers: Readers,
                           ppt: Conversion, doc: Conversion, embed: string -> Vector, failAt: Option<nat>, describe: PyError -> string)
    requires ProcessResult(name, size, disk, readers, ppt, doc, embed, failAt, describe).reply.Ok?
    requires forall k :: 0 <= k < |name| ==> name[k] != '/'
    requires LowerExt(JoinPath(UploadDir, name)) !in {".ppt", ".doc", ".docx"}
    ensures Staging(name, disk, ppt, doc).Ok? && Chunked(Staging(name, disk, ppt, doc).value, readers).Ok?
    ensures var p := ProcessResult(name, size, disk, readers, ppt, doc, embed, failAt, describe);
      var ms := Chunked(Staging(name, disk, ppt, doc).value, readers).value;
      var after := ApplyAll(entries, p.sent);
      && |p.records| == |ms|
      && forall i :: 0 <= i < |ms| ==>
           p.records[i].vectorId in after && after[p.records[i].vectorId] == Entry(embed(ms[i].text), ToDict(ms[i]))
  {
    var p := ProcessResult(name, size, disk, readers, ppt, doc, embed, failAt, describe);
    ProcessOk(name, size, disk, readers, ppt, doc, embed, failAt, describe);
    ServiceStores(entries, name, size, disk, readers, ppt, doc, embed, failAt, describe);
    UnconvertedBasename(name, disk, ppt, doc);
    var ms := Chunked(Staging(name, disk, ppt, doc).value, readers).value;
    assert p.records == VectorRecords(name, Dicts(ms));
    forall i | 0 <= i < |ms|
      ensures p.records[i].vectorId == VectorId(name, i)
    {
      RecordsFollowChunks(name, ms, i);
    }
  }

  /** An upload that is not converted is chunked from the saved file, whose base name
      is the upload's name when that has no `/`. */
  lemma UnconvertedBasename(name: string, disk: set<string>, ppt: Conversion, doc: Conversion)
    requires forall k :: 0 <= k < |name| ==> name[k] != '/'
    requires LowerExt(JoinPath(UploadDir, name)) !in {".ppt", ".doc", ".docx"}
    ensures Staging(name, disk, ppt, doc).Ok?
    ensures Basename(LoaderPath(Staging(name, disk, ppt, doc).value)) == name
  {
    var savePath := JoinPath(UploadDir, name);
    StageTable(savePath, disk + {savePath}, ppt, doc);
    BasenameOfJoin(UploadDir, name);
  }

  /** For a converted `.ppt`, `.doc` or `.docx` the ids the ledger records are never
      the ids the chunks were stored under: the index was chunked from the converted
      file, whose base name differs from the upload's name in its last character. What
      the index holds under a recorded id is what it held before the upload. */
  lemma ConvertedIdsDiffer(entries: map<string, Entry>, name: string, size: nat, disk: set<string>, readers: Readers,
                           ppt: Conversion, doc: Conversion, embed: string -> Vector, failAt: Option<nat>, describe: PyError -> string)
    requires ProcessResult(name, size, disk, readers, ppt, doc, embed, failAt, describe).reply.Ok?
    requires LowerExt(JoinPath(UploadDir, name)) in {".ppt", ".doc", ".docx"}
    ensures var p := ProcessResult(name, size, disk, readers, ppt, doc, embed, failAt, describe);
      var after := ApplyAll(entries, p.sent);
      forall i :: 0 <= i < |p.records| ==>
        (p.records[i].vectorId in after <==> p.records[i].vectorId in entries)
        && (p.records[i].vectorId in entries ==> after[p.records[i].vectorId] == entries[p.records[i].vectorId])
  {
    var p := ProcessResult(name, size, disk, readers, ppt, doc, embed, failAt, describe);
    ProcessOk(name, size, disk, readers, ppt, doc, embed, failAt, describe);
    ServiceStores(entries, name, size, disk, readers, ppt, doc, embed, failAt, describe);
    var st := Staging(name, disk, ppt, doc).value;
    var ms := Chunked(st, readers).value;
    var f := Basename(LoaderPath(st));
    ConvertedBasename(name, disk, ppt, doc);
    forall i | 0 <= i < |p.records|
      ensures p.records[i].vectorId !in IdRange(f, 0, |ms|)
    {
      RecordsFollowChunks(name, ms, i);
      forall j | 0 <= j < |ms|
        ensures VectorId(name, i) != VectorId(f, j)
      {
        VectorIdInjective(name, i, f, j);
      }
    }
  }

  /** The base name of a converted file's chunked path is not the upload's name: it ends
      in `x` (`.pptx`) or `f` (`.pdf`), while the name ends in `t`, `c` or `x`, in either
      case, respectively. */
  lemma ConvertedBasename(name: string, disk: set<string>, ppt: Conversion, doc: Conversion)
    requires Staging(name, disk, ppt, doc).Ok?
    requires LowerExt(JoinPath(UploadDir, name)) in {".ppt", ".doc", ".docx"}
    ensures Basename(LoaderPath(Staging(name, disk, ppt, doc).value)) != name
  {
    var savePath := JoinPath(UploadDir, name);
    var ext := LowerExt(savePath);
    var e := SplitExt(savePath).1;
    assert |e| == |ext| > 0;
    LastOfExt(savePath);
    var c := savePath[|savePath| - 1];
    assert ext[|ext| - 1] == LowerChar(c);
    LastOfJoin(name);
    assert name != [] && name[|name| - 1] == c;
    StageTable(savePath, disk + {savePath}, ppt, doc);
    var loaded := LoaderPath(Staging(name, disk, ppt, doc).value);
    var newExt := if ext == ".ppt" then ".pptx" else ".pdf";
    assert loaded == SplitExt(savePath).0 + newExt;
    assert loaded[|loaded| - 1] == newExt[|newExt| - 1];
    LastOfBasename(loaded);
    assert c != newExt[|newExt| - 1];
  }

  /** Whatever its outcome, an upload inserts either no records or one per chunk. */
  lemma ProcessRecords(name: string, size: nat, disk: set<string>, readers: Readers, ppt: Conversion, doc: Conversion,
                       embed: string -> Vector, failAt: Option<nat>, describe: PyError -> string)
    ensures var p := ProcessResult(name, size, disk, readers, ppt, doc, embed, failAt, describe);
      p.records == [] || exists ms :: p.records == VectorRecords(name, Dicts(ms))
  {
    var p := ProcessResult(name, size, disk, readers, ppt, doc, embed, failAt, describe);
    match Staging(name, disk, ppt, doc)
    case Err(e) =>
      assert p == StageFailure(name, size, e, describe);
    case Ok(st) =>
      var sized := NewRow(name).(fileSize := size);
      assert p == Ingest(name, [NewRow(name), sized], sized, st, Chunked(st, readers), readers, embed, failAt, describe);
      match Chunked(st, readers)
      case Err(_) =>
      case Ok(ms) =>
        if Counted(st, readers, sized).Ok? && ms != [] {
          IndexRecords(name, [NewRow(name), sized], Counted(st, readers, sized).value, st, ms, embed, failAt, describe);
        }
  }

  /** The records are inserted before the index call, whatever it does. */
  lemma IndexRecords(name: string, saves: seq<Row>, row: Row, st: Staged, ms: seq<ChunkMeta>,
                     embed: string -> Vector, failAt: Option<nat>, describe: PyError -> string)
    requires ms != []
    ensures Index(name, saves, row, st, ms, embed, failAt, describe).records == VectorRecords(name, Dicts(ms))
  {
  }

  /** An upload keeps the ledger's ids following their records' names. */
  lemma ProcessKeepsIds(vecs: seq<VectorRecord>, name: string, size: nat, disk: set<string>, readers: Readers,
                        ppt: Conversion, doc: Conversion, embed: string -> Vector, failAt: Option<nat>, describe: PyError -> string)
    requires IdsFollowNames(vecs)
    ensures IdsFollowNames(vecs + ProcessResult(name, size, disk, readers, ppt, doc, embed, failAt, describe).records)
  {
    var rs := ProcessResult(name, size, disk, readers, ppt, doc, embed, failAt, describe).records;
    ProcessRecords(name, size, disk, readers, ppt, doc, embed, failAt, describe);
    if rs != [] {
      var ms :| rs == VectorRecords(name, Dicts(ms));
      forall i | 0 <= i < |rs|
        ensures rs[i].vectorId == VectorId(rs[i].documentFilename, rs[i].chunkIndex)
      {
        RecordsFollowChunks(name, ms, i);
      }
    }
  }
}
