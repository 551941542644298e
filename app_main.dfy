/** The first API (app.py): `upload_file` converts and chunks a file and sends it to the
    index with the module-level `embed_and_upsert`; `delete_file` chunks the file again
    to recompute its vector ids and deletes them; `query_endpoint` retrieves, prompts
    the language model and returns the answer with its references. None of the three
    catches what the loaders or the index raise, except where noted. */
module AppMain {
  import opened Common
  import opened Records
  import opened Paths
  import opened Http
  import opened VectorStore
  import opened UpsertBatching
  import opened Answers
  import opened Prompt
  import opened Dispatch
  import Embeddings
  import EmbeddingService
  import Matching

  const UploadedSuffix: string := " uploaded!"

  /** How an upload fails: the 422 the `.ppt` block raises, or an exception nothing
      catches (which the web framework answers with a 500). */
  datatype UploadFailure = ConversionRefused(error: HttpError) | Uncaught(cause: PyError)

  /** The upsert requests an upload sent, the disk afterwards and its reply. */
  datatype Upload = Upload(sent: seq<Request>, disk: set<string>, reply: Result<string, UploadFailure>)

  /** `upload_file` for a file `name` saved into the upload directory. `failAt` is the
      batch the index rejects, if any; `describe` is `str()` of an exception. A file
      the chunker finds nothing in fails at `metadata[0]`. */
  function UploadResult(name: string, disk: set<string>, readers: Readers, ppt: Conversion, doc: Conversion,
                        embed: string -> Vector, failAt: Option<nat>, describe: PyError -> string): (u: Upload)
    ensures u.reply.Ok? ==> u.reply.value == name + UploadedSuffix
    ensures u.reply.Err? && u.reply.error.ConversionRefused? ==> u.sent == [] && u.reply.error.error.status == 422
    ensures u.sent != [] ==> Staging(name, disk, ppt, doc).Ok?
  {
    match Staging(name, disk, ppt, doc)
    case Err(e) =>
      Upload([], e.disk, Err(if e.inPpt then ConversionRefused(HttpError(422, PptFailurePrefix + describe(e.cause))) else Uncaught(e.cause)))
    case Ok(st) =>
      match Chunked(st, readers)
      case Err(c) => Upload([], st.disk, Err(Uncaught(c)))
      case Ok(ms) =>
        if ms == [] then Upload([], st.disk, Err(Uncaught(IndexRaised(NoMetadata))))
        else
          var run := Plan(|ms|, |ms|, Embeddings.DefaultBatchSize, failAt);
          var sent := Upserts(ms[0].source, EmbeddingService.EmbedChunks(embed, Texts(ms)), Dicts(ms), run.spans);
          if run.error.Some? then Upload(sent, st.disk, Err(Uncaught(IndexRaised(run.error.value))))
          else Upload(sent, if st.cleanup then st.disk - {st.savePath} else st.disk, Ok(name + UploadedSuffix))
  }

  method UploadFile(name: string, disk: set<string>, readers: Readers, ppt: Conversion, doc: Conversion,
                    embed: string -> Vector, failAt: Option<nat>, describe: PyError -> string)
    returns (u: Upload)
    ensures u == UploadResult(name, disk, readers, ppt, doc, embed, failAt, describe)
  {
    var staged := Staging(name, disk, ppt, doc);
    if staged.Err? {
      var e := staged.error;
      if e.inPpt {
        return Upload([], e.disk, Err(ConversionRefused(HttpError(422, PptFailurePrefix + describe(e.cause)))));
      }
      return Upload([], e.disk, Err(Uncaught(e.cause)));
    }
    var st := staged.value;
    var loaded := LoadFile(Loader(st.ext), LoaderPath(st), st.disk, readers);
    if loaded.Err? {
      return Upload([], st.disk, Err(Uncaught(loaded.error)));
    }
    var ms := loaded.value;
    var sent, err := Embeddings.EmbedAndUpsert(embed, Texts(ms), Dicts(ms), Embeddings.DefaultBatchSize, failAt);
    if err.Some? {
      return Upload(sent, st.disk, Err(Uncaught(IndexRaised(err.value))));
    }
    var after := if st.cleanup then st.disk - {st.savePath} else st.disk;
    return Upload(sent, after, Ok(name + UploadedSuffix));
  }

  /** An upload succeeds only when the conversions succeed, the chunker returns at least
      one record, and no batch is rejected; it then sent the batches of those records. */
  lemma UploadOk(name: string, disk: set<string>, readers: Readers, ppt: Conversion, doc: Conversion,
                 embed: string -> Vector, failAt: Option<nat>, describe: PyError -> string)
    requires UploadResult(name, disk, readers, ppt, doc, embed, failAt, describe).reply.Ok?
    ensures Staging(name, disk, ppt, doc).Ok? && Chunked(Staging(name, disk, ppt, doc).value, readers).Ok?
    ensures var st := Staging(name, disk, ppt, doc).value;
      var ms := Chunked(st, readers).value;
      var u := UploadResult(name, disk, readers, ppt, doc, embed, failAt, describe);
      && ms != []
      && Plan(|ms|, |ms|, Embeddings.DefaultBatchSize, failAt).error == None
      && u.sent == Upserts(ms[0].source, EmbeddingService.EmbedChunks(embed, Texts(ms)), Dicts(ms),
                           Plan(|ms|, |ms|, Embeddings.DefaultBatchSize, failAt).spans)
      && u.disk == (if st.cleanup then st.disk - {st.savePath} else st.disk)
      && u.reply == Ok(name + UploadedSuffix)
  {
  }

  /** A successful upload stored every record of the file under
      `"<base name of the chunked path>_<i>"` with the embedding of its text and its dict,
      and left every other id as it was. */
  lemma UploadStores(entries: map<string, Entry>, name: string, disk: set<string>, readers: Readers,
                     ppt: Conversion, doc: Conversion, embed: string -> Vector, describe: PyError -> string)
    requires UploadResult(name, disk, readers, ppt, doc, embed, None, describe).reply.Ok?
    ensures Staging(name, disk, ppt, doc).Ok? && Chunked(Staging(name, disk, ppt, doc).value, readers).Ok?
    ensures var st := Staging(name, disk, ppt, doc).value;
      var ms := Chunked(st, readers).value;
      var f := Basename(LoaderPath(st));
      var after := ApplyAll(entries, UploadResult(name, disk, readers, ppt, doc, embed, None, describe).sent);
      && (forall i :: 0 <= i < |ms| ==> VectorId(f, i) in after && after[VectorId(f, i)] == Entry(embed(ms[i].text), ToDict(ms[i])))
      && (forall key :: key !in IdRange(f, 0, |ms|) ==>
            (key in after <==> key in entries) && (key in entries ==> after[key] == entries[key]))
  {
    UploadOk(name, disk, readers, ppt, doc, embed, None, describe);
    var st := Staging(name, disk, ppt, doc).value;
    var ms := Chunked(st, readers).value;
    var sent := UploadResult(name, disk, readers, ppt, doc, embed, None, describe).sent;
    LoadSources(Loader(st.ext), LoaderPath(st), st.disk, readers);
    var metas := Dicts(ms);
    assert metas[0].source == Some(ms[0].source);
    Embeddings.FullUpsert(entries, embed, Texts(ms), metas, Embeddings.DefaultBatchSize, sent);
    assert forall i :: 0 <= i < |ms| ==> Texts(ms)[i] == ms[i].text && metas[i] == ToDict(ms[i]);
  }

  /** After a successful upload the chunked file is on disk, and the saved original is
      gone exactly when it was a converted `.doc` or `.docx`; a converted `.ppt` was
      removed right after its conversion. */
  lemma UploadLeaves(name: string, disk: set<string>, readers: Readers, ppt: Conversion, doc: Conversion,
                     embed: string -> Vector, failAt: Option<nat>, describe: PyError -> string)
    requires UploadResult(name, disk, readers, ppt, doc, embed, failAt, describe).reply.Ok?
    ensures Staging(name, disk, ppt, doc).Ok?
    ensures var savePath := JoinPath(UploadDir, name);
      var ext := LowerExt(savePath);
      var st := Staging(name, disk, ppt, doc).value;
      var u := UploadResult(name, disk, readers, ppt, doc, embed, failAt, describe);
      && LoaderPath(st) in u.disk
      && ((ext == ".doc" || ext == ".docx") ==> savePath !in u.disk && LoaderPath(st) == WithExt(savePath, ".pdf"))
      && (ext == ".ppt" ==> LoaderPath(st) == WithExt(savePath, ".pptx") && WithExt(LoaderPath(st), ".ppt") !in u.disk)
      && (ext != ".ppt" && ext != ".doc" && ext != ".docx" ==> u.disk == disk + {savePath} && LoaderPath(st) == savePath)
  {
    UploadOk(name, disk, readers, ppt, doc, embed, failAt, describe);
    var savePath := JoinPath(UploadDir, name);
    StageLeaves(savePath, disk + {savePath}, ppt, doc);
  }

  /** The chunker `delete_file` re-reads a file with, as written: the list
      `['.xlsx', 'xls']` has no dot in its second entry, so a `.xls` file is read as a
      PDF. */
  function DeleteRouteAsWritten(ext: string): (r: Route)
    ensures (ext == [] || ext[0] == '.') && ext != ".xls" ==> r == Loader(ext)
    ensures ext == ".xls" ==> r == PdfRoute
  {
    if ext == ".xlsx" || ext == "xls" then ExcelRoute
    else if ext == ".pptx" then PptRoute
    else PdfRoute
  }

  /** The evidently intended chunker: the one the upload used for the same extension. */
  function DeleteRoute(ext: string): (r: Route)
    ensures r == Loader(ext)
  {
    if ext == ".xlsx" || ext == ".xls" then ExcelRoute
    else if ext == ".pptx" then PptRoute
    else PdfRoute
  }

  /** `delete_file`'s id list: `"<filename>_<i>"` for every position `i` whose record
      names `filename` as its source; positions count all records. */
  function DeleteIds(filename: string, ms: seq<ChunkMeta>): seq<string>
    decreases |ms|
  {
    if ms == [] then []
    else DeleteIds(filename, ms[..|ms| - 1]) + (if ms[|ms| - 1].source == filename then [VectorId(filename, |ms| - 1)] else [])
  }

  /** The ids are exactly those of the positions whose record names the file. */
  lemma {:induction false} DeleteIdsMembers(filename: string, ms: seq<ChunkMeta>, id: string)
    ensures id in DeleteIds(filename, ms) <==> exists i :: 0 <= i < |ms| && ms[i].source == filename && id == VectorId(filename, i)
    decreases |ms|
  {
    if ms != [] {
      var n := |ms| - 1;
      var init := DeleteIds(filename, ms[..n]);
      var last := if ms[n].source == filename then [VectorId(filename, n)] else [];
      assert DeleteIds(filename, ms) == init + last;
      DeleteIdsMembers(filename, ms[..n], id);
      if id in init {
        var i :| 0 <= i < n && ms[..n][i].source == filename && id == VectorId(filename, i);
        assert ms[i] == ms[..n][i];
      } else if id in last {
        assert ms[n].source == filename && id == VectorId(filename, n);
      }
      if exists i :: 0 <= i < |ms| && ms[i].source == filename && id == VectorId(filename, i) {
        var i :| 0 <= i < |ms| && ms[i].source == filename && id == VectorId(filename, i);
        if i < n {
          assert ms[..n][i] == ms[i];
          assert id in init;
        } else {
          assert i == n;
          assert last == [id];
        }
      }
    }
  }

  /** When every record names the file, the ids are those of all positions, in order. */
  lemma {:induction false} DeleteIdsOfOneFile(filename: string, ms: seq<ChunkMeta>)
    requires forall j :: 0 <= j < |ms| ==> ms[j].source == filename
    ensures DeleteIds(filename, ms) == IdRange(filename, 0, |ms|)
    decreases |ms|
  {
    if ms != [] {
      var n := |ms| - 1;
      assert forall j :: 0 <= j < n ==> ms[..n][j] == ms[j];
      DeleteIdsOfOneFile(filename, ms[..n]);
      assert IdRange(filename, 0, |ms|) == IdRange(filename, 0, n) + [VectorId(filename, n)];
    }
  }

  /** What `delete_file` answers when it gets that far. */
  datatype DeleteReply = NoIdsToDelete | StatusOk

  /** The delete requests a deletion sent, the disk afterwards and its reply. */
  datatype Deletion = Deletion(sent: seq<Request>, disk: set<string>, reply: Result<DeleteReply, PyError>)

  /** `delete_file` for `filename`, re-reading the file with `route`'s chunker: no ids
      means no index call and no removal; otherwise the ids are deleted and the file
      removed. */
  function DeleteResult(filename: string, route: Route, disk: set<string>, readers: Readers): (d: Deletion)
    ensures d.disk <= disk && |d.sent| <= 1
    ensures d.reply == Ok(NoIdsToDelete) ==> d.sent == [] && d.disk == disk
    ensures d.reply == Ok(StatusOk) ==> |d.sent| == 1 && d.disk == disk - {JoinPath(UploadDir, filename)}
    ensures d.reply.Err? ==> d.disk == disk
  {
    var savePath := JoinPath(UploadDir, filename);
    match Load(route, savePath, disk, readers)
    case Err(e) => Deletion([], disk, Err(e))
    case Ok(ms) =>
      var ids := DeleteIds(filename, ms);
      if ids == [] then Deletion([], disk, Ok(NoIdsToDelete))
      else if savePath !in disk then Deletion([DeleteRequest(ids)], disk, Err(NotFound(savePath)))
      else Deletion([DeleteRequest(ids)], disk - {savePath}, Ok(StatusOk))
  }

  /** `delete_file`, with the extension list corrected to `['.xlsx', '.xls']`. */
  method DeleteFile(filename: string, disk: set<string>, readers: Readers) returns (d: Deletion)
    ensures d == DeleteResult(filename, DeleteRoute(LowerExt(JoinPath(UploadDir, filename))), disk, readers)
  {
    var savePath := JoinPath(UploadDir, filename);
    var ext := LowerExt(savePath);
    var loaded := LoadFile(DeleteRoute(ext), savePath, disk, readers);
    if loaded.Err? {
      return Deletion([], disk, Err(loaded.error));
    }
    var ids := DeleteIds(filename, loaded.value);
    if ids == [] {
      return Deletion([], disk, Ok(NoIdsToDelete));
    }
    var sent := EmbeddingService.DeleteVectors(ids);
    if savePath !in disk {
      return Deletion(sent, disk, Err(NotFound(savePath)));
    }
    return Deletion(sent, disk - {savePath}, Ok(StatusOk));
  }

  /** As written, deleting an uploaded `.xls` workbook that PyMuPDF cannot open as a
      PDF finds no ids: the reply is "no ids to delete", the index keeps the
      workbook's vectors and the file stays. The corrected route reads it as a
      workbook. */
  lemma XlsDeleteFindsNoIds(filename: string, disk: set<string>, readers: Readers)
    requires LowerExt(JoinPath(UploadDir, filename)) == ".xls"
    requires readers.pdf(JoinPath(UploadDir, filename)) == PdfChunker.Unopenable
    requires JoinPath(UploadDir, filename) in disk
    ensures DeleteRouteAsWritten(".xls") == PdfRoute && DeleteRoute(".xls") == ExcelRoute
    ensures DeleteResult(filename, DeleteRouteAsWritten(".xls"), disk, readers) == Deletion([], disk, Ok(NoIdsToDelete))
  {
  }

  /** The two routes differ only for `.xls`: the `'xls'` entry can never match, since
      an extension is empty or starts with a dot. */
  lemma DeleteRoutesDiffer(path: string)
    ensures DeleteRouteAsWritten(LowerExt(path)) != DeleteRoute(LowerExt(path)) <==> LowerExt(path) == ".xls"
  {
    var ext := SplitExt(path).1;
    if ext != [] {
      assert LowerExt(path)[0] == LowerChar(ext[0]) == '.';
      assert "xls"[0] == 'x';
    }
  }

  /** Deleting a `.pdf`, `.xlsx`, `.xls` or `.pptx` (anything not converted on upload)
      right after a successful upload of it, with the readers unchanged, deletes
      exactly the ids the upload stored, and removes the file: the index then holds
      what it held before, less those ids. */
  lemma UploadThenDelete(entries: map<string, Entry>, filename: string, disk: set<string>, readers: Readers,
                         ppt: Conversion, doc: Conversion, embed: string -> Vector, describe: PyError -> string)
    requires forall i :: 0 <= i < |filename| ==> filename[i] != '/'
    requires var ext := LowerExt(JoinPath(UploadDir, filename)); ext != ".ppt" && ext != ".doc" && ext != ".docx"
    requires UploadResult(filename, disk, readers, ppt, doc, embed, None, describe).reply.Ok?
    ensures var savePath := JoinPath(UploadDir, filename);
      var u := UploadResult(filename, disk, readers, ppt, doc, embed, None, describe);
      var n := |Load(Loader(LowerExt(savePath)), savePath, disk + {savePath}, readers).value|;
      var d := DeleteResult(filename, DeleteRoute(LowerExt(savePath)), u.disk, readers);
      var after := ApplyAll(ApplyAll(entries, u.sent), d.sent);
      && d.reply == Ok(StatusOk)
      && d.sent == [DeleteRequest(IdRange(filename, 0, n))]
      && savePath !in d.disk
      && (forall key :: key in after <==> key in entries && key !in IdRange(filename, 0, n))
      && (forall key :: key in after ==> after[key] == entries[key])
  {
    var savePath := JoinPath(UploadDir, filename);
    var onDisk := disk + {savePath};
    StageTable(savePath, onDisk, ppt, doc);
    var st := Staging(filename, disk, ppt, doc).value;
    assert st == Staged(savePath, LowerExt(savePath), savePath, false, onDisk);
    var ms := Chunked(st, readers).value;
    BasenameOfJoin(UploadDir, filename);
    LoadSources(Loader(st.ext), savePath, onDisk, readers);
    UploadOk(filename, disk, readers, ppt, doc, embed, None, describe);
    UploadStores(entries, filename, disk, readers, ppt, doc, embed, describe);
    var u := UploadResult(filename, disk, readers, ppt, doc, embed, None, describe);
    DeleteIdsOfOneFile(filename, ms);
    var ids := IdRange(filename, 0, |ms|);
    var d := DeleteResult(filename, DeleteRoute(LowerExt(savePath)), u.disk, readers);
    assert d == Deletion([DeleteRequest(ids)], onDisk - {savePath}, Ok(StatusOk));
    EmbeddingService.DeleteEffect(ApplyAll(entries, u.sent), ids, d.sent);
  }

  /** `query_endpoint`: the query sent, and the response or the error. Everything
      raised inside the `try`, the 404 for an empty result included, is turned into a
      500 whose detail is the exception's `str()`; `generate` is the language model. */
  method QueryEndpoint(embed: string -> Vector, question: string, topK: int, matches: seq<Match>,
                       generate: string -> Result<string, string>)
    returns (sent: Request, r: Result<QueryResponse, HttpError>)
    ensures sent == QueryRequest(embed(question), topK)
    ensures matches == [] ==> r == Err(HttpError(500, Rendered(NoDocumentsFound)))
    ensures matches != [] ==>
      var chunks := ShapedAnswers(matches);
      match generate(BuildPrompt(chunks, question))
      case Err(msg) => r == Err(HttpError(500, msg))
      case Ok(answer) => r == Ok(QueryResponse(answer, ReferencesOf(chunks)))
  {
    var topChunks;
    sent, topChunks := Matching.QueryPinecone(embed, question, topK, matches);
    if topChunks == [] {
      var notFound := NoDocumentsFound;
      return sent, Err(HttpError(500, Rendered(notFound)));
    }
    var prompt := BuildPrompt(topChunks, question);
    var answer := generate(prompt);
    if answer.Err? {
      return sent, Err(HttpError(500, answer.error));
    }
    var references := BuildReferences(topChunks);
    return sent, Ok(QueryResponse(answer.value, references));
  }

  /** The 500 an empty result turns into carries the 404's rendering as its detail. */
  lemma EmptyResultDetail()
    ensures Rendered(NoDocumentsFound) == "404: No relevant documents found."
  {
    assert NatToString(404) == "404" by {
      assert NatToString(4) == "4";
      assert NatToString(40) == "40";
    }
  }
}
