/** An upload through the versioned service followed by a deletion of the same file:
    what the ledger and the index hold at the end. `process_upload` records the ids
    `"<upload name>_<i>"`, while the service's `embed_and_upsert` stores the chunks
    under the base name of the file the chunker read; `delete_file` deletes the
    recorded ids. */
module Lifecycle {
  import opened Common
  import opened Records
  import opened Paths
  import opened VectorStore
  import opened Dispatch
  import opened Ledger
  import opened DocumentService
  import opened FileService

  /** The upload's row is the one a later deletion of the same name can find. */
  lemma UploadFindable(docs: seq<Row>, name: string, size: nat, disk: set<string>, readers: Readers,
                       ppt: Conversion, doc: Conversion, embed: string -> Vector, failAt: Option<nat>, describe: PyError -> string)
    ensures var p := ProcessResult(name, size, disk, readers, ppt, doc, embed, failAt, describe);
      p.saves != [] && FirstRow(docs + [LastSaved(p)], name).Some?
  {
    var p := ProcessResult(name, size, disk, readers, ppt, doc, embed, failAt, describe);
    ProcessLife(name, size, disk, readers, ppt, doc, embed, failAt, describe);
    var all := docs + [LastSaved(p)];
    assert Keeps(p.saves[|p.saves| - 1], name, size);
    assert all[|docs|].filename == name;
  }

  /** Deleting a file that was uploaded unconverted, under a name without `/`, removes
      everything the upload stored: the index holds none of its chunks, the ledger none
      of its records, and the saved file is gone. */
  lemma UploadThenDelete(entries: map<string, Entry>, docs: seq<Row>, vecs: seq<VectorRecord>,
                         name: string, size: nat, disk: set<string>, readers: Readers, ppt: Conversion, doc: Conversion,
                         embed: string -> Vector, failAt: Option<nat>, describe: PyError -> string)
    requires ProcessResult(name, size, disk, readers, ppt, doc, embed, failAt, describe).reply.Ok?
    requires forall k :: 0 <= k < |name| ==> name[k] != '/'
    requires LowerExt(JoinPath(UploadDir, name)) !in {".ppt", ".doc", ".docx"}
    ensures var p := ProcessResult(name, size, disk, readers, ppt, doc, embed, failAt, describe);
      var d := DeleteOutcome(docs + [LastSaved(p)], vecs + p.records, p.disk, name, Faults(None, None));
      var index := ApplyAll(ApplyAll(entries, p.sent), d.sent);
      && d.response.status == SuccessStatus
      && (forall i :: 0 <= i < |p.records| ==> VectorId(name, i) !in index)
      && RecordsOf(d.vectors, name) == []
      && JoinPath(UploadDir, name) !in d.disk
  {
    var p := ProcessResult(name, size, disk, readers, ppt, doc, embed, failAt, describe);
    var docs', all := docs + [LastSaved(p)], vecs + p.records;
    var stored := ApplyAll(entries, p.sent);
    UploadFindable(docs, name, size, disk, readers, ppt, doc, embed, failAt, describe);
    KnownFileDeleted(stored, docs', all, p.disk, name, Faults(None, None));
    ProcessOk(name, size, disk, readers, ppt, doc, embed, failAt, describe);
    var ms := Chunked(Staging(name, disk, ppt, doc).value, readers).value;
    assert p.records == VectorRecords(name, Dicts(ms));
    forall i | 0 <= i < |p.records|
      ensures VectorId(name, i) !in ApplyAll(stored, DeleteOutcome(docs', all, p.disk, name, Faults(None, None)).sent)
    {
      RecordsFollowChunks(name, ms, i);
      assert p.records[i] == all[|vecs| + i];
      RecordedIdDeleted(stored, docs', all, p.disk, name, p.records[i]);
    }
  }

  /** Deleting a converted `.ppt`, `.doc` or `.docx` upload leaves the chunks it stored
      in the index, each under its id with its entry: the recorded ids it deletes all
      carry the upload's own name, which the stored ids do not. */
  lemma ConvertedDeleteLeavesVectors(entries: map<string, Entry>, docs: seq<Row>, vecs: seq<VectorRecord>,
                                     name: string, size: nat, disk: set<string>, readers: Readers, ppt: Conversion, doc: Conversion,
                                     embed: string -> Vector, failAt: Option<nat>, describe: PyError -> string)
    requires ProcessResult(name, size, disk, readers, ppt, doc, embed, failAt, describe).reply.Ok?
    requires LowerExt(JoinPath(UploadDir, name)) in {".ppt", ".doc", ".docx"}
    requires IdsFollowNames(vecs)
    ensures Staging(name, disk, ppt, doc).Ok? && Chunked(Staging(name, disk, ppt, doc).value, readers).Ok?
    ensures var p := ProcessResult(name, size, disk, readers, ppt, doc, embed, failAt, describe);
      var st := Staging(name, disk, ppt, doc).value;
      var ms := Chunked(st, readers).value;
      var f := Basename(LoaderPath(st));
      var d := DeleteOutcome(docs + [LastSaved(p)], vecs + p.records, p.disk, name, Faults(None, None));
      var index := ApplyAll(ApplyAll(entries, p.sent), d.sent);
      && d.response.status == SuccessStatus
      && forall i :: 0 <= i < |ms| ==> VectorId(f, i) in index && index[VectorId(f, i)] == Entry(embed(ms[i].text), ToDict(ms[i]))
  {
    var p := ProcessResult(name, size, disk, readers, ppt, doc, embed, failAt, describe);
    var docs', all := docs + [LastSaved(p)], vecs + p.records;
    var stored := ApplyAll(entries, p.sent);
    UploadFindable(docs, name, size, disk, readers, ppt, doc, embed, failAt, describe);
    KnownFileDeleted(stored, docs', all, p.disk, name, Faults(None, None));
    ServiceStores(entries, name, size, disk, readers, ppt, doc, embed, failAt, describe);
    ProcessKeepsIds(vecs, name, size, disk, readers, ppt, doc, embed, failAt, describe);
    ConvertedBasename(name, disk, ppt, doc);
    var st := Staging(name, disk, ppt, doc).value;
    var ms := Chunked(st, readers).value;
    var f := Basename(LoaderPath(st));
    forall i | 0 <= i < |ms|
      ensures var index := ApplyAll(stored, DeleteOutcome(docs', all, p.disk, name, Faults(None, None)).sent);
        VectorId(f, i) in index && index[VectorId(f, i)] == stored[VectorId(f, i)]
    {
      forall v | v in all && v.documentFilename == name
        ensures v.vectorId != VectorId(f, i)
      {
        VectorIdInjective(name, v.chunkIndex, f, i);
      }
      UnrecordedIdKept(stored, docs', all, p.disk, name, VectorId(f, i));
    }
  }
}
