/** `FileService` (app/services/file_service.py): listing the uploaded files and
    deleting one with everything recorded about it. The ledger is the `Database`
    object; the vector index and the upload directory are values, as elsewhere: the
    index is changed by the requests an operation returns, and the directory is a set
    of paths of regular files. An exception is a parameter saying where it is raised
    and with which text. */
module FileService {
  import opened Common
  import opened Records
  import opened Paths
  import opened VectorStore
  import opened Ledger
  import EmbeddingService

  const ErrorStatus: string := "error"
  const SuccessStatus: string := "success"
  const DeleteErrorPrefix: string := "Error deleting file: "

  /** A `DeleteResponse`. */
  datatype DeleteResponse = DeleteResponse(status: string, message: string)

  function NotFoundResponse(f: string): DeleteResponse
  {
    DeleteResponse(ErrorStatus, "File " + f + " not found in database")
  }

  function DeletedResponse(f: string, n: nat): DeleteResponse
  {
    DeleteResponse(SuccessStatus, "File " + f + " and " + NatToString(n) + " associated vectors deleted successfully")
  }

  function RaisedResponse(message: string): DeleteResponse
  {
    DeleteResponse(ErrorStatus, DeleteErrorPrefix + message)
  }

  /** Where `delete_file` raises, if anywhere: the ledger lookup, or the index's delete
      call; each with the exception's `str()`. */
  datatype Faults = Faults(lookup: Option<string>, index: Option<string>)

  /** What a deletion did: the response, the requests sent to the index, the two ledger
      collections and the upload directory afterwards. */
  datatype Deletion = Deletion(
    response: DeleteResponse,
    sent: seq<Request>,
    documents: seq<Row>,
    vectors: seq<VectorRecord>,
    disk: set<string>)

  /** `[meta.vector_id for meta in vector_metadata]`. */
  function RecordIds(rs: seq<VectorRecord>): (ids: seq<string>)
    ensures |ids| == |rs| && forall k :: 0 <= k < |rs| ==> ids[k] == rs[k].vectorId
  {
    seq(|rs|, k requires 0 <= k < |rs| => rs[k].vectorId)
  }

  /** `delete_file(f)`: look the file up, delete its recorded vectors from the index and
      its records from the ledger (only when it has any), delete its first row and its
      saved file. An exception anywhere ends it with an error response; the lookup and
      the index call are the steps that talk to another system before anything is
      deleted. */
  function DeleteOutcome(docs: seq<Row>, vecs: seq<VectorRecord>, disk: set<string>, f: string, faults: Faults): Deletion
  {
    if faults.lookup.Some? then Deletion(RaisedResponse(faults.lookup.value), [], docs, vecs, disk)
    else
      match FirstRow(docs, f)
      case None => Deletion(NotFoundResponse(f), [], docs, vecs, disk)
      case Some(idx) =>
        var recs := RecordsOf(vecs, f);
        if recs != [] && faults.index.Some? then Deletion(RaisedResponse(faults.index.value), [], docs, vecs, disk)
        else
          var sent := if recs == [] then [] else [DeleteRequest(RecordIds(recs))];
          Deletion(DeletedResponse(f, |recs|), sent, docs[..idx] + docs[idx + 1..], RecordsBut(vecs, f),
                   disk - {JoinPath(UploadDir, f)})
  }

  /** `delete_file` on the ledger `db`: the response, the requests it sent and the upload
      directory afterwards; the ledger ends as `DeleteOutcome` says. */
  method DeleteFile(db: Database, f: string, disk: set<string>, faults: Faults)
    returns (response: DeleteResponse, sent: seq<Request>, after: set<string>)
    modifies db
    ensures Deletion(response, sent, db.documents, db.vectors, after)
         == DeleteOutcome(old(db.documents), old(db.vectors), disk, f, faults)
  {
    sent := [];
    after := disk;
    if faults.lookup.Some? {
      return RaisedResponse(faults.lookup.value), sent, after;
    }
    var found := FirstRow(db.documents, f);
    if found.None? {
      return NotFoundResponse(f), sent, after;
    }
    var recs := RecordsOf(db.vectors, f);
    if recs != [] {
      var ids := RecordIds(recs);
      if faults.index.Some? {
        return RaisedResponse(faults.index.value), sent, after;
      }
      sent := EmbeddingService.DeleteVectors(ids);
      db.DeleteRecordsOf(f);
    } else {
      RecordsButNone(db.vectors, f);
    }
    db.DeleteRow(found.value);
    var path := JoinPath(UploadDir, f);
    if path in after {
      after := after - {path};
    }
    response := DeletedResponse(f, |recs|);
  }

  /** An unknown file is reported as not found and nothing is deleted. */
  lemma UnknownFileKept(docs: seq<Row>, vecs: seq<VectorRecord>, disk: set<string>, f: string, faults: Faults)
    requires faults.lookup.None? && forall k :: 0 <= k < |docs| ==> docs[k].filename != f
    ensures DeleteOutcome(docs, vecs, disk, f, faults) == Deletion(NotFoundResponse(f), [], docs, vecs, disk)
    ensures DeleteOutcome(docs, vecs, disk, f, faults).response.status == ErrorStatus
  {
  }

  /** An exception is caught and reported as an error, and nothing was deleted. */
  lemma FaultKeepsAll(docs: seq<Row>, vecs: seq<VectorRecord>, disk: set<string>, f: string, faults: Faults)
    requires faults.lookup.Some? || (FirstRow(docs, f).Some? && RecordsOf(vecs, f) != [] && faults.index.Some?)
    ensures var d := DeleteOutcome(docs, vecs, disk, f, faults);
      && d.response.status == ErrorStatus && DeleteErrorPrefix <= d.response.message
      && d.sent == [] && d.documents == docs && d.vectors == vecs && d.disk == disk
  {
  }

  /** A known file: the index loses exactly its recorded vector ids (with no call at
      all when it has none), the ledger loses all of its records and one of its rows,
      which other files keep, its saved file is gone, and the response counts the
      records. */
  lemma KnownFileDeleted(entries: map<string, Entry>, docs: seq<Row>, vecs: seq<VectorRecord>, disk: set<string>,
                         f: string, faults: Faults)
    requires faults.lookup.None? && faults.index.None? && FirstRow(docs, f).Some?
    ensures var d := DeleteOutcome(docs, vecs, disk, f, faults);
      var ids := RecordIds(RecordsOf(vecs, f));
      var index := ApplyAll(entries, d.sent);
      && d.response == DeletedResponse(f, |RecordsOf(vecs, f)|) && d.response.status == SuccessStatus
      && (ids == [] <==> d.sent == [])
      && (forall k :: k in index <==> k in entries && k !in ids)
      && (forall k :: k in index ==> index[k] == entries[k])
      && RecordsOf(d.vectors, f) == []
      && (forall g :: g != f ==> RecordsOf(d.vectors, g) == RecordsOf(vecs, g))
      && |d.documents| == |docs| - 1
      && RowsNamed(docs, f) == [docs[FirstRow(docs, f).value]] + RowsNamed(d.documents, f)
      && (forall g :: g != f ==> RowsNamed(d.documents, g) == RowsNamed(docs, g))
      && d.disk == disk - {JoinPath(UploadDir, f)}
  {
    var d := DeleteOutcome(docs, vecs, disk, f, faults);
    var ids := RecordIds(RecordsOf(vecs, f));
    var idx := FirstRow(docs, f).value;
    EmbeddingService.DeleteEffect(entries, ids, d.sent);
    RecordsOfGone(vecs, f);
    forall g | g != f
      ensures RecordsOf(d.vectors, g) == RecordsOf(vecs, g)
    {
      RecordsOfOther(vecs, f, g);
    }
    forall g
      ensures g == f ==> RowsNamed(docs, g) == [docs[idx]] + RowsNamed(d.documents, g)
      ensures g != f ==> RowsNamed(d.documents, g) == RowsNamed(docs, g)
    {
      RowsNamedAfterDelete(docs, idx, f, g);
    }
  }

  /** Deleting `f` deletes the id of every record of `f` from the index. */
  lemma RecordedIdDeleted(entries: map<string, Entry>, docs: seq<Row>, vecs: seq<VectorRecord>, disk: set<string>,
                          f: string, v: VectorRecord)
    requires FirstRow(docs, f).Some? && v in vecs && v.documentFilename == f
    ensures v.vectorId !in ApplyAll(entries, DeleteOutcome(docs, vecs, disk, f, Faults(None, None)).sent)
  {
    var recs := RecordsOf(vecs, f);
    RecordsOfMembers(vecs, f, v);
    var k :| 0 <= k < |recs| && recs[k] == v;
    assert RecordIds(recs)[k] == v.vectorId;
    EmbeddingService.DeleteEffect(entries, RecordIds(recs), DeleteOutcome(docs, vecs, disk, f, Faults(None, None)).sent);
  }

  /** An id that no record of `f` carries keeps its entry when `f` is deleted. */
  lemma UnrecordedIdKept(entries: map<string, Entry>, docs: seq<Row>, vecs: seq<VectorRecord>, disk: set<string>,
                         f: string, key: string)
    requires FirstRow(docs, f).Some?
    requires forall v :: v in vecs && v.documentFilename == f ==> v.vectorId != key
    ensures var index := ApplyAll(entries, DeleteOutcome(docs, vecs, disk, f, Faults(None, None)).sent);
      (key in index <==> key in entries) && (key in index ==> index[key] == entries[key])
  {
    var recs := RecordsOf(vecs, f);
    var ids := RecordIds(recs);
    if key in ids {
      var k :| 0 <= k < |ids| && ids[k] == key;
      RecordsOfMembers(vecs, f, recs[k]);
      assert false;
    }
    EmbeddingService.DeleteEffect(entries, ids, DeleteOutcome(docs, vecs, disk, f, Faults(None, None)).sent);
  }

  /** A deletion keeps the ledger's ids following their records' names. */
  lemma DeleteKeepsIds(docs: seq<Row>, vecs: seq<VectorRecord>, disk: set<string>, f: string, faults: Faults)
    requires IdsFollowNames(vecs)
    ensures IdsFollowNames(DeleteOutcome(docs, vecs, disk, f, faults).vectors)
  {
    forall v | v in RecordsBut(vecs, f)
      ensures v in vecs
    {
      RecordsButMembers(vecs, f, v);
    }
  }

  /** After its records are deleted a file has none left. */
  lemma RecordsOfGone(vecs: seq<VectorRecord>, f: string)
    ensures RecordsOf(RecordsBut(vecs, f), f) == []
  {
    var rest := RecordsBut(vecs, f);
    if RecordsOf(rest, f) != [] {
      var v := RecordsOf(rest, f)[0];
      RecordsOfMembers(rest, f, v);
      RecordsButMembers(vecs, f, v);
      assert false;
    }
  }

  /** What `list_files` returns: the ledger's filenames in ledger order; when the ledger
      has no rows or the query raises, the names `os.listdir` gives (in its order; `None`
      when the upload directory does not exist) that are regular files. */
  function Listed(docs: seq<Row>, queryRaises: bool, listing: Option<seq<string>>, files: set<string>): seq<string>
  {
    if !queryRaises && docs != [] then Filenames(docs)
    else
      match listing
      case None => []
      case Some(names) => RegularFiles(names, files)
  }

  function Filenames(docs: seq<Row>): (names: seq<string>)
    ensures |names| == |docs| && forall k :: 0 <= k < |docs| ==> names[k] == docs[k].filename
  {
    seq(|docs|, k requires 0 <= k < |docs| => docs[k].filename)
  }

  /** The listed names whose path under the upload directory is a regular file. */
  function RegularFiles(names: seq<string>, files: set<string>): seq<string>
  {
    if names == [] then []
    else
      var last := names[|names| - 1];
      RegularFiles(names[..|names| - 1], files) + (if JoinPath(UploadDir, last) in files then [last] else [])
  }

  /** The fallback lists exactly the regular files among the directory's entries. */
  lemma {:induction false} RegularFilesMembers(names: seq<string>, files: set<string>, x: string)
    ensures x in RegularFiles(names, files) <==> x in names && JoinPath(UploadDir, x) in files
  {
    if names != [] {
      var init := names[..|names| - 1];
      RegularFilesMembers(init, files, x);
      assert names == init + [names[|names| - 1]];
    }
  }

  /** The fallback keeps the listing's order: entries listed later come later. */
  lemma {:induction false} RegularFilesAppend(a: seq<string>, b: seq<string>, files: set<string>)
    ensures RegularFiles(a + b, files) == RegularFiles(a, files) + RegularFiles(b, files)
  {
    if b == [] {
      assert a + b == a;
    } else {
      var init := b[..|b| - 1];
      RegularFilesAppend(a, init, files);
      assert (a + b)[..|a + b| - 1] == a + init;
      assert (a + b)[|a + b| - 1] == b[|b| - 1];
    }
  }

  /** `list_files` on the ledger `db`. */
  method ListFiles(db: Database, queryRaises: bool, listing: Option<seq<string>>, files: set<string>)
    returns (names: seq<string>)
    ensures names == Listed(db.documents, queryRaises, listing, files)
  {
    if !queryRaises && db.documents != [] {
      names := LedgerNames(db.documents);
      return;
    }
    if listing.None? {
      return [];
    }
    names := DirectoryNames(listing.value, files);
  }

  /** The `for doc in documents` loop. */
  method LedgerNames(docs: seq<Row>) returns (names: seq<string>)
    ensures names == Filenames(docs)
  {
    names := [];
    var k := 0;
    while k < |docs|
      invariant 0 <= k <= |docs| && names == Filenames(docs[..k])
    {
      names := names + [docs[k].filename];
      k := k + 1;
    }
    assert docs[..k] == docs;
  }

  /** The `for filename in os.listdir(...)` loop. */
  method DirectoryNames(listing: seq<string>, files: set<string>) returns (names: seq<string>)
    ensures names == RegularFiles(listing, files)
  {
    names := [];
    var k := 0;
    while k < |listing|
      invariant 0 <= k <= |listing| && names == RegularFiles(listing[..k], files)
    {
      assert listing[..k + 1][..k] == listing[..k];
      if JoinPath(UploadDir, listing[k]) in files {
        names := names + [listing[k]];
      }
      k := k + 1;
    }
    assert listing[..k] == listing;
  }

  /** Every file with a row in the ledger is listed while the ledger query succeeds. */
  lemma RowListed(docs: seq<Row>, listing: Option<seq<string>>, files: set<string>, k: nat)
    requires k < |docs|
    ensures docs[k].filename in Listed(docs, false, listing, files)
  {
    assert Listed(docs, false, listing, files)[k] == docs[k].filename;
  }
}
