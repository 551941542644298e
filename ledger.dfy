/** The MongoDB ledger the services keep beside the vector index: one
    `DocumentCollection` row per upload and one `VectorMetadata` record per chunk. A
    document row is an object only its upload holds, which it updates field by field and
    writes back with `save()`: here it is the `Row` value the upload keeps in a local
    variable. The two collections are sequences in insertion order. The row schema
    (app/models/mongo_models.py) is not part of this model: a field the services never
    set is `None` here. */
module Ledger {
  import opened Common
  import opened Records

  const EmbeddingModel: string := "BAAI/bge-base-en-v1.5"

  datatype Status = Processing | Completed | Failed

  /** A document row as it is stored. `processed` says whether `processed_at` was set;
      the timestamp itself is not modelled. */
  datatype Row = Row(
    filename: string,
    originalFilename: string,
    fileType: string,
    fileSize: nat,
    chunkSize: int,
    overlap: int,
    status: Status,
    errorMessage: Option<string>,
    totalChunks: Option<nat>,
    sheetNames: Option<seq<string>>,
    totalSlides: Option<nat>,
    totalPages: Option<nat>,
    processed: bool)

  /** A `VectorMetadata` record: where chunk `chunkIndex` of a document came from. */
  datatype VectorRecord = VectorRecord(
    vectorId: string,
    documentFilename: string,
    chunkIndex: nat,
    page: Option<int>,
    slide: Option<int>,
    sheet: Option<string>,
    startRow: Option<int>,
    endRow: Option<int>,
    chunkLength: nat,
    hasImages: bool,
    imageCount: int,
    embeddingModel: string)

  /** The two collections. */
  class Database {
    var documents: seq<Row>
    var vectors: seq<VectorRecord>

    constructor ()
      ensures documents == [] && vectors == []
    {
      documents := [];
      vectors := [];
    }

    /** `create()`: the row is appended; its position is returned. */
    method Create(row: Row) returns (idx: nat)
      modifies this
      ensures idx == |old(documents)| && documents == old(documents) + [row]
      ensures vectors == old(vectors)
    {
      idx := |documents|;
      documents := documents + [row];
    }

    /** `save()`: the stored row at `idx` is overwritten with the object's fields. */
    method Save(idx: nat, row: Row)
      requires idx < |documents|
      modifies this
      ensures documents == old(documents)[idx := row]
      ensures vectors == old(vectors)
    {
      documents := documents[idx := row];
    }

    /** `VectorMetadata.insert_many(...)`. */
    method InsertMany(records: seq<VectorRecord>)
      modifies this
      ensures vectors == old(vectors) + records
      ensures documents == old(documents)
    {
      vectors := vectors + records;
    }

    /** `find(VectorMetadata.document_filename == f).delete()`. */
    method DeleteRecordsOf(f: string)
      modifies this
      ensures vectors == RecordsBut(old(vectors), f)
      ensures documents == old(documents)
    {
      vectors := RecordsBut(vectors, f);
    }

    /** `delete()` of the row at `idx`. */
    method DeleteRow(idx: nat)
      requires idx < |documents|
      modifies this
      ensures documents == old(documents)[..idx] + old(documents)[idx + 1..]
      ensures vectors == old(vectors)
    {
      documents := documents[..idx] + documents[idx + 1..];
    }
  }

  /** Saving over the last row replaces it. */
  lemma SavedOverLast(docs: seq<Row>, idx: nat, r: Row)
    requires idx + 1 == |docs|
    ensures docs[idx := r] == docs[..idx] + [r]
  {
  }

  /** Every record names its vector by its file and chunk index, `"<file>_<index>"`, as
      the upload path writes them. */
  predicate IdsFollowNames(vs: seq<VectorRecord>)
  {
    forall v :: v in vs ==> v.vectorId == VectorId(v.documentFilename, v.chunkIndex)
  }

  /** `find_one(DocumentCollection.filename == f)`: the first row with that filename, in
      insertion order. */
  function FirstRow(docs: seq<Row>, f: string): (r: Option<nat>)
    ensures r.None? <==> forall k :: 0 <= k < |docs| ==> docs[k].filename != f
    ensures r.Some? ==> r.value < |docs| && docs[r.value].filename == f
                        && forall k :: 0 <= k < r.value ==> docs[k].filename != f
  {
    if docs == [] then None
    else if docs[0].filename == f then Some(0)
    else
      match FirstRow(docs[1..], f)
      case None => None
      case Some(k) => Some(k + 1)
  }

  /** `find(VectorMetadata.document_filename == f).to_list()`: that file's records, in
      insertion order. */
  function RecordsOf(vs: seq<VectorRecord>, f: string): seq<VectorRecord>
  {
    if vs == [] then []
    else RecordsOf(vs[..|vs| - 1], f) + (if vs[|vs| - 1].documentFilename == f then [vs[|vs| - 1]] else [])
  }

  /** The records that deleting file `f`'s records leaves, in order. */
  function RecordsBut(vs: seq<VectorRecord>, f: string): seq<VectorRecord>
  {
    if vs == [] then []
    else RecordsBut(vs[..|vs| - 1], f) + (if vs[|vs| - 1].documentFilename != f then [vs[|vs| - 1]] else [])
  }

  /** The rows named `f`, in order. */
  function RowsNamed(docs: seq<Row>, f: string): seq<Row>
  {
    if docs == [] then []
    else RowsNamed(docs[..|docs| - 1], f) + (if docs[|docs| - 1].filename == f then [docs[|docs| - 1]] else [])
  }

  /** A file's records are exactly the records with its name. */
  lemma {:induction false} RecordsOfMembers(vs: seq<VectorRecord>, f: string, v: VectorRecord)
    ensures v in RecordsOf(vs, f) <==> v in vs && v.documentFilename == f
  {
    if vs != [] {
      var init := vs[..|vs| - 1];
      RecordsOfMembers(init, f, v);
      assert vs == init + [vs[|vs| - 1]];
    }
  }

  /** Deleting a file's records keeps exactly the records of other files. */
  lemma {:induction false} RecordsButMembers(vs: seq<VectorRecord>, f: string, v: VectorRecord)
    ensures v in RecordsBut(vs, f) <==> v in vs && v.documentFilename != f
  {
    if vs != [] {
      var init := vs[..|vs| - 1];
      RecordsButMembers(init, f, v);
      assert vs == init + [vs[|vs| - 1]];
    }
  }

  /** A file without records loses nothing when its records are deleted. */
  lemma {:induction false} RecordsButNone(vs: seq<VectorRecord>, f: string)
    requires RecordsOf(vs, f) == []
    ensures RecordsBut(vs, f) == vs
  {
    if vs != [] {
      var init, last := vs[..|vs| - 1], vs[|vs| - 1];
      assert RecordsOf(vs, f) == RecordsOf(init, f) + (if last.documentFilename == f then [last] else []);
      assert |RecordsOf(init, f)| == 0 && last.documentFilename != f;
      RecordsButNone(init, f);
      assert RecordsBut(vs, f) == init + [last];
      assert vs == init + [last];
    }
  }

  /** Deleting one file's records leaves every other file's records as they were, in the
      same order. */
  lemma {:induction false} RecordsOfOther(vs: seq<VectorRecord>, f: string, g: string)
    requires f != g
    ensures RecordsOf(RecordsBut(vs, f), g) == RecordsOf(vs, g)
  {
    if vs != [] {
      var init, last := vs[..|vs| - 1], vs[|vs| - 1];
      RecordsOfOther(init, f, g);
      assert RecordsOf(vs, g) == RecordsOf(init, g) + (if last.documentFilename == g then [last] else []);
      if last.documentFilename != f {
        var kept := RecordsBut(init, f) + [last];
        assert RecordsBut(vs, f) == kept;
        assert kept[..|kept| - 1] == RecordsBut(init, f) && kept[|kept| - 1] == last;
        assert RecordsOf(kept, g) == RecordsOf(RecordsBut(init, f), g) + (if last.documentFilename == g then [last] else []);
      } else {
        assert RecordsBut(init, f) + [] == RecordsBut(init, f);
        assert RecordsBut(vs, f) == RecordsBut(init, f);
      }
    }
  }

  /** Records appended later come after a file's earlier records. */
  lemma {:induction false} RecordsOfAppend(vs: seq<VectorRecord>, ws: seq<VectorRecord>, f: string)
    ensures RecordsOf(vs + ws, f) == RecordsOf(vs, f) + RecordsOf(ws, f)
  {
    if ws == [] {
      assert vs + ws == vs;
    } else {
      var init := ws[..|ws| - 1];
      RecordsOfAppend(vs, init, f);
      assert (vs + ws)[..|vs + ws| - 1] == vs + init;
      assert (vs + ws)[|vs + ws| - 1] == ws[|ws| - 1];
    }
  }

  /** Removing the first row named `f` removes the first of the rows named `f` and
      keeps every other name's rows, in order. */
  lemma RowsNamedAfterDelete(docs: seq<Row>, idx: nat, f: string, g: string)
    requires idx < |docs| && docs[idx].filename == f
    requires forall k :: 0 <= k < idx ==> docs[k].filename != f
    ensures g == f ==> RowsNamed(docs, g) == [docs[idx]] + RowsNamed(docs[..idx] + docs[idx + 1..], g)
    ensures g != f ==> RowsNamed(docs[..idx] + docs[idx + 1..], g) == RowsNamed(docs, g)
  {
    if g == f {
      RowsNamedNone(docs[..idx], f);
      RowsNamedDeletedFirst(docs, idx, f);
    } else {
      RowsNamedDeletedOther(docs, idx, g);
    }
  }

  lemma RowsNamedDeletedFirst(docs: seq<Row>, idx: nat, f: string)
    requires idx < |docs| && docs[idx].filename == f && RowsNamed(docs[..idx], f) == []
    ensures RowsNamed(docs, f) == [docs[idx]] + RowsNamed(docs[..idx] + docs[idx + 1..], f)
  {
    RowsNamedAround(docs, idx, f);
    var after := RowsNamed(docs[idx + 1..], f);
    assert RowsNamed(docs, f) == [] + [docs[idx]] + after;
    assert RowsNamed(docs[..idx] + docs[idx + 1..], f) == [] + after;
  }

  lemma RowsNamedDeletedOther(docs: seq<Row>, idx: nat, g: string)
    requires idx < |docs| && docs[idx].filename != g
    ensures RowsNamed(docs[..idx] + docs[idx + 1..], g) == RowsNamed(docs, g)
  {
    RowsNamedAround(docs, idx, g);
    var before, after := RowsNamed(docs[..idx], g), RowsNamed(docs[idx + 1..], g);
    assert RowsNamed(docs, g) == before + [] + after;
  }

  /** The rows named `g` before, at and after position `idx`. */
  lemma RowsNamedAround(docs: seq<Row>, idx: nat, g: string)
    requires idx < |docs|
    ensures var before, after := RowsNamed(docs[..idx], g), RowsNamed(docs[idx + 1..], g);
      && RowsNamed(docs[..idx] + docs[idx + 1..], g) == before + after
      && RowsNamed(docs, g) == before + (if docs[idx].filename == g then [docs[idx]] else []) + after
  {
    var before, after := docs[..idx], docs[idx + 1..];
    RowsNamedAppend(before, after, g);
    assert docs == before + ([docs[idx]] + after);
    RowsNamedAppend(before, [docs[idx]] + after, g);
    RowsNamedAppend([docs[idx]], after, g);
    assert [docs[idx]][..0] == [];
    assert RowsNamed([docs[idx]], g) == RowsNamed([], g) + (if docs[idx].filename == g then [docs[idx]] else []);
  }

  /** No rows named `f` gives no rows. */
  lemma {:induction false} RowsNamedNone(docs: seq<Row>, f: string)
    requires forall k :: 0 <= k < |docs| ==> docs[k].filename != f
    ensures RowsNamed(docs, f) == []
  {
    if docs != [] {
      RowsNamedNone(docs[..|docs| - 1], f);
    }
  }

  lemma {:induction false} RowsNamedAppend(a: seq<Row>, b: seq<Row>, g: string)
    ensures RowsNamed(a + b, g) == RowsNamed(a, g) + RowsNamed(b, g)
  {
    if b == [] {
      assert a + b == a;
    } else {
      var init := b[..|b| - 1];
      RowsNamedAppend(a, init, g);
      assert (a + b)[..|a + b| - 1] == a + init;
      assert (a + b)[|a + b| - 1] == b[|b| - 1];
    }
  }
}
