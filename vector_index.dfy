/** The vector index the service writes to and reads from, seen from the client side:
    a map from vector id to stored vector and metadata, and the requests the client
    sends it. An operation that talks to the index returns the requests it sent;
    `ApplyAll` says what the index holds after serving them. The similarity ranking
    of a query is the index's own business and arrives as data (the `matches` of a
    response). */
module VectorStore {
  import opened Common
  import opened Records

  type Vector = seq<real>

  /** What the index stores under an id. */
  datatype Entry = Entry(values: Vector, metadata: MetaDict)

  /** One `(id, values, metadata)` tuple of an upsert request. */
  datatype Upserted = Upserted(id: string, values: Vector, metadata: MetaDict)

  /** A request the client sent. */
  datatype Request =
    | UpsertRequest(vectors: seq<Upserted>)
    | DeleteRequest(ids: seq<string>)
    | QueryRequest(vector: Vector, topK: int)

  /** One element of a query response's `matches`. */
  datatype Match = Match(id: string, score: real, metadata: MetaDict)

  /** The ids of a batch, in order. */
  function Ids(vs: seq<Upserted>): (ids: seq<string>)
    ensures |ids| == |vs| && forall i :: 0 <= i < |vs| ==> ids[i] == vs[i].id
  {
    seq(|vs|, i requires 0 <= i < |vs| => vs[i].id)
  }

  /** The index after an upsert of `vs`: each tuple overwrites whatever its id held. */
  function Put(entries: map<string, Entry>, vs: seq<Upserted>): map<string, Entry>
    decreases |vs|
  {
    if vs == [] then entries
    else
      var v := vs[|vs| - 1];
      Put(entries, vs[..|vs| - 1])[v.id := Entry(v.values, v.metadata)]
  }

  /** Upserting two batches in turn is upserting their concatenation. */
  lemma {:induction false} PutConcat(entries: map<string, Entry>, a: seq<Upserted>, b: seq<Upserted>)
    ensures Put(Put(entries, a), b) == Put(entries, a + b)
    decreases |b|
  {
    if b != [] {
      assert (a + b)[..|a + b| - 1] == a + b[..|b| - 1];
      var v := b[|b| - 1];
      assert (a + b)[|a + b| - 1] == v;
      PutConcat(entries, a, b[..|b| - 1]);
      assert Put(entries, a + b) == Put(entries, a + b[..|b| - 1])[v.id := Entry(v.values, v.metadata)];
    } else {
      assert a + b == a;
    }
  }

  /** An upsert adds exactly the batch's ids; every other id keeps its entry. */
  lemma {:induction false} PutKeys(entries: map<string, Entry>, vs: seq<Upserted>, k: string)
    ensures k in Put(entries, vs) <==> k in entries || k in Ids(vs)
    ensures k !in Ids(vs) && k in entries ==> Put(entries, vs)[k] == entries[k]
    decreases |vs|
  {
    if vs != [] {
      var init := vs[..|vs| - 1];
      PutKeys(entries, init, k);
      assert Ids(vs) == Ids(init) + [vs[|vs| - 1].id];
    }
  }

  /** With distinct ids, the entry under the i-th id is the i-th tuple. */
  lemma {:induction false} PutLookup(entries: map<string, Entry>, vs: seq<Upserted>, i: nat)
    requires i < |vs|
    requires forall j, k :: 0 <= j < k < |vs| ==> vs[j].id != vs[k].id
    ensures vs[i].id in Put(entries, vs)
    ensures Put(entries, vs)[vs[i].id] == Entry(vs[i].values, vs[i].metadata)
    decreases |vs|
  {
    if i < |vs| - 1 {
      PutLookup(entries, vs[..|vs| - 1], i);
    }
  }

  /** The index after deleting `ids`. */
  function Remove(entries: map<string, Entry>, ids: seq<string>): (r: map<string, Entry>)
    ensures forall k :: k in r <==> k in entries && k !in ids
    ensures forall k :: k in r ==> r[k] == entries[k]
  {
    map k | k in entries && k !in ids :: entries[k]
  }

  /** The index after it has served one request. */
  function Apply(entries: map<string, Entry>, r: Request): map<string, Entry>
  {
    match r
    case UpsertRequest(vs) => Put(entries, vs)
    case DeleteRequest(ids) => Remove(entries, ids)
    case QueryRequest(_, _) => entries
  }

  /** The index after it has served the requests in order. */
  function ApplyAll(entries: map<string, Entry>, rs: seq<Request>): map<string, Entry>
    decreases |rs|
  {
    if rs == [] then entries else Apply(ApplyAll(entries, rs[..|rs| - 1]), rs[|rs| - 1])
  }

  lemma ApplyAllSnoc(entries: map<string, Entry>, rs: seq<Request>, r: Request)
    ensures ApplyAll(entries, rs + [r]) == Apply(ApplyAll(entries, rs), r)
  {
    assert (rs + [r])[..|rs + [r]| - 1] == rs;
  }
}
