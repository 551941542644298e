/** `EmbeddingService` (app/services/embedding_service.py): embeds chunk texts, upserts
    them in batches under the ids `"<filename>_<i>"`, answers queries and deletes ids.
    The sentence-embedding model is the function `embed`; the index is reached through
    the requests each operation returns, and what it answers to a query (`matches`)
    is an input. */
module EmbeddingService {
  import opened Common
  import opened Records
  import opened VectorStore
  import opened UpsertBatching
  import opened Answers

  /** `embed_chunks`: one vector per chunk, in order. */
  function EmbedChunks(embed: string -> Vector, chunks: seq<string>): (embs: seq<Vector>)
    ensures |embs| == |chunks|
    ensures forall i :: 0 <= i < |chunks| ==> embs[i] == embed(chunks[i])
  {
    seq(|chunks|, i requires 0 <= i < |chunks| => embed(chunks[i]))
  }

  /** The file name the ids are built from: the first dict's `source`, or `"unknown"`. */
  function IdPrefix(metas: seq<MetaDict>): string
    requires |metas| > 0
  {
    metas[0].source.GetOr("unknown")
  }

  /** `embed_and_upsert`: the upsert requests it sends, and the error it raises, if any.
      `failAt` is the batch whose upsert the index rejects, if any. */
  method EmbedAndUpsert(embed: string -> Vector, chunks: seq<string>, metas: seq<MetaDict>,
                        batchSize: int, failAt: Option<nat>)
    returns (sent: seq<Request>, err: Option<UpsertError>)
    ensures |metas| == 0 ==> sent == [] && err == Some(NoMetadata)
    ensures |metas| > 0 && batchSize == 0 ==> sent == [] && err == Some(ZeroBatchSize)
    ensures |metas| > 0 && batchSize < 0 ==> sent == [] && err == None
    ensures |metas| > 0 && batchSize > 0 ==>
      var run := Plan(|chunks|, |metas|, batchSize, failAt);
      err == run.error && sent == Upserts(IdPrefix(metas), EmbedChunks(embed, chunks), metas, run.spans)
  {
    var embeddings := EmbedChunks(embed, chunks);
    if |metas| == 0 {
      return [], Some(NoMetadata);
    }
    var filename := metas[0].source.GetOr("unknown");
    if batchSize == 0 {
      return [], Some(ZeroBatchSize);
    }
    if batchSize < 0 {
      return [], None;
    }
    sent, err := UpsertAll(filename, embeddings, metas, batchSize, failAt);
  }

  /** What the index holds after an `embed_and_upsert` with a positive batch size: the
      chunks up to where the call stopped are stored under `"<filename>_<i>"` with their
      own embedding and metadata dict, every other id is as before, and the call stopped
      short of the last chunk exactly when it raised. */
  lemma UpsertEffect(entries: map<string, Entry>, embed: string -> Vector, chunks: seq<string>,
                     metas: seq<MetaDict>, batchSize: int, failAt: Option<nat>, sent: seq<Request>)
    requires |metas| > 0 && batchSize > 0
    requires sent == Upserts(IdPrefix(metas), EmbedChunks(embed, chunks), metas, Plan(|chunks|, |metas|, batchSize, failAt).spans)
    ensures var run := Plan(|chunks|, |metas|, batchSize, failAt);
      var after := ApplyAll(entries, sent);
      && run.reached <= |chunks| && run.reached <= |metas|
      && (run.error == None <==> run.reached == |chunks|)
      && (forall i :: 0 <= i < run.reached ==>
            VectorId(IdPrefix(metas), i) in after && after[VectorId(IdPrefix(metas), i)] == Entry(embed(chunks[i]), metas[i]))
      && (forall key :: key !in IdRange(IdPrefix(metas), 0, run.reached) ==>
            (key in after <==> key in entries) && (key in entries ==> after[key] == entries[key]))
  {
    var run := Plan(|chunks|, |metas|, batchSize, failAt);
    var f, embs := IdPrefix(metas), EmbedChunks(embed, chunks);
    RunOutcome(|chunks|, |metas|, batchSize, failAt);
    Delivered(entries, f, embs, metas, batchSize, failAt);
    forall i | 0 <= i < run.reached
      ensures VectorId(f, i) in ApplyAll(entries, sent) && ApplyAll(entries, sent)[VectorId(f, i)] == Entry(embed(chunks[i]), metas[i])
    {
      StoredAt(entries, f, embs, metas, run.reached, i);
    }
    forall key | key !in IdRange(f, 0, run.reached)
      ensures (key in ApplyAll(entries, sent) <==> key in entries)
           && (key in entries ==> ApplyAll(entries, sent)[key] == entries[key])
    {
      OthersKept(entries, f, embs, metas, run.reached, key);
    }
  }

  /** `query_vectors`: the query request (the embedded question and `top_k`) and one
      answer per match the index returns, in its order. */
  method QueryVectors(embed: string -> Vector, queryText: string, topK: int, matches: seq<Match>)
    returns (sent: Request, answers: seq<Answer>)
    ensures sent == QueryRequest(embed(queryText), topK)
    ensures answers == ShapedAnswers(matches)
  {
    sent := QueryRequest(embed(queryText), topK);
    answers := ShapeMatches(matches);
  }

  /** `delete_vectors`: an empty id list makes no call; otherwise one delete of exactly
      those ids. */
  method DeleteVectors(vectorIds: seq<string>) returns (sent: seq<Request>)
    ensures vectorIds == [] ==> sent == []
    ensures vectorIds != [] ==> sent == [DeleteRequest(vectorIds)]
  {
    sent := [];
    if vectorIds != [] {
      sent := [DeleteRequest(vectorIds)];
    }
  }

  /** After `delete_vectors`, an id is stored exactly when it was stored before and is
      not one of the given ids, with its entry unchanged. */
  lemma DeleteEffect(entries: map<string, Entry>, vectorIds: seq<string>, sent: seq<Request>)
    requires vectorIds == [] ==> sent == []
    requires vectorIds != [] ==> sent == [DeleteRequest(vectorIds)]
    ensures forall k :: k in ApplyAll(entries, sent) <==> k in entries && k !in vectorIds
    ensures forall k :: k in ApplyAll(entries, sent) ==> ApplyAll(entries, sent)[k] == entries[k]
  {
    if vectorIds != [] {
      assert ApplyAll(entries, sent) == Apply(ApplyAll(entries, []), DeleteRequest(vectorIds));
    }
  }
}
