/** The module-level `embed_and_upsert` (embeddings.py) that app.py uses: the same batching
    and id scheme as the service's, except that the file name is read with
    `metadata[0]['source']`, so a first dict without `source` raises. */
module Embeddings {
  import opened Common
  import opened Records
  import opened VectorStore
  import opened UpsertBatching
  import EmbeddingService

  /** The `batch_size` a caller gets when it passes none. */
  const DefaultBatchSize: int := 100

  /** `embed_and_upsert`: the upsert requests it sends, and the error it raises, if any.
      `failAt` is the batch whose upsert the index rejects, if any. */
  method EmbedAndUpsert(embed: string -> Vector, chunks: seq<string>, metas: seq<MetaDict>,
                        batchSize: int, failAt: Option<nat>)
    returns (sent: seq<Request>, err: Option<UpsertError>)
    ensures |metas| == 0 ==> sent == [] && err == Some(NoMetadata)
    ensures |metas| > 0 && metas[0].source.None? ==> sent == [] && err == Some(MissingSource)
    ensures |metas| > 0 && metas[0].source.Some? && batchSize == 0 ==> sent == [] && err == Some(ZeroBatchSize)
    ensures |metas| > 0 && metas[0].source.Some? && batchSize < 0 ==> sent == [] && err == None
    ensures |metas| > 0 && metas[0].source.Some? && batchSize > 0 ==>
      var run := Plan(|chunks|, |metas|, batchSize, failAt);
      err == run.error && sent == Upserts(metas[0].source.value, EmbeddingService.EmbedChunks(embed, chunks), metas, run.spans)
  {
    var embeddings := EmbeddingService.EmbedChunks(embed, chunks);
    if |metas| == 0 {
      return [], Some(NoMetadata);
    }
    if metas[0].source.None? {
      return [], Some(MissingSource);
    }
    var filename := metas[0].source.value;
    if batchSize == 0 {
      return [], Some(ZeroBatchSize);
    }
    if batchSize < 0 {
      return [], None;
    }
    sent, err := UpsertAll(filename, embeddings, metas, batchSize, failAt);
  }

  /** With a `source` in the first dict, a dict for every chunk and no rejected batch, the
      call raises nothing and afterwards the index holds every chunk under
      `"<source>_<i>"`, with its own embedding and dict, and every other id as before. */
  lemma FullUpsert(entries: map<string, Entry>, embed: string -> Vector, chunks: seq<string>,
                   metas: seq<MetaDict>, batchSize: int, sent: seq<Request>)
    requires |metas| >= |chunks| && |metas| > 0 && metas[0].source.Some? && batchSize > 0
    requires sent == Upserts(metas[0].source.value, EmbeddingService.EmbedChunks(embed, chunks), metas,
                             Plan(|chunks|, |metas|, batchSize, None).spans)
    ensures Plan(|chunks|, |metas|, batchSize, None).error == None
    ensures var after := ApplyAll(entries, sent);
      var f := metas[0].source.value;
      && (forall i :: 0 <= i < |chunks| ==> VectorId(f, i) in after && after[VectorId(f, i)] == Entry(embed(chunks[i]), metas[i]))
      && (forall key :: key !in IdRange(f, 0, |chunks|) ==>
            (key in after <==> key in entries) && (key in entries ==> after[key] == entries[key]))
  {
    RunOutcome(|chunks|, |metas|, batchSize, None);
    EmbeddingService.UpsertEffect(entries, embed, chunks, metas, batchSize, None, sent);
  }
}
