/** `QueryService.process_query` (app/services/query_service.py): retrieve, refuse an
    empty result with 404, prompt the language model, and return its answer with one
    reference per retrieved chunk. The language model is the function `generate`, which
    either answers or fails with a message. */
module QueryService {
  import opened Common
  import opened VectorStore
  import opened Answers
  import opened Prompt
  import opened Http
  import EmbeddingService

  method ProcessQuery(embed: string -> Vector, question: string, topK: int, matches: seq<Match>,
                      generate: string -> Result<string, string>)
    returns (sent: Request, r: Result<QueryResponse, HttpError>)
    ensures sent == QueryRequest(embed(question), topK)
    ensures matches == [] ==> r == Err(NoDocumentsFound)
    ensures matches != [] ==>
      var chunks := ShapedAnswers(matches);
      match generate(BuildPrompt(chunks, question))
      case Err(msg) => r == Err(HttpError(500, msg))
      case Ok(answer) => r == Ok(QueryResponse(answer, ReferencesOf(chunks)))
  {
    var topChunks;
    sent, topChunks := EmbeddingService.QueryVectors(embed, question, topK, matches);
    if topChunks == [] {
      // The 404 passes the `except HTTPException: raise` clause unchanged.
      return sent, Err(NoDocumentsFound);
    }
    var prompt := BuildPrompt(topChunks, question);
    var answer := generate(prompt);
    if answer.Err? {
      return sent, Err(HttpError(500, answer.error));
    }
    var references := BuildReferences(topChunks);
    return sent, Ok(QueryResponse(answer.value, references));
  }
}
