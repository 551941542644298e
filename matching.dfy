/** `query_pinecone` (matching.py): embed the question, query the index for `top_k`
    matches with their metadata, and shape each match into an answer dict. */
module Matching {
  import opened Common
  import opened VectorStore
  import opened Answers

  /** The `top_k` a caller gets when it passes none. */
  const DefaultTopK: int := 3

  /** `query_pinecone`: the query it sends and the answers for the matches the index
      returns to it. */
  method QueryPinecone(embed: string -> Vector, userQuery: string, topK: int, matches: seq<Match>)
    returns (sent: Request, answers: seq<Answer>)
    ensures sent == QueryRequest(embed(userQuery), topK)
    ensures answers == ShapedAnswers(matches)
  {
    var queryEmb := embed(userQuery);
    sent := QueryRequest(queryEmb, topK);
    answers := ShapeMatches(matches);
  }
}
