/** The read path's two shaping steps, shared by `query_vectors`
    (app/services/embedding_service.py), `query_pinecone` (matching.py), `process_query`
    (app/services/query_service.py) and `query_endpoint` (app.py): a match of the index
    becomes an answer dict, and an answer dict becomes an `AnswerChunk` reference. */
module Answers {
  import opened Common
  import opened Records
  import opened VectorStore

  /** The dict built for one match: `text` and `source` fall back to `''`, the locator
      keys to `None`, and the score is the match's own. */
  datatype Answer = Answer(
    text: string,
    source: string,
    page: Option<int>,
    score: real,
    slide: Option<int>,
    sheet: Option<string>,
    startRow: Option<int>,
    endRow: Option<int>)

  function Shape(m: Match): Answer
  {
    var md := m.metadata;
    Answer(md.text.GetOr(""), md.source.GetOr(""), md.page, m.score, md.slide, md.sheet, md.startRow, md.endRow)
  }

  /** One answer per match, in the index's order. */
  function ShapedAnswers(matches: seq<Match>): (answers: seq<Answer>)
    ensures |answers| == |matches|
    ensures forall i :: 0 <= i < |matches| ==> answers[i] == Shape(matches[i])
  {
    seq(|matches|, i requires 0 <= i < |matches| => Shape(matches[i]))
  }

  /** The `for match in matches` loop that appends the answers. */
  method ShapeMatches(matches: seq<Match>) returns (answers: seq<Answer>)
    ensures answers == ShapedAnswers(matches)
  {
    answers := [];
    var i := 0;
    while i < |matches|
      invariant 0 <= i <= |matches|
      invariant answers == ShapedAnswers(matches[..i])
    {
      answers := answers + [Shape(matches[i])];
      i := i + 1;
    }
    assert matches[..i] == matches;
  }

  /** The locator keys of an answer, as the loaders wrote them. */
  function LocatorKeys(loc: Locator): (Option<int>, Option<int>, Option<string>, Option<int>, Option<int>)
  {
    match loc
    case Page(p, _, _) => (Some(p), None, None, None, None)
    case Slide(s, _, _) => (None, Some(s), None, None, None)
    case Sheet(name, a, b) => (None, None, Some(name), Some(a), Some(b))
  }

  /** A match whose metadata is the dict a loader wrote for a chunk gives back that
      chunk's text, source and locator, and the match's score. */
  lemma ShapeOfStored(m: Match, cm: ChunkMeta)
    requires m.metadata == ToDict(cm)
    ensures Shape(m).text == cm.text && Shape(m).source == cm.source && Shape(m).score == m.score
    ensures (Shape(m).page, Shape(m).slide, Shape(m).sheet, Shape(m).startRow, Shape(m).endRow) == LocatorKeys(cm.loc)
  {
  }

  /** A missing `text` or `source` reads as `''`; present keys are copied. */
  lemma ShapeDefaults(m: Match)
    ensures m.metadata.text.None? ==> Shape(m).text == ""
    ensures m.metadata.source.None? ==> Shape(m).source == ""
    ensures m.metadata.text.Some? ==> Shape(m).text == m.metadata.text.value
    ensures m.metadata.source.Some? ==> Shape(m).source == m.metadata.source.value
    ensures m.metadata.page.None? ==> Shape(m).page.None?
  {
  }

  /** An answer as a dict read with `.get`: a key is either present or not. */
  datatype AnswerDict = AnswerDict(
    text: Option<string>,
    source: Option<string>,
    score: Option<real>,
    page: Option<int>,
    slide: Option<int>,
    sheet: Option<string>,
    startRow: Option<int>,
    endRow: Option<int>)

  /** The dict an `Answer` is: all eight keys are written, so `text`, `source` and
      `score` are always present. */
  function AsDict(a: Answer): AnswerDict
  {
    AnswerDict(Some(a.text), Some(a.source), Some(a.score), a.page, a.slide, a.sheet, a.startRow, a.endRow)
  }

  /** The `AnswerChunk` model of a reference. */
  datatype Reference = Reference(
    text: string,
    source: string,
    score: real,
    page: Option<int>,
    slide: Option<int>,
    sheet: Option<string>,
    startRow: Option<int>,
    endRow: Option<int>)

  /** `AnswerChunk(text=chunk.get("text", ""), source=chunk.get("source", "N/A"),
      score=chunk.get("score", 0.0), ...)`. */
  function ToReference(d: AnswerDict): (r: Reference)
    ensures d.source.None? ==> r.source == "N/A"
    ensures d.score.None? ==> r.score == 0.0
    ensures d.text.None? ==> r.text == ""
  {
    Reference(d.text.GetOr(""), d.source.GetOr("N/A"), d.score.GetOr(0.0), d.page, d.slide, d.sheet, d.startRow, d.endRow)
  }

  /** One reference per answer, in order. */
  function ReferencesOf(chunks: seq<Answer>): (refs: seq<Reference>)
    ensures |refs| == |chunks|
    ensures forall i :: 0 <= i < |chunks| ==> refs[i] == ToReference(AsDict(chunks[i]))
  {
    seq(|chunks|, i requires 0 <= i < |chunks| => ToReference(AsDict(chunks[i])))
  }

  /** The `for chunk in top_chunks` loop that appends the references. */
  method BuildReferences(chunks: seq<Answer>) returns (refs: seq<Reference>)
    ensures refs == ReferencesOf(chunks)
  {
    refs := [];
    var i := 0;
    while i < |chunks|
      invariant 0 <= i <= |chunks|
      invariant refs == ReferencesOf(chunks[..i])
    {
      refs := refs + [ToReference(AsDict(chunks[i]))];
      i := i + 1;
    }
    assert chunks[..i] == chunks;
  }

  /** The reference of a shaped answer copies every field: the `"N/A"` and `0.0`
      fallbacks never apply to what the shaping step produces. */
  lemma ReferenceCopiesAnswer(a: Answer)
    ensures ToReference(AsDict(a)) == Reference(a.text, a.source, a.score, a.page, a.slide, a.sheet, a.startRow, a.endRow)
  {
  }

  /** End to end: the reference for a match of a stored chunk reports the chunk's text,
      source and locator, and the match's score. */
  lemma ReferenceOfStored(m: Match, cm: ChunkMeta)
    requires m.metadata == ToDict(cm)
    ensures var r := ToReference(AsDict(Shape(m)));
      r.text == cm.text && r.source == cm.source && r.score == m.score
      && (r.page, r.slide, r.sheet, r.startRow, r.endRow) == LocatorKeys(cm.loc)
  {
    ShapeOfStored(m, cm);
  }

  /** The references of a query follow its matches one for one: the score is the match's,
      a missing `text` or `source` reads as `''` (never the `"N/A"` fallback), and the
      locator keys are the match metadata's. */
  lemma ReferencesFollowMatches(matches: seq<Match>, i: nat)
    requires i < |matches|
    ensures var refs := ReferencesOf(ShapedAnswers(matches));
      var md := matches[i].metadata;
      && |refs| == |matches|
      && refs[i].score == matches[i].score
      && refs[i].text == md.text.GetOr("") && refs[i].source == md.source.GetOr("")
      && (refs[i].page, refs[i].slide, refs[i].sheet, refs[i].startRow, refs[i].endRow)
         == (md.page, md.slide, md.sheet, md.startRow, md.endRow)
  {
    ReferenceCopiesAnswer(ShapedAnswers(matches)[i]);
  }

  /** What a query endpoint answers: the generated text and the references. */
  datatype QueryResponse = QueryResponse(answer: string, references: seq<Reference>)
}
