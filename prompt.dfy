/** `build_prompt` (model.py): the retrieved chunk texts, joined by blank lines, framed by
    a fixed instruction, the question and the answer cue. */
module Prompt {
  import opened Common
  import opened Answers

  const Instruction: string := "Use the following context to answer the user's question.\n\n"
  const ContextLabel: string := "Context:\n"
  const QuestionLabel: string := "\n\nQuestion: "
  const AnswerCue: string := "\n\nAnswer:"
  const Paragraph: string := "\n\n"

  /** The chunk texts, in order. */
  function ChunkTexts(chunks: seq<Answer>): (ts: seq<string>)
    ensures |ts| == |chunks| && forall i :: 0 <= i < |chunks| ==> ts[i] == chunks[i].text
  {
    seq(|chunks|, i requires 0 <= i < |chunks| => chunks[i].text)
  }

  /** The context: the texts joined by `"\n\n"`. */
  function Context(chunks: seq<Answer>): string
  {
    Join(ChunkTexts(chunks), Paragraph)
  }

  /** `build_prompt`: the fixed frame around the context and the question. */
  function BuildPrompt(chunks: seq<Answer>, userQuery: string): (p: string)
    ensures |p| == |Instruction + ContextLabel| + |Context(chunks)| + |QuestionLabel| + |userQuery| + |AnswerCue|
  {
    Instruction + ContextLabel + Context(chunks) + QuestionLabel + userQuery + AnswerCue
  }

  /** Where text i begins inside a join: after texts `0..i-1` and their separators. */
  function JoinOffset(xs: seq<string>, sep: string, i: nat): nat
    requires i <= |xs|
  {
    if i == 0 then 0 else |Join(xs[..i], sep)| + |sep|
  }

  /** Joining a prefix of the parts gives a prefix of the joined string. */
  lemma {:induction false} JoinPrefix(xs: seq<string>, sep: string, k: nat)
    requires 0 < k <= |xs|
    ensures |Join(xs[..k], sep)| <= |Join(xs, sep)|
    ensures Join(xs, sep)[..|Join(xs[..k], sep)|] == Join(xs[..k], sep)
    decreases |xs|
  {
    if k < |xs| {
      var init := xs[..|xs| - 1];
      assert init[..k] == xs[..k];
      JoinPrefix(init, sep, k);
      var p := Join(init, sep);
      assert Join(xs, sep) == p + sep + xs[|xs| - 1];
      assert (p + sep + xs[|xs| - 1])[..|Join(xs[..k], sep)|] == p[..|Join(xs[..k], sep)|];
    } else {
      assert xs[..k] == xs;
    }
  }

  /** Part i occurs in the join at its offset. */
  lemma JoinAt(xs: seq<string>, sep: string, i: nat)
    requires i < |xs|
    ensures JoinOffset(xs, sep, i) + |xs[i]| <= |Join(xs, sep)|
    ensures Join(xs, sep)[JoinOffset(xs, sep, i)..JoinOffset(xs, sep, i) + |xs[i]|] == xs[i]
  {
    var upTo := xs[..i + 1];
    JoinPrefix(xs, sep, i + 1);
    var o := JoinOffset(xs, sep, i);
    var whole := Join(xs, sep);
    var pre := Join(upTo, sep);
    if i == 0 {
      assert pre == xs[0];
    } else {
      assert upTo == xs[..i] + [xs[i]];
      assert upTo[..i] == xs[..i];
      JoinSnoc(xs[..i], xs[i], sep);
      assert pre == Join(xs[..i], sep) + sep + xs[i];
    }
    assert |pre| == o + |xs[i]|;
    assert whole[o..o + |xs[i]|] == pre[o..o + |xs[i]|];
  }

  /** Later parts begin after earlier parts end. */
  lemma JoinOrdered(xs: seq<string>, sep: string, i: nat, j: nat)
    requires i < j < |xs|
    ensures JoinOffset(xs, sep, i) + |xs[i]| + |sep| <= JoinOffset(xs, sep, j)
  {
    JoinPrefix(xs[..j], sep, i + 1);
    assert xs[..j][..i + 1] == xs[..i + 1];
    if i > 0 {
      assert xs[..i + 1] == xs[..i] + [xs[i]];
      JoinSnoc(xs[..i], xs[i], sep);
    }
  }

  /** The prompt starts with the instruction and the context label, ends with the
      question and the answer cue, and the context sits in between. */
  lemma PromptFrame(chunks: seq<Answer>, userQuery: string)
    ensures var p := BuildPrompt(chunks, userQuery);
      var head := |Instruction + ContextLabel|;
      var tail := QuestionLabel + userQuery + AnswerCue;
      && |p| == head + |Context(chunks)| + |tail|
      && p[..head] == Instruction + ContextLabel
      && p[head..head + |Context(chunks)|] == Context(chunks)
      && p[|p| - |tail|..] == tail
      && p[|p| - |AnswerCue|..] == AnswerCue
      && (chunks == [] ==> p == Instruction + ContextLabel + QuestionLabel + userQuery + AnswerCue)
  {
    var p := BuildPrompt(chunks, userQuery);
    var tail := QuestionLabel + userQuery + AnswerCue;
    assert p == (Instruction + ContextLabel) + Context(chunks) + tail;
  }

  /** Every chunk text occurs in the prompt, in input order, before the question. */
  lemma ChunkInPrompt(chunks: seq<Answer>, userQuery: string, i: nat)
    requires i < |chunks|
    ensures var p := BuildPrompt(chunks, userQuery);
      var o := |Instruction + ContextLabel| + JoinOffset(ChunkTexts(chunks), Paragraph, i);
      && o + |chunks[i].text| <= |p| - |QuestionLabel + userQuery + AnswerCue|
      && p[o..o + |chunks[i].text|] == chunks[i].text
  {
    var ts := ChunkTexts(chunks);
    JoinAt(ts, Paragraph, i);
    PromptFrame(chunks, userQuery);
    var p := BuildPrompt(chunks, userQuery);
    var head := |Instruction + ContextLabel|;
    var o := JoinOffset(ts, Paragraph, i);
    SliceOfSlice(p, head, head + |Context(chunks)|, o, o + |ts[i]|);
  }
}
