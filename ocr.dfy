/** Turning one image's OCR output into an `[IMAGE_TEXT]: ...` block: recognised lines are
    kept when their confidence exceeds 0.3 and their trimmed text is non-empty. Both
    result shapes the OCR engine returns are handled: the dict shape (`rec_texts` and
    `rec_scores`, zipped) and the list shape (`[box, (text, confidence)]` per line). */
module Ocr {
  import opened Common

  const ConfidenceThreshold: real := 0.3
  const ImageTextMarker: string := "[IMAGE_TEXT]: "

  /** One element of the list shape: a usable `[box, (text, confidence)]` entry, or an entry
      the loop passes over (None, empty, or shorter than two items). */
  datatype ListLine = Skipped | Line(text: string, confidence: real)

  /** The first element of what the OCR engine returns for one image. */
  datatype PageResult =
    | DictResult(recTexts: seq<string>, recScores: seq<real>)
    | ListResult(lines: seq<ListLine>)
    | OtherResult

  /** Recognising one image: the decoding or the engine raised, or the engine returned its
      list of per-page results (a `None` result is the empty list). */
  datatype Recognition = Raised | Recognized(pages: seq<PageResult>)

  /** The keep test on one recognised line: above the threshold, and `text.strip()` is
      not empty. */
  predicate Keeps(text: string, confidence: real) {
    confidence > ConfidenceThreshold && !IsBlank(text)
  }

  /** Python `zip(texts, scores)`: pairs up to the shorter of the two. */
  function Zip(texts: seq<string>, scores: seq<real>): (ps: seq<(string, real)>)
    ensures |ps| == if |texts| <= |scores| then |texts| else |scores|
    ensures forall j :: 0 <= j < |ps| ==> ps[j] == (texts[j], scores[j])
  {
    var n := if |texts| <= |scores| then |texts| else |scores|;
    seq(n, j requires 0 <= j < n => (texts[j], scores[j]))
  }

  /** The (text, confidence) pairs of the usable entries of the list shape, in order. */
  function ListPairs(lines: seq<ListLine>): seq<(string, real)>
  {
    if lines == [] then []
    else
      var last := lines[|lines| - 1];
      ListPairs(lines[..|lines| - 1]) + (if last.Line? then [(last.text, last.confidence)] else [])
  }

  /** The kept lines of a sequence of recognised pairs: trimmed, in recognition order. */
  function Kept(pairs: seq<(string, real)>): seq<string>
  {
    if pairs == [] then []
    else
      var last := pairs[|pairs| - 1];
      Kept(pairs[..|pairs| - 1]) + (if Keeps(last.0, last.1) then [Strip(last.0)] else [])
  }

  /** The kept lines of one image's recognition result. */
  function Lines(r: Recognition): seq<string>
  {
    match r
    case Raised => []
    case Recognized(pages) =>
      if pages == [] then []
      else
        match pages[0]
        case DictResult(texts, scores) => Kept(Zip(texts, scores))
        case ListResult(lines) => Kept(ListPairs(lines))
        case OtherResult => []
  }

  /** The block one image contributes, if any. */
  function Block(r: Recognition): Option<string>
  {
    var lines := Lines(r);
    if lines == [] then None else Some(ImageTextMarker + Join(lines, " "))
  }

  lemma KeptSnoc(pairs: seq<(string, real)>, p: (string, real))
    ensures Kept(pairs + [p]) == Kept(pairs) + (if Keeps(p.0, p.1) then [Strip(p.0)] else [])
  {
    assert (pairs + [p])[..|pairs|] == pairs;
  }

  lemma ListPairsSnoc(lines: seq<ListLine>, line: ListLine)
    ensures ListPairs(lines + [line])
      == ListPairs(lines) + (if line.Line? then [(line.text, line.confidence)] else [])
  {
    assert (lines + [line])[..|lines|] == lines;
  }

  /** Filters the dict shape: one pass over `zip(rec_texts, rec_scores)`. */
  method KeepZipped(texts: seq<string>, scores: seq<real>) returns (extracted: seq<string>)
    ensures extracted == Kept(Zip(texts, scores))
  {
    var pairs := Zip(texts, scores);
    extracted := [];
    var i := 0;
    while i < |pairs|
      invariant 0 <= i <= |pairs|
      invariant extracted == Kept(pairs[..i])
    {
      var (text, confidence) := pairs[i];
      assert pairs[..i + 1] == pairs[..i] + [pairs[i]];
      KeptSnoc(pairs[..i], pairs[i]);
      var stripped := Strip(text);
      StripEmptyIffBlank(text);
      if confidence > 0.3 && stripped != [] {
        extracted := extracted + [stripped];
      }
      i := i + 1;
    }
    assert pairs[..i] == pairs;
  }

  /** Filters the list shape, passing over entries that are not `[box, (text, confidence)]`. */
  method KeepListed(lines: seq<ListLine>) returns (extracted: seq<string>)
    ensures extracted == Kept(ListPairs(lines))
  {
    extracted := [];
    var i := 0;
    while i < |lines|
      invariant 0 <= i <= |lines|
      invariant extracted == Kept(ListPairs(lines[..i]))
    {
      var line := lines[i];
      assert lines[..i + 1] == lines[..i] + [line];
      ListPairsSnoc(lines[..i], line);
      if line.Line? {
        KeptSnoc(ListPairs(lines[..i]), (line.text, line.confidence));
        var stripped := Strip(line.text);
        StripEmptyIffBlank(line.text);
        if line.confidence > 0.3 && stripped != [] {
          extracted := extracted + [stripped];
        }
      } else {
        assert ListPairs(lines[..i + 1]) == ListPairs(lines[..i]);
      }
      i := i + 1;
    }
    assert lines[..i] == lines;
  }

  /** OCR of one image inside its `try`: a raised exception yields no block; otherwise the
      kept lines, joined by single spaces behind the marker, when there is at least one. */
  method ImageBlock(r: Recognition) returns (block: Option<string>)
    ensures block == Block(r)
  {
    if r.Raised? {
      return None;
    }
    var extracted: seq<string> := [];
    if |r.pages| > 0 {
      match r.pages[0]
      case DictResult(texts, scores) =>
        extracted := KeepZipped(texts, scores);
      case ListResult(lines) =>
        extracted := KeepListed(lines);
      case OtherResult =>
    }
    if extracted != [] {
      block := Some(ImageTextMarker + Join(extracted, " "));
    } else {
      block := None;
    }
  }

  /** Filtering distributes over concatenation: kept lines stay in recognition order. */
  lemma {:induction false} KeptAppend(a: seq<(string, real)>, b: seq<(string, real)>)
    ensures Kept(a + b) == Kept(a) + Kept(b)
  {
    if b != [] {
      var last := b[|b| - 1];
      assert (a + b)[..|a + b| - 1] == a + b[..|b| - 1];
      KeptAppend(a, b[..|b| - 1]);
    } else {
      assert a + b == a;
    }
  }

  /** Where a kept line comes from: a pair that passes the test and trims to it. */
  lemma {:induction false} KeptSource(pairs: seq<(string, real)>, x: string) returns (j: nat)
    requires x in Kept(pairs)
    ensures j < |pairs| && Keeps(pairs[j].0, pairs[j].1) && x == Strip(pairs[j].0)
  {
    var init := pairs[..|pairs| - 1];
    var last := pairs[|pairs| - 1];
    assert pairs == init + [last];
    KeptSnoc(init, last);
    if x in Kept(init) {
      j := KeptSource(init, x);
      assert pairs[j] == init[j];
    } else {
      j := |pairs| - 1;
    }
  }

  /** Every pair that passes the test contributes its trimmed text. */
  lemma {:induction false} KeptContains(pairs: seq<(string, real)>, j: nat)
    requires j < |pairs| && Keeps(pairs[j].0, pairs[j].1)
    ensures Strip(pairs[j].0) in Kept(pairs)
  {
    var init := pairs[..|pairs| - 1];
    var last := pairs[|pairs| - 1];
    assert pairs == init + [last];
    KeptSnoc(init, last);
    if j < |init| {
      assert init[j] == pairs[j];
      KeptContains(init, j);
    }
  }

  /** A line is kept exactly when one recognised pair passes the test and trims to it. */
  lemma KeptMembership(pairs: seq<(string, real)>, x: string)
    ensures x in Kept(pairs) <==>
      exists j :: 0 <= j < |pairs| && Keeps(pairs[j].0, pairs[j].1) && x == Strip(pairs[j].0)
  {
    if x in Kept(pairs) {
      var j := KeptSource(pairs, x);
    }
    if exists j :: 0 <= j < |pairs| && Keeps(pairs[j].0, pairs[j].1) && x == Strip(pairs[j].0) {
      var j :| 0 <= j < |pairs| && Keeps(pairs[j].0, pairs[j].1) && x == Strip(pairs[j].0);
      KeptContains(pairs, j);
    }
  }

  /** Every kept line was recognised with confidence above 0.3, and is trimmed and non-empty. */
  lemma KeptLinesAreClean(pairs: seq<(string, real)>, x: string)
    requires x in Kept(pairs)
    ensures x != [] && Strip(x) == x
    ensures exists j :: 0 <= j < |pairs| && pairs[j].1 > 0.3 && x == Strip(pairs[j].0)
  {
    var j := KeptSource(pairs, x);
    StripEmptyIffBlank(pairs[j].0);
    StripIdempotent(pairs[j].0);
  }

  /** An image yields a block exactly when at least one line is kept; the block starts with
      the marker and then the first kept line. */
  lemma BlockShape(r: Recognition)
    ensures Block(r).Some? <==> Lines(r) != []
    ensures Block(r).Some? ==>
      var b := Block(r).value;
      |ImageTextMarker| + |Lines(r)[0]| <= |b|
      && b[..|ImageTextMarker|] == ImageTextMarker
      && b[|ImageTextMarker|..|ImageTextMarker| + |Lines(r)[0]|] == Lines(r)[0]
  {
    if Lines(r) != [] {
      var j := Join(Lines(r), " ");
      JoinStartsWithFirst(Lines(r), " ");
      var b := ImageTextMarker + j;
      assert b[|ImageTextMarker|..|ImageTextMarker| + |Lines(r)[0]|] == j[..|Lines(r)[0]|];
    }
  }

  /** The dict and the list shape agree when they carry the same pairs. */
  lemma DictAndListAgree(texts: seq<string>, scores: seq<real>, lines: seq<ListLine>)
    requires |texts| == |scores| == |lines|
    requires forall j :: 0 <= j < |lines| ==> lines[j] == Line(texts[j], scores[j])
    ensures Lines(Recognized([DictResult(texts, scores)])) == Lines(Recognized([ListResult(lines)]))
  {
    ListPairsAllUsable(texts, scores, lines);
  }

  lemma {:induction false} ListPairsAllUsable(texts: seq<string>, scores: seq<real>, lines: seq<ListLine>)
    requires |texts| == |scores| == |lines|
    requires forall j :: 0 <= j < |lines| ==> lines[j] == Line(texts[j], scores[j])
    ensures ListPairs(lines) == Zip(texts, scores)
  {
    if lines != [] {
      var n := |lines| - 1;
      ListPairsAllUsable(texts[..n], scores[..n], lines[..n]);
      assert Zip(texts, scores) == Zip(texts[..n], scores[..n]) + [(texts[n], scores[n])];
    }
  }

  /** Recognising "Revenue" at 0.92 and "xx" at 0.10 keeps only "Revenue". */
  lemma RevenueExample()
    ensures Block(Recognized([DictResult(["Revenue", "xx"], [0.92, 0.10])]))
      == Some("[IMAGE_TEXT]: Revenue")
  {
    var pairs := Zip(["Revenue", "xx"], [0.92, 0.10]);
    assert pairs == [("Revenue", 0.92), ("xx", 0.10)];
    assert pairs[..1] == [("Revenue", 0.92)];
    assert [("Revenue", 0.92)][..0] == [];
    StripOfNonSpaceEnds("Revenue");
    KeptSnoc([], ("Revenue", 0.92));
    KeptSnoc([("Revenue", 0.92)], ("xx", 0.10));
    assert [] + [("Revenue", 0.92)] == [("Revenue", 0.92)];
    assert Kept(pairs) == ["Revenue"];
    assert Lines(Recognized([DictResult(["Revenue", "xx"], [0.92, 0.10])])) == ["Revenue"];
    assert Join(["Revenue"], " ") == "Revenue";
    assert ImageTextMarker + "Revenue" == "[IMAGE_TEXT]: Revenue";
  }
}
