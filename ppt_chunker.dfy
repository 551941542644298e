/** The presentation loader: per slide, the trimmed texts of its text-bearing shapes one per
    line, then one `[IMAGE_TEXT]` block per picture the OCR reads, cut into overlapping
    windows that are trimmed before they are kept. The presentation library's parse of the
    file and the OCR engine's answers are inputs. */
module PptChunker {
  import opened Common
  import opened Records
  import opened Ocr
  import opened Paths
  import opened SlidingWindow

  /** A shape: its `text` attribute if it has one, and, for a picture, the OCR of its image
      (`Raised` when reading the blob or recognising it fails). */
  datatype Shape = Shape(text: Option<string>, picture: Option<Recognition>)

  datatype PptSlide = PptSlide(shapes: seq<Shape>)

  datatype PptDoc = Unopenable | Deck(slides: seq<PptSlide>)

  /** The loader's outcome. With a non-positive stride the window loop on a non-blank slide
      never advances past the end of the text, so the call does not return. */
  datatype PptOutcome = Diverges | Returned(chunks: seq<string>, metadata: seq<ChunkMeta>)

  /** The trimmed non-empty shape texts, in shape order. */
  function ShapeTexts(shapes: seq<Shape>): seq<string>
  {
    if shapes == [] then []
    else
      var last := shapes[|shapes| - 1];
      ShapeTexts(shapes[..|shapes| - 1])
      + (if last.text.Some? && !IsBlank(last.text.value) then [Strip(last.text.value)] else [])
  }

  /** The image blocks of the slide's pictures, in shape order. */
  function PictureTexts(shapes: seq<Shape>): seq<string>
  {
    if shapes == [] then []
    else
      var last := shapes[|shapes| - 1];
      PictureTexts(shapes[..|shapes| - 1])
      + (match last.picture
         case None => []
         case Some(r) => match Block(r) case Some(b) => [b] case None => [])
  }

  /** A slide once read: `full_text` and the number of image blocks. */
  function SlideContent(s: PptSlide): Content
  {
    var blocks := PictureTexts(s.shapes);
    Content(WithImageText(Join(ShapeTexts(s.shapes), "\n"), blocks), |blocks|)
  }

  /** The records of slide index `k` (0-based): none for a blank slide, `None` when the
      window loop does not terminate. */
  function SlideOutcome(source: string, k: nat, c: Content, size: int, stride: int): Option<seq<ChunkMeta>>
  {
    if IsBlank(c.text) then Some([])
    else if stride <= 0 then None
    else Some(Tagged(source, PptChunks(c.text, size, stride), Slide(k + 1, c.imageCount > 0, c.imageCount)))
  }

  /** The slide loop: the records in slide order, or `None` from the first slide whose
      window loop does not terminate. */
  function DeckOutcome(source: string, ss: seq<PptSlide>, size: int, stride: int): Option<seq<ChunkMeta>>
  {
    if ss == [] then Some([])
    else
      var init := DeckOutcome(source, ss[..|ss| - 1], size, stride);
      var last := SlideOutcome(source, |ss| - 1, SlideContent(ss[|ss| - 1]), size, stride);
      if init.None? || last.None? then None else Some(init.value + last.value)
  }

  /** What `load_and_chunk_ppt` does: a missing or unreadable file gives two empty lists. */
  function PptResult(path: string, present: bool, doc: PptDoc, size: int, overlap: int): PptOutcome
  {
    if !present || doc.Unopenable? then Returned([], [])
    else
      match DeckOutcome(Basename(path), doc.slides, size, size - overlap)
      case None => Diverges
      case Some(ms) => Returned(Texts(ms), ms)
  }

  /** The text loop over the shapes of a slide. */
  method CollectShapeTexts(shapes: seq<Shape>) returns (parts: seq<string>)
    ensures parts == ShapeTexts(shapes)
  {
    parts := [];
    var i := 0;
    while i < |shapes|
      invariant 0 <= i <= |shapes|
      invariant parts == ShapeTexts(shapes[..i])
    {
      assert shapes[..i + 1][..i] == shapes[..i];
      if shapes[i].text.Some? {
        var stripped := Strip(shapes[i].text.value);
        StripEmptyIffBlank(shapes[i].text.value);
        if stripped != [] {
          parts := parts + [stripped];
        }
      }
      i := i + 1;
    }
    assert shapes[..i] == shapes;
  }

  /** The picture loop over the shapes of a slide. */
  method CollectPictureTexts(shapes: seq<Shape>) returns (texts: seq<string>)
    ensures texts == PictureTexts(shapes)
  {
    texts := [];
    var i := 0;
    while i < |shapes|
      invariant 0 <= i <= |shapes|
      invariant texts == PictureTexts(shapes[..i])
    {
      assert shapes[..i + 1][..i] == shapes[..i];
      if shapes[i].picture.Some? {
        var block := ImageBlock(shapes[i].picture.value);
        if block.Some? {
          texts := texts + [block.value];
        }
      }
      i := i + 1;
    }
    assert shapes[..i] == shapes;
  }

  /** Steps 1 to 3 of the slide loop: shape texts, picture OCR, and their combination. */
  method ReadSlide(s: PptSlide) returns (c: Content)
    ensures c == SlideContent(s)
  {
    var textParts := CollectShapeTexts(s.shapes);
    var imageTexts := CollectPictureTexts(s.shapes);
    var fullText := WithImageText(Join(textParts, "\n"), imageTexts);
    c := Content(fullText, |imageTexts|);
  }

  /** The `while pos < len(full_text)` loop with a positive stride. */
  method SlideWindows(full: string, size: int, stride: int) returns (chunks: seq<string>)
    requires stride > 0
    ensures chunks == PptChunks(full, size, stride)
  {
    chunks := [];
    var pos: nat := 0;
    ghost var all := Trimmed(Windows(full, 0, size, stride));
    while pos < |full|
      invariant chunks + Trimmed(Windows(full, pos, size, stride)) == all
      decreases |full| - pos
    {
      chunks := SlideWindow(full, pos, size, stride, chunks);
      pos := pos + stride;
    }
  }

  /** One pass of the window loop: the window at `pos`, trimmed, is kept when non-empty. */
  method SlideWindow(full: string, pos: nat, size: int, stride: int, chunks: seq<string>) returns (next: seq<string>)
    requires stride > 0 && pos < |full|
    ensures next + Trimmed(Windows(full, pos + stride, size, stride)) == chunks + Trimmed(Windows(full, pos, size, stride))
  {
    var chunk := Strip(PySlice(full, pos, pos + size));
    // `if chunk: chunks.append(chunk)`
    var kept: seq<string> := if chunk != [] then [chunk] else [];
    assert chunk == Strip(Window(full, pos, size));
    TrimmedStep(full, pos, size, stride, chunks, kept);
    next := chunks + kept;
  }

  /** Step 4 of the slide loop: skip a blank slide, else cut it into windows. */
  method ChunkSlide(filename: string, k: nat, c: Content, size: int, stride: int)
    returns (r: Option<seq<ChunkMeta>>)
    ensures r == SlideOutcome(filename, k, c, size, stride)
  {
    StripEmptyIffBlank(c.text);
    if Strip(c.text) == [] {
      return Some([]);
    }
    if stride <= 0 {
      // `pos += chars_per_chunk - overlap` never reaches `len(full_text)`
      return None;
    }
    var slideChunks := SlideWindows(c.text, size, stride);
    return Some(Tagged(filename, slideChunks, Slide(k + 1, c.imageCount > 0, c.imageCount)));
  }

  /** `load_and_chunk_ppt`. */
  method LoadAndChunkPpt(path: string, present: bool, doc: PptDoc, charsPerChunk: int, overlap: int)
    returns (r: PptOutcome)
    ensures r == PptResult(path, present, doc, charsPerChunk, overlap)
  {
    if !present || doc.Unopenable? {
      return Returned([], []);
    }
    r := ChunkSlides(Basename(path), doc.slides, charsPerChunk, charsPerChunk - overlap);
  }

  /** The `for slide_num, slide in enumerate(prs.slides)` loop, with the stride
      `chars_per_chunk - overlap` of its window loops. */
  method ChunkSlides(filename: string, slides: seq<PptSlide>, charsPerChunk: int, stride: int)
    returns (r: PptOutcome)
    ensures r == match DeckOutcome(filename, slides, charsPerChunk, stride)
      case None => Diverges
      case Some(ms) => Returned(Texts(ms), ms)
  {
    var chunks: seq<string> := [];
    var metadata: seq<ChunkMeta> := [];
    var k := 0;
    while k < |slides|
      invariant 0 <= k <= |slides|
      invariant DeckOutcome(filename, slides[..k], charsPerChunk, stride) == Some(metadata)
      invariant chunks == Texts(metadata)
    {
      var c := ReadSlide(slides[k]);
      var slideMetas := ChunkSlide(filename, k, c, charsPerChunk, stride);
      assert slides[..k + 1][..k] == slides[..k];
      if slideMetas.None? {
        DivergencePersists(filename, slides[..k + 1], slides, charsPerChunk, stride);
        return Diverges;
      }
      TextsAppend(metadata, slideMetas.value);
      chunks := chunks + Texts(slideMetas.value);
      metadata := metadata + slideMetas.value;
      k := k + 1;
    }
    assert slides[..k] == slides;
    return Returned(chunks, metadata);
  }

  /** Once the slide loop diverges, later slides do not matter. */
  lemma {:induction false} DivergencePersists(source: string, pre: seq<PptSlide>, ss: seq<PptSlide>, size: int, stride: int)
    requires pre <= ss && DeckOutcome(source, pre, size, stride).None?
    ensures DeckOutcome(source, ss, size, stride).None?
    decreases |ss|
  {
    if |pre| < |ss| {
      assert pre <= ss[..|ss| - 1];
      DivergencePersists(source, pre, ss[..|ss| - 1], size, stride);
    } else {
      assert pre == ss;
    }
  }

  /** The loop diverges only with a stride that is not positive, at a slide that has text
      once trimmed... */
  lemma {:induction false} DivergingSlide(source: string, ss: seq<PptSlide>, size: int, stride: int) returns (k: nat)
    requires DeckOutcome(source, ss, size, stride).None?
    ensures stride <= 0 && k < |ss| && !IsBlank(SlideContent(ss[k]).text)
  {
    var n := |ss| - 1;
    if DeckOutcome(source, ss[..n], size, stride).None? {
      k := DivergingSlide(source, ss[..n], size, stride);
      assert ss[..n][k] == ss[k];
    } else {
      k := n;
    }
  }

  /** ... and any such slide makes it diverge. */
  lemma DivergesAt(source: string, ss: seq<PptSlide>, size: int, stride: int, k: nat)
    requires stride <= 0 && k < |ss| && !IsBlank(SlideContent(ss[k]).text)
    ensures DeckOutcome(source, ss, size, stride).None?
  {
    assert ss[..k + 1][..k] == ss[..k];
    DivergencePersists(source, ss[..k + 1], ss, size, stride);
  }

  /** Where record `j` comes from: one of the records of some slide. */
  lemma {:induction false} RecordOrigin(source: string, ss: seq<PptSlide>, size: int, stride: int, j: nat)
    returns (k: nat)
    requires DeckOutcome(source, ss, size, stride).Some?
    requires j < |DeckOutcome(source, ss, size, stride).value|
    ensures k < |ss| && SlideOutcome(source, k, SlideContent(ss[k]), size, stride).Some?
    ensures DeckOutcome(source, ss, size, stride).value[j] in SlideOutcome(source, k, SlideContent(ss[k]), size, stride).value
  {
    var init := DeckOutcome(source, ss[..|ss| - 1], size, stride);
    var last := SlideOutcome(source, |ss| - 1, SlideContent(ss[|ss| - 1]), size, stride);
    if j < |init.value| {
      k := RecordOrigin(source, ss[..|ss| - 1], size, stride, j);
      assert ss[..|ss| - 1][k] == ss[k];
    } else {
      k := |ss| - 1;
      assert DeckOutcome(source, ss, size, stride).value[j] == last.value[j - |init.value|];
    }
  }

  /** A record of slide index `k` names that slide. */
  lemma SlideRecordShape(source: string, k: nat, c: Content, size: int, stride: int, m: ChunkMeta)
    requires SlideOutcome(source, k, c, size, stride).Some?
    requires m in SlideOutcome(source, k, c, size, stride).value
    ensures stride > 0 && m.source == source && m.loc == Slide(k + 1, c.imageCount > 0, c.imageCount)
    ensures m.text in PptChunks(c.text, size, stride)
  {
    var ms := SlideOutcome(source, k, c, size, stride).value;
    var i :| 0 <= i < |ms| && ms[i] == m;
    assert Texts(ms)[i] == m.text;
  }

  /** Record `j` sits on slide number `k + 1`, where `k` is the slide it came from. */
  lemma RecordSlide(source: string, ss: seq<PptSlide>, size: int, stride: int, j: nat) returns (k: nat)
    requires DeckOutcome(source, ss, size, stride).Some?
    requires j < |DeckOutcome(source, ss, size, stride).value|
    ensures var m := DeckOutcome(source, ss, size, stride).value[j];
      k < |ss| && stride > 0 && m.source == source
      && m.loc == Slide(k + 1, SlideContent(ss[k]).imageCount > 0, SlideContent(ss[k]).imageCount)
      && m.text in PptChunks(SlideContent(ss[k]).text, size, stride)
  {
    k := RecordOrigin(source, ss, size, stride, j);
    SlideRecordShape(source, k, SlideContent(ss[k]), size, stride, DeckOutcome(source, ss, size, stride).value[j]);
  }

  /** Records come in slide order. */
  lemma {:induction false} SlidesAscending(source: string, ss: seq<PptSlide>, size: int, stride: int, a: nat, b: nat)
    requires DeckOutcome(source, ss, size, stride).Some?
    requires a <= b < |DeckOutcome(source, ss, size, stride).value|
    ensures var ms := DeckOutcome(source, ss, size, stride).value;
      ms[a].loc.Slide? && ms[b].loc.Slide? && ms[a].loc.slide <= ms[b].loc.slide
  {
    var init := DeckOutcome(source, ss[..|ss| - 1], size, stride);
    var ms := DeckOutcome(source, ss, size, stride).value;
    assert ms == init.value + SlideOutcome(source, |ss| - 1, SlideContent(ss[|ss| - 1]), size, stride).value;
    var ka := RecordSlide(source, ss, size, stride, a);
    var kb := RecordSlide(source, ss, size, stride, b);
    if b < |init.value| {
      SlidesAscending(source, ss[..|ss| - 1], size, stride, a, b);
      assert ms[a] == init.value[a] && ms[b] == init.value[b];
    } else if a < |init.value| {
      var k := RecordSlide(source, ss[..|ss| - 1], size, stride, a);
      assert ms[a] == init.value[a];
    } else {
      assert kb == |ss| - 1 || kb < |ss| - 1;
    }
  }

  /** Every record the loader returns names the file and a slide in range, and holds a
      trimmed non-empty chunk of at most `chars_per_chunk` characters taken from that
      slide's text; the image flags count that slide's blocks. */
  lemma PptRecordShape(path: string, ss: seq<PptSlide>, size: nat, overlap: int, j: nat)
    requires PptResult(path, true, Deck(ss), size, overlap).Returned?
    requires j < |PptResult(path, true, Deck(ss), size, overlap).metadata|
    ensures var r := PptResult(path, true, Deck(ss), size, overlap);
      var m := r.metadata[j];
      r.chunks[j] == m.text
      && m.source == Basename(path) && m.loc.Slide? && 1 <= m.loc.slide <= |ss|
      && m.text != [] && Strip(m.text) == m.text && |m.text| <= size
      && size - overlap > 0
      && m.text in PptChunks(SlideContent(ss[m.loc.slide - 1]).text, size, size - overlap)
      && (m.loc.hasImages <==> m.loc.imageCount > 0)
      && m.loc.imageCount == |PictureTexts(ss[m.loc.slide - 1].shapes)|
  {
    var ms := DeckOutcome(Basename(path), ss, size, size - overlap).value;
    assert Texts(ms)[j] == ms[j].text;
    var k := RecordSlide(Basename(path), ss, size, size - overlap, j);
    PptChunksBounded(SlideContent(ss[k]).text, size, size - overlap, ms[j].text);
  }

  /** A slide's chunks are the PDF loader's chunks of the same text, each trimmed: the two
      loaders cut the same windows and differ only in trimming what they keep. */
  lemma SameWindowsAsPdf(text: string, size: int, stride: nat)
    requires stride > 0
    ensures |PptChunks(text, size, stride)| == |PdfChunks(text, size, stride)|
    ensures forall j :: 0 <= j < |PptChunks(text, size, stride)| ==>
      PptChunks(text, size, stride)[j] == Strip(PdfChunks(text, size, stride)[j])
  {
    TrimmedIsStrippedNonBlank(Windows(text, 0, size, stride));
  }

  /** Shape texts are non-empty exactly when some shape has a text that is not blank. */
  lemma {:induction false} ShapeTextsNonEmpty(shapes: seq<Shape>)
    ensures ShapeTexts(shapes) != [] <==>
      exists i :: 0 <= i < |shapes| && shapes[i].text.Some? && !IsBlank(shapes[i].text.value)
  {
    if shapes != [] {
      var init := shapes[..|shapes| - 1];
      ShapeTextsNonEmpty(init);
      if i :| 0 <= i < |init| && init[i].text.Some? && !IsBlank(init[i].text.value) {
        assert shapes[i] == init[i];
      }
      if i :| 0 <= i < |shapes| && shapes[i].text.Some? && !IsBlank(shapes[i].text.value) {
        if i < |init| {
          assert init[i] == shapes[i];
        }
      }
    }
  }

  lemma {:induction false} ShapeTextsTrimmed(shapes: seq<Shape>)
    ensures forall t :: t in ShapeTexts(shapes) ==> t != [] && !IsSpace(t[0])
  {
    if shapes != [] {
      ShapeTextsTrimmed(shapes[..|shapes| - 1]);
      var last := shapes[|shapes| - 1];
      if last.text.Some? {
        StripEmptyIffBlank(last.text.value);
      }
    }
  }

  /** Every picture block starts with the marker. */
  lemma {:induction false} BlocksMarked(shapes: seq<Shape>)
    ensures forall b :: b in PictureTexts(shapes) ==> |b| >= |ImageTextMarker| && b[..|ImageTextMarker|] == ImageTextMarker
  {
    if shapes != [] {
      BlocksMarked(shapes[..|shapes| - 1]);
      var last := shapes[|shapes| - 1];
      if last.picture.Some? {
        BlockShape(last.picture.value);
      }
    }
  }

  /** A slide with a shape whose text is not blank, or with a picture whose OCR produced a
      block, is not blank. */
  lemma SlideNotBlank(s: PptSlide)
    requires (exists i :: 0 <= i < |s.shapes| && s.shapes[i].text.Some? && !IsBlank(s.shapes[i].text.value))
      || PictureTexts(s.shapes) != []
    ensures !IsBlank(SlideContent(s).text)
  {
    var parts := ShapeTexts(s.shapes);
    var blocks := PictureTexts(s.shapes);
    var shapeText := Join(parts, "\n");
    var full := SlideContent(s).text;
    ShapeTextsNonEmpty(s.shapes);
    WithImageTextPrefix(shapeText, blocks);
    if parts != [] {
      JoinStartsWithFirst(parts, "\n");
      ShapeTextsTrimmed(s.shapes);
      assert parts[0] in parts;
      assert shapeText[..|parts[0]|][0] == parts[0][0];
      assert full[..|shapeText|][0] == shapeText[0];
      assert !IsSpace(full[0]);
    } else {
      var joined := Join(blocks, "\n");
      assert full == shapeText + "\n\n" + joined;
      JoinStartsWithFirst(blocks, "\n");
      BlocksMarked(s.shapes);
      assert blocks[0] in blocks;
      assert blocks[0][..|ImageTextMarker|][0] == '[';
      assert joined[..|blocks[0]|][0] == blocks[0][0];
      assert full[|shapeText| + 2] == joined[0];
    }
  }

  /** Such a slide is indexed when `0 <= overlap < chars_per_chunk`: it yields records. */
  lemma ContentIsIndexed(source: string, k: nat, s: PptSlide, size: nat, overlap: int)
    requires 0 <= overlap < size
    requires (exists i :: 0 <= i < |s.shapes| && s.shapes[i].text.Some? && !IsBlank(s.shapes[i].text.value))
      || PictureTexts(s.shapes) != []
    ensures SlideOutcome(source, k, SlideContent(s), size, size - overlap).Some?
    ensures SlideOutcome(source, k, SlideContent(s), size, size - overlap).value != []
  {
    var c := SlideContent(s);
    SlideNotBlank(s);
    StripEmptyIffBlank(c.text);
    NonBlankTextHasChunk(c.text, size, size - overlap);
    SameWindowsAsPdf(c.text, size, size - overlap);
  }
}
