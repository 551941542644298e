/** The PDF loader: per page, the native text plus one `[IMAGE_TEXT]` block per image the
    OCR reads, cut into overlapping windows; one metadata record per kept window. The
    PDF library's parse of the file and the OCR engine's answers are inputs. */
module PdfChunker {
  import opened Common
  import opened Records
  import opened Ocr
  import opened Paths
  import opened SlidingWindow

  /** An embedded image: building its pixmap may raise; otherwise it has `n` channels of
      which `alpha` is the alpha channel, and the OCR engine's answer for it. */
  datatype PdfImage = PixmapFails | Pixmap(n: int, alpha: int, recognition: Recognition)

  datatype PdfPage = PdfPage(text: string, images: seq<PdfImage>)

  /** What opening the file gives: an error, or its pages in order. */
  datatype PdfDoc = Unopenable | Pages(pages: seq<PdfPage>)

  /** The block one image contributes. Images with four or more colour channels (CMYK)
      are skipped; a failing pixmap or OCR call skips the image. */
  function ImageText(img: PdfImage): Option<string>
  {
    match img
    case PixmapFails => None
    case Pixmap(n, alpha, r) => if n - alpha < 4 then Block(r) else None
  }

  /** The image blocks of a page, in image order. */
  function ImageTexts(imgs: seq<PdfImage>): seq<string>
  {
    if imgs == [] then []
    else ImageTexts(imgs[..|imgs| - 1]) + (match ImageText(imgs[|imgs| - 1]) case Some(b) => [b] case None => [])
  }

  /** The page text the windows are cut from. */
  function PageText(p: PdfPage): string
  {
    WithImageText(p.text, ImageTexts(p.images))
  }

  /** The records of page index `k` (0-based). A blank page, or a non-positive stride,
      gives none. */
  function PageMetas(source: string, k: nat, p: PdfPage, size: int, stride: int): seq<ChunkMeta>
  {
    var blocks := ImageTexts(p.images);
    var full := WithImageText(p.text, blocks);
    if stride <= 0 || IsBlank(full) then []
    else Tagged(source, PdfChunks(full, size, stride), Page(k + 1, |blocks| > 0, |blocks|))
  }

  /** The records of all pages, page by page. */
  function DocMetas(source: string, ps: seq<PdfPage>, size: int, stride: int): seq<ChunkMeta>
  {
    if ps == [] then []
    else DocMetas(source, ps[..|ps| - 1], size, stride) + PageMetas(source, |ps| - 1, ps[|ps| - 1], size, stride)
  }

  /** What the loader returns for a file that exists. A stride of zero makes `range` raise,
      which the loader's handler turns into two empty lists; a negative stride gives empty
      ranges. Either way nothing is chunked. */
  function PdfMetas(path: string, doc: PdfDoc, size: int, overlap: int): seq<ChunkMeta>
  {
    match doc
    case Unopenable => []
    case Pages(ps) => DocMetas(Basename(path), ps, size, size - overlap)
  }

  /** The image loop of one page. */
  method PageImageTexts(imgs: seq<PdfImage>) returns (texts: seq<string>)
    ensures texts == ImageTexts(imgs)
  {
    texts := [];
    var i := 0;
    while i < |imgs|
      invariant 0 <= i <= |imgs|
      invariant texts == ImageTexts(imgs[..i])
    {
      assert imgs[..i + 1][..i] == imgs[..i];
      if imgs[i].Pixmap? && imgs[i].n - imgs[i].alpha < 4 {
        var block := ImageBlock(imgs[i].recognition);
        if block.Some? {
          texts := texts + [block.value];
        }
      }
      i := i + 1;
    }
    assert imgs[..i] == imgs;
  }

  /** The window loop of one page with a positive stride: `range(0, len(full), stride)`. */
  method PageWindows(full: string, size: int, stride: int) returns (chunks: seq<string>)
    requires stride > 0
    ensures chunks == PdfChunks(full, size, stride)
  {
    chunks := [];
    var i: nat := 0;
    ghost var all := NonBlank(Windows(full, 0, size, stride));
    while i < |full|
      invariant chunks + NonBlank(Windows(full, i, size, stride)) == all
      decreases |full| - i
    {
      chunks := PageWindow(full, i, size, stride, chunks);
      i := i + stride;
    }
  }

  /** One pass of the window loop: the window at `i` is kept when it is not blank. */
  method PageWindow(full: string, i: nat, size: int, stride: int, chunks: seq<string>) returns (next: seq<string>)
    requires stride > 0 && i < |full|
    ensures next + NonBlank(Windows(full, i + stride, size, stride)) == chunks + NonBlank(Windows(full, i, size, stride))
  {
    var chunk := PySlice(full, i, i + size);
    // `if chunk.strip(): chunks.append(chunk)`
    var stripped := Strip(chunk);
    var kept: seq<string> := if stripped != [] then [chunk] else [];
    assert chunk == Window(full, i, size);
    NonBlankStep(full, i, size, stride, chunks, kept);
    next := chunks + kept;
  }

  /** `load_and_chunk_pdf`: `None` when the path does not exist; otherwise the chunk list
      and the metadata list, entry for entry. */
  method LoadAndChunkPdf(path: string, present: bool, doc: PdfDoc, chunkSize: int, overlap: int)
    returns (r: Option<(seq<string>, seq<ChunkMeta>)>)
    ensures !present <==> r == None
    ensures r.Some? ==> r.value.1 == PdfMetas(path, doc, chunkSize, overlap) && r.value.0 == Texts(r.value.1)
  {
    if !present {
      return None;
    }
    if doc.Unopenable? {
      return Some(([], []));
    }
    var chunks, metadata := ChunkPages(Basename(path), doc.pages, chunkSize, chunkSize - overlap);
    return Some((chunks, metadata));
  }

  /** The `for page_num, page in enumerate(doc)` loop, with the step
      `chunk_size - overlap` of its window loops. */
  method ChunkPages(filename: string, pages: seq<PdfPage>, chunkSize: int, stride: int)
    returns (chunks: seq<string>, metadata: seq<ChunkMeta>)
    ensures metadata == DocMetas(filename, pages, chunkSize, stride) && chunks == Texts(metadata)
  {
    chunks := [];
    metadata := [];
    var k := 0;
    while k < |pages|
      invariant 0 <= k <= |pages|
      invariant metadata == DocMetas(filename, pages[..k], chunkSize, stride)
      invariant chunks == Texts(metadata)
    {
      assert pages[..k + 1][..k] == pages[..k];
      var imageTexts := PageImageTexts(pages[k].images);
      var fullText := WithImageText(pages[k].text, imageTexts);
      var stripped := Strip(fullText);
      StripEmptyIffBlank(fullText);
      if stripped != [] {
        if stride == 0 {
          // `range` with step 0 raises; the handler returns two empty lists
          ZeroStrideGivesNothing(filename, pages, chunkSize);
          return [], [];
        }
        if stride > 0 {
          var pageChunks := PageWindows(fullText, chunkSize, stride);
          var pageMetas := Tagged(filename, pageChunks, Page(k + 1, |imageTexts| > 0, |imageTexts|));
          TextsAppend(metadata, pageMetas);
          chunks := chunks + pageChunks;
          metadata := metadata + pageMetas;
        }
      }
      k := k + 1;
    }
    assert pages[..k] == pages;
  }

  lemma {:induction false} ZeroStrideGivesNothing(source: string, ps: seq<PdfPage>, size: int)
    ensures DocMetas(source, ps, size, 0) == []
  {
    if ps != [] {
      ZeroStrideGivesNothing(source, ps[..|ps| - 1], size);
    }
  }

  /** Where record `j` of the document comes from: a page index and a chunk of that page. */
  lemma {:induction false} DocMetaOrigin(source: string, ps: seq<PdfPage>, size: int, stride: int, j: nat)
    returns (k: nat)
    requires j < |DocMetas(source, ps, size, stride)|
    ensures k < |ps| && stride > 0
    ensures var m := DocMetas(source, ps, size, stride)[j];
      var blocks := ImageTexts(ps[k].images);
      m.source == source && m.loc == Page(k + 1, |blocks| > 0, |blocks|)
      && m.text in PdfChunks(PageText(ps[k]), size, stride)
  {
    var init := DocMetas(source, ps[..|ps| - 1], size, stride);
    var last := PageMetas(source, |ps| - 1, ps[|ps| - 1], size, stride);
    if j < |init| {
      k := DocMetaOrigin(source, ps[..|ps| - 1], size, stride, j);
      assert ps[..|ps| - 1][k] == ps[k];
    } else {
      k := |ps| - 1;
      assert DocMetas(source, ps, size, stride)[j] == last[j - |init|];
    }
  }

  /** Every record the loader returns names the file, a page in range, and a chunk that is
      a non-blank window of that page of at most `chunk_size` characters; the image flags
      agree with the number of image blocks on that page. */
  lemma PdfMetaShape(path: string, ps: seq<PdfPage>, size: nat, overlap: int, j: nat)
    requires j < |PdfMetas(path, Pages(ps), size, overlap)|
    ensures var m := PdfMetas(path, Pages(ps), size, overlap)[j];
      m.source == Basename(path) && m.loc.Page? && 1 <= m.loc.page <= |ps|
      && Strip(m.text) != [] && |m.text| <= size
      && (m.loc.hasImages <==> m.loc.imageCount > 0)
      && m.loc.imageCount == |ImageTexts(ps[m.loc.page - 1].images)|
  {
    var k := DocMetaOrigin(Basename(path), ps, size, size - overlap, j);
    var m := PdfMetas(path, Pages(ps), size, overlap)[j];
    PdfChunksBounded(PageText(ps[k]), size, size - overlap, m.text);
  }

  /** Records come in page order. */
  lemma {:induction false} PagesAscending(source: string, ps: seq<PdfPage>, size: int, stride: int, a: nat, b: nat)
    requires a <= b < |DocMetas(source, ps, size, stride)|
    ensures var ms := DocMetas(source, ps, size, stride);
      ms[a].loc.Page? && ms[b].loc.Page? && ms[a].loc.page <= ms[b].loc.page
  {
    var init := DocMetas(source, ps[..|ps| - 1], size, stride);
    var ms := DocMetas(source, ps, size, stride);
    var ka := DocMetaOrigin(source, ps, size, stride, a);
    var kb := DocMetaOrigin(source, ps, size, stride, b);
    if b < |init| {
      PagesAscending(source, ps[..|ps| - 1], size, stride, a, b);
      assert ms[a] == init[a] && ms[b] == init[b];
    } else {
      assert ms[b].loc.page == |ps|;
      if a < |init| {
        var k := DocMetaOrigin(source, ps[..|ps| - 1], size, stride, a);
        assert ms[a] == init[a];
      }
    }
  }

  /** A page whose text has any non-whitespace character, or with at least one readable
      image, is indexed: with `0 <= overlap < chunk_size` it yields at least one record. */
  lemma ContentIsIndexed(source: string, k: nat, p: PdfPage, size: nat, overlap: int)
    requires 0 <= overlap < size
    requires !IsBlank(p.text) || ImageTexts(p.images) != []
    ensures PageMetas(source, k, p, size, size - overlap) != []
  {
    var full := PageText(p);
    PageTextNotBlank(p);
    StripEmptyIffBlank(full);
    NonBlankTextHasChunk(full, size, size - overlap);
  }

  lemma PageTextNotBlank(p: PdfPage)
    requires !IsBlank(p.text) || ImageTexts(p.images) != []
    ensures !IsBlank(PageText(p))
  {
    var blocks := ImageTexts(p.images);
    var full := PageText(p);
    if !IsBlank(p.text) {
      var i :| 0 <= i < |p.text| && !IsSpace(p.text[i]);
      WithImageTextPrefix(p.text, blocks);
      assert full[..|p.text|][i] == p.text[i];
    } else {
      var joined := Join(blocks, "\n");
      assert full == p.text + "\n\n" + joined;
      JoinStartsWithFirst(blocks, "\n");
      BlockIsMarked(p.images);
      assert blocks[0] in blocks;
      assert blocks[0][..|ImageTextMarker|][0] == '[';
      assert joined[..|blocks[0]|][0] == blocks[0][0];
      assert full[|p.text| + 2] == joined[0];
    }
  }

  /** Every image block starts with the marker. */
  lemma {:induction false} BlockIsMarked(imgs: seq<PdfImage>)
    ensures forall b :: b in ImageTexts(imgs) ==> |b| >= |ImageTextMarker| && b[..|ImageTextMarker|] == ImageTextMarker
  {
    if imgs != [] {
      BlockIsMarked(imgs[..|imgs| - 1]);
      var img := imgs[|imgs| - 1];
      if img.Pixmap? {
        BlockShape(img.recognition);
      }
    }
  }
}
