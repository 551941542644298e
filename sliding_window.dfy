/** The sliding window both page-oriented loaders cut their text with: windows of `size`
    characters starting at 0, stride, 2*stride, ... below the text's length, where
    stride = size - overlap. The PDF loader keeps a window untrimmed when it is not blank;
    the presentation loader trims it first and keeps it when the trimmed text is non-empty. */
module SlidingWindow {
  import opened Common

  /** The positions the window loops visit from `pos` on. */
  function Starts(n: nat, pos: nat, stride: nat): seq<nat>
    requires stride > 0
    decreases n - pos
  {
    if pos >= n then [] else [pos] + Starts(n, pos + stride, stride)
  }

  /** `text[pos:pos+size]` with Python slice semantics (a negative `size` counts from the end). */
  function Window(text: string, pos: nat, size: int): string
  {
    PySlice(text, pos, pos + size)
  }

  /** Every window from `pos` on, before any keep test. */
  function Windows(text: string, pos: nat, size: int, stride: nat): seq<string>
    requires stride > 0
    decreases |text| - pos
  {
    if pos >= |text| then [] else [Window(text, pos, size)] + Windows(text, pos + stride, size, stride)
  }

  /** The PDF keep test: the untrimmed window, when `chunk.strip()` is non-empty. */
  function NonBlank(ws: seq<string>): seq<string>
  {
    if ws == [] then [] else (if Strip(ws[0]) != [] then [ws[0]] else []) + NonBlank(ws[1..])
  }

  /** The presentation keep test: the trimmed window, when it is non-empty. */
  function Trimmed(ws: seq<string>): seq<string>
  {
    if ws == [] then [] else (if Strip(ws[0]) != [] then [Strip(ws[0])] else []) + Trimmed(ws[1..])
  }

  /** The PDF chunks of one page text. */
  function PdfChunks(text: string, size: int, stride: nat): seq<string>
    requires stride > 0
  {
    NonBlank(Windows(text, 0, size, stride))
  }

  /** The presentation chunks of one slide text. */
  function PptChunks(text: string, size: int, stride: nat): seq<string>
    requires stride > 0
  {
    Trimmed(Windows(text, 0, size, stride))
  }

  /** A page or slide once read: the text the windows are cut from and the number of
      image blocks in it. */
  datatype Content = Content(text: string, imageCount: nat)

  /** Page or slide text: the native text, then a blank line and the image blocks one per
      line, when there is at least one block. */
  function WithImageText(text: string, blocks: seq<string>): string
  {
    if blocks == [] then text else text + "\n\n" + Join(blocks, "\n")
  }

  lemma WithImageTextPrefix(text: string, blocks: seq<string>)
    ensures |text| <= |WithImageText(text, blocks)|
    ensures WithImageText(text, blocks)[..|text|] == text
    ensures blocks == [] ==> WithImageText(text, blocks) == text
  {
  }

  /** Regrouping the kept windows when a loop appends one step's worth. */
  lemma Regroup(acc: seq<string>, x: seq<string>, rest: seq<string>)
    ensures acc + (x + rest) == (acc + x) + rest
  {
  }

  /** One step of a window loop: the window at `pos` and then the rest. */
  lemma WindowsStep(text: string, pos: nat, size: int, stride: nat)
    requires stride > 0 && pos < |text|
    ensures NonBlank(Windows(text, pos, size, stride))
      == (if Strip(Window(text, pos, size)) != [] then [Window(text, pos, size)] else [])
         + NonBlank(Windows(text, pos + stride, size, stride))
    ensures Trimmed(Windows(text, pos, size, stride))
      == (if Strip(Window(text, pos, size)) != [] then [Strip(Window(text, pos, size))] else [])
         + Trimmed(Windows(text, pos + stride, size, stride))
  {
    var ws := Windows(text, pos, size, stride);
    assert ws[0] == Window(text, pos, size);
    assert ws[1..] == Windows(text, pos + stride, size, stride);
  }

  /** One pass of the PDF window loop: the chunks so far, this window if kept, the rest. */
  lemma NonBlankStep(text: string, pos: nat, size: int, stride: nat, acc: seq<string>, kept: seq<string>)
    requires stride > 0 && pos < |text|
    requires kept == (if Strip(Window(text, pos, size)) != [] then [Window(text, pos, size)] else [])
    ensures acc + NonBlank(Windows(text, pos, size, stride)) == (acc + kept) + NonBlank(Windows(text, pos + stride, size, stride))
  {
    WindowsStep(text, pos, size, stride);
    Regroup(acc, kept, NonBlank(Windows(text, pos + stride, size, stride)));
  }

  /** One pass of the presentation window loop. */
  lemma TrimmedStep(text: string, pos: nat, size: int, stride: nat, acc: seq<string>, kept: seq<string>)
    requires stride > 0 && pos < |text|
    requires kept == (if Strip(Window(text, pos, size)) != [] then [Strip(Window(text, pos, size))] else [])
    ensures acc + Trimmed(Windows(text, pos, size, stride)) == (acc + kept) + Trimmed(Windows(text, pos + stride, size, stride))
  {
    WindowsStep(text, pos, size, stride);
    Regroup(acc, kept, Trimmed(Windows(text, pos + stride, size, stride)));
  }

  /** One window per visited position, taken at that position. */
  lemma {:induction false} WindowsAtStarts(text: string, pos: nat, size: int, stride: nat)
    requires stride > 0
    ensures var ws, ps := Windows(text, pos, size, stride), Starts(|text|, pos, stride);
      |ws| == |ps| && forall j :: 0 <= j < |ws| ==> ws[j] == Window(text, ps[j], size)
    decreases |text| - pos
  {
    if pos < |text| {
      WindowsAtStarts(text, pos + stride, size, stride);
    }
  }

  lemma MulAtLeast(a: int, s: int)
    requires a >= 1 && s > 0
    ensures a * s >= s
  {
  }

  /** Euclidean division is unique: a decomposition `q*s + r` with `0 <= r < s` gives the remainder. */
  lemma ModUnique(y: int, s: int, q: int, r: int)
    requires s > 0 && 0 <= r < s && y == q * s + r
    ensures y % s == r
  {
    var q', r' := y / s, y % s;
    assert y == q' * s + r';
    assert (q - q') * s == r' - r;
    if q > q' {
      MulAtLeast(q - q', s);
    } else if q < q' {
      MulAtLeast(q' - q, s);
    }
  }

  lemma ModStep(x: int, s: int)
    requires s > 0 && x >= s
    ensures (x - s) % s == x % s
  {
    var q, r := x / s, x % s;
    assert x == q * s + r;
    assert x - s == (q - 1) * s + r;
    ModUnique(x - s, s, q - 1, r);
  }

  lemma ModBelow(x: int, s: int)
    requires s > 0 && 0 < x < s
    ensures x % s != 0
  {
    ModUnique(x, s, 0, x);
  }

  /** The loops visit exactly the multiples of the stride below the text's length. */
  lemma {:induction false} StartsAreMultiples(n: nat, pos: nat, stride: nat, p: int)
    requires stride > 0
    ensures p in Starts(n, pos, stride) <==> pos <= p < n && (p - pos) % stride == 0
    decreases n - pos
  {
    if pos < n {
      StartsAreMultiples(n, pos + stride, stride, p);
      if pos + stride <= p {
        ModStep(p - pos, stride);
      } else if pos < p {
        ModBelow(p - pos, stride);
      }
    }
  }

  /** Every PDF chunk is a non-blank window of at most `size` characters. */
  lemma {:induction false} PdfChunkShape(ws: seq<string>, size: nat, c: string)
    requires forall j :: 0 <= j < |ws| ==> |ws[j]| <= size
    requires c in NonBlank(ws)
    ensures Strip(c) != [] && |c| <= size
  {
    if c !in (if Strip(ws[0]) != [] then [ws[0]] else []) {
      PdfChunkShape(ws[1..], size, c);
    }
  }

  /** Each window is at most `size` characters long. */
  lemma {:induction false} WindowsBounded(text: string, pos: nat, size: nat, stride: nat)
    requires stride > 0
    ensures forall w :: w in Windows(text, pos, size, stride) ==> |w| <= size
    decreases |text| - pos
  {
    if pos < |text| {
      WindowSlice(text, pos, size);
      WindowsBounded(text, pos + stride, size, stride);
    }
  }

  /** PDF chunks are non-blank and no longer than the window. */
  lemma PdfChunksBounded(text: string, size: nat, stride: nat, c: string)
    requires stride > 0 && c in PdfChunks(text, size, stride)
    ensures Strip(c) != [] && |c| <= size
  {
    var ws := Windows(text, 0, size, stride);
    WindowsBounded(text, 0, size, stride);
    PdfChunkShape(ws, size, c);
  }

  /** The presentation chunks are the PDF chunks of the same text, each trimmed. */
  lemma {:induction false} TrimmedIsStrippedNonBlank(ws: seq<string>)
    ensures |Trimmed(ws)| == |NonBlank(ws)|
    ensures forall j :: 0 <= j < |Trimmed(ws)| ==> Trimmed(ws)[j] == Strip(NonBlank(ws)[j])
  {
    if ws != [] {
      TrimmedIsStrippedNonBlank(ws[1..]);
      var t, nb := Trimmed(ws[1..]), NonBlank(ws[1..]);
      if Strip(ws[0]) != [] {
        assert Trimmed(ws) == [Strip(ws[0])] + t;
        assert NonBlank(ws) == [ws[0]] + nb;
      } else {
        assert Trimmed(ws) == t;
        assert NonBlank(ws) == nb;
      }
    }
  }

  /** A presentation chunk is non-empty, trimmed, and no longer than the window. */
  lemma PptChunksBounded(text: string, size: nat, stride: nat, c: string)
    requires stride > 0 && c in PptChunks(text, size, stride)
    ensures c != [] && Strip(c) == c && |c| <= size
  {
    var ws := Windows(text, 0, size, stride);
    TrimmedIsStrippedNonBlank(ws);
    var nb := NonBlank(ws);
    var j :| 0 <= j < |Trimmed(ws)| && Trimmed(ws)[j] == c;
    assert nb[j] in PdfChunks(text, size, stride);
    PdfChunksBounded(text, size, stride, nb[j]);
    StripIdempotent(nb[j]);
  }

  /** Consecutive windows share `size - stride` characters (the overlap): the tail of one
      window after its first `stride` characters is the head of the next. */
  lemma WindowOverlap(text: string, pos: nat, size: nat, stride: nat)
    requires 0 < stride <= size && pos + stride < |text|
    ensures var w1, w2 := Window(text, pos, size), Window(text, pos + stride, size);
      stride <= |w1| && |w1| - stride <= |w2| && w1[stride..] == w2[..|w1| - stride]
    ensures pos + size <= |text| ==> |Window(text, pos, size)| == size
  {
    var n := |text|;
    var hi1 := if pos + size <= n then pos + size else n;
    var hi2 := if pos + stride + size <= n then pos + stride + size else n;
    WindowSlice(text, pos, size);
    WindowSlice(text, pos + stride, size);
    var w1, w2 := Window(text, pos, size), Window(text, pos + stride, size);
    assert w1 == text[pos..hi1];
    assert w2 == text[pos + stride..hi2];
    assert w1[stride..] == text[pos + stride..hi1];
    SliceHead(text, pos + stride, hi2, hi1 - pos - stride);
  }

  /** A prefix of a slice is the shorter slice. */
  lemma SliceHead(text: string, lo: nat, hi: nat, m: nat)
    requires lo <= hi <= |text| && m <= hi - lo
    ensures text[lo..hi][..m] == text[lo..lo + m]
  {
    assert forall i :: 0 <= i < m ==> text[lo..hi][..m][i] == text[lo + i];
  }

  /** With a stride no larger than the window, every character lies in some window. */
  lemma {:induction false} WindowsCover(n: nat, pos: nat, size: nat, stride: nat, k: nat)
    requires 0 < stride <= size && pos <= k < n
    ensures exists p :: p in Starts(n, pos, stride) && p <= k < p + size
    decreases n - pos
  {
    if k >= pos + stride {
      WindowsCover(n, pos + stride, size, stride, k);
      var p :| p in Starts(n, pos + stride, stride) && p <= k < p + size;
      assert p in Starts(n, pos, stride);
    } else {
      assert pos in Starts(n, pos, stride);
    }
  }

  lemma {:induction false} NonBlankContains(ws: seq<string>, j: nat)
    requires j < |ws| && Strip(ws[j]) != []
    ensures ws[j] in NonBlank(ws)
  {
    if j > 0 {
      NonBlankContains(ws[1..], j - 1);
    }
  }

  /** A window that holds a non-whitespace character is not blank. */
  lemma WindowHoldingIsKept(text: string, p: nat, size: nat, k: nat)
    requires p <= k < |text| && k < p + size && !IsSpace(text[k])
    ensures Strip(Window(text, p, size)) != []
  {
    var w := Window(text, p, size);
    WindowSlice(text, p, size);
    assert w[k - p] == text[k];
    StripEmptyIffBlank(w);
  }

  /** With `0 <= overlap` no character is lost: every non-whitespace character of the page
      lies inside a window the loader keeps as a chunk. */
  lemma NoTextLost(text: string, size: nat, stride: nat, k: nat)
    requires 0 < stride <= size && k < |text| && !IsSpace(text[k])
    ensures exists p :: (p in Starts(|text|, 0, stride) && p <= k < p + size
                         && Window(text, p, size) in PdfChunks(text, size, stride))
  {
    WindowsCover(|text|, 0, size, stride, k);
    var p :| p in Starts(|text|, 0, stride) && p <= k < p + size;
    var ws, ps := Windows(text, 0, size, stride), Starts(|text|, 0, stride);
    WindowsAtStarts(text, 0, size, stride);
    var j :| 0 <= j < |ps| && ps[j] == p;
    WindowHoldingIsKept(text, p, size, k);
    NonBlankContains(ws, j);
  }

  /** A page with any non-whitespace text yields at least one chunk. */
  lemma NonBlankTextHasChunk(text: string, size: nat, stride: nat)
    requires 0 < stride <= size && !IsBlank(text)
    ensures PdfChunks(text, size, stride) != []
  {
    var k :| 0 <= k < |text| && !IsSpace(text[k]);
    NoTextLost(text, size, stride, k);
  }

  lemma {:induction false} NonBlankKeepsAll(ws: seq<string>)
    requires forall j :: 0 <= j < |ws| ==> Strip(ws[j]) != []
    ensures NonBlank(ws) == ws
  {
    if ws != [] {
      NonBlankKeepsAll(ws[1..]);
    }
  }

  /** The window at `pos` of a text without whitespace is kept. */
  lemma WindowNotBlank(text: string, pos: nat, size: nat)
    requires pos < |text| && size > 0 && !IsSpace(text[pos])
    ensures Strip(Window(text, pos, size)) != []
  {
    var w := Window(text, pos, size);
    WindowSlice(text, pos, size);
    assert w[0] == text[pos];
    StripEmptyIffBlank(w);
  }

  /** 2200 characters of non-blank text with window 1000 and overlap 100 (stride 900)
      give three chunks of 1000, 1000 and 400 characters. */
  lemma Example2200(text: string)
    requires |text| == 2200 && forall i :: 0 <= i < |text| ==> !IsSpace(text[i])
    ensures var cs := PdfChunks(text, 1000, 900);
      |cs| == 3 && |cs[0]| == 1000 && |cs[1]| == 1000 && |cs[2]| == 400
  {
    var w0, w1, w2 := Window(text, 0, 1000), Window(text, 900, 1000), Window(text, 1800, 1000);
    assert Windows(text, 2700, 1000, 900) == [];
    assert Windows(text, 1800, 1000, 900) == [w2];
    assert Windows(text, 900, 1000, 900) == [w1, w2];
    assert Windows(text, 0, 1000, 900) == [w0, w1, w2];
    WindowNotBlank(text, 0, 1000);
    WindowNotBlank(text, 900, 1000);
    WindowNotBlank(text, 1800, 1000);
    NonBlankKeepsAll([w0, w1, w2]);
    WindowSlice(text, 0, 1000);
    WindowSlice(text, 900, 1000);
    WindowSlice(text, 1800, 1000);
  }
}
