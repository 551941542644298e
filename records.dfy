/** The records that flow between the chunkers, the vector index and the ledger:
    chunk metadata (the dicts the loaders append), the index's metadata dicts,
    and the deterministic vector id `"<filename>_<i>"`. */
module Records {
  import opened Common

  /** Where a chunk came from: page and slide numbers are 1-based, sheet rows 1-based inclusive. */
  datatype Locator =
    | Page(page: int, hasImages: bool, imageCount: nat)
    | Slide(slide: int, hasImages: bool, imageCount: nat)
    | Sheet(sheet: string, startRow: int, endRow: int)

  /** One metadata dict a loader appends, alongside the chunk text it describes. */
  datatype ChunkMeta = ChunkMeta(source: string, text: string, loc: Locator)

  /** A metadata dict as the index stores and returns it: any key may be absent. */
  datatype MetaDict = MetaDict(
    text: Option<string>,
    source: Option<string>,
    page: Option<int>,
    slide: Option<int>,
    sheet: Option<string>,
    startRow: Option<int>,
    endRow: Option<int>,
    hasImages: Option<bool>,
    imageCount: Option<int>)

  /** The dict a loader builds for a chunk: exactly the keys its format writes. */
  function ToDict(m: ChunkMeta): (d: MetaDict)
    ensures d.text == Some(m.text) && d.source == Some(m.source)
    ensures d.page.Some? <==> m.loc.Page?
    ensures d.slide.Some? <==> m.loc.Slide?
    ensures d.sheet.Some? <==> m.loc.Sheet?
    ensures d.startRow.Some? <==> m.loc.Sheet?
    ensures d.endRow.Some? <==> m.loc.Sheet?
    ensures d.hasImages.Some? <==> !m.loc.Sheet?
    ensures d.imageCount.Some? <==> !m.loc.Sheet?
  {
    match m.loc
    case Page(p, h, n) =>
      MetaDict(Some(m.text), Some(m.source), Some(p), None, None, None, None, Some(h), Some(n))
    case Slide(s, h, n) =>
      MetaDict(Some(m.text), Some(m.source), None, Some(s), None, None, None, Some(h), Some(n))
    case Sheet(name, a, b) =>
      MetaDict(Some(m.text), Some(m.source), None, None, Some(name), Some(a), Some(b), None, None)
  }

  function Dicts(ms: seq<ChunkMeta>): (ds: seq<MetaDict>)
    ensures |ds| == |ms| && forall j :: 0 <= j < |ms| ==> ds[j] == ToDict(ms[j])
  {
    seq(|ms|, j requires 0 <= j < |ms| => ToDict(ms[j]))
  }

  /** The chunk list that goes with a metadata list: entry j is the text of metadata j. */
  function Texts(ms: seq<ChunkMeta>): (ts: seq<string>)
    ensures |ts| == |ms| && forall j :: 0 <= j < |ms| ==> ts[j] == ms[j].text
  {
    seq(|ms|, j requires 0 <= j < |ms| => ms[j].text)
  }

  /** The records a loader appends for the chunks of one page, slide or row group. */
  function Tagged(source: string, chunks: seq<string>, loc: Locator): (ms: seq<ChunkMeta>)
    ensures Texts(ms) == chunks
    ensures forall j :: 0 <= j < |ms| ==> ms[j].source == source && ms[j].loc == loc
  {
    seq(|chunks|, j requires 0 <= j < |chunks| => ChunkMeta(source, chunks[j], loc))
  }

  lemma TextsAppend(a: seq<ChunkMeta>, b: seq<ChunkMeta>)
    ensures Texts(a + b) == Texts(a) + Texts(b)
  {
  }

  lemma DictsAppend(a: seq<ChunkMeta>, b: seq<ChunkMeta>)
    ensures Dicts(a + b) == Dicts(a) + Dicts(b)
  {
  }

  /** The vector id of chunk `i` of `filename`: `f"{filename}_{i}"`. */
  function VectorId(filename: string, i: nat): string
  {
    filename + "_" + NatToString(i)
  }

  /** The `_` that separates the filename from the index is the last `_` of the id. */
  lemma SeparatorIsLastUnderscore(filename: string, i: nat)
    ensures LastIndexOf(VectorId(filename, i), '_') == Some(|filename|)
  {
    var s := VectorId(filename, i);
    assert s[|filename|] == '_';
    assert forall k :: |filename| < k < |s| ==> s[k] == NatToString(i)[k - |filename| - 1];
  }

  /** Ids are unique across files and positions: the id determines both the filename and the index. */
  lemma VectorIdInjective(f1: string, i1: nat, f2: string, i2: nat)
    ensures VectorId(f1, i1) == VectorId(f2, i2) ==> f1 == f2 && i1 == i2
  {
    if VectorId(f1, i1) == VectorId(f2, i2) {
      var s := VectorId(f1, i1);
      SeparatorIsLastUnderscore(f1, i1);
      SeparatorIsLastUnderscore(f2, i2);
      assert f1 == s[..|f1|] == f2;
      assert NatToString(i1) == s[|f1| + 1..] == NatToString(i2);
      NatToStringInjective(i1, i2);
    }
  }

  /** The ids of positions `lo..hi-1`, in order. */
  function IdRange(filename: string, lo: nat, hi: nat): (ids: seq<string>)
    ensures |ids| == if lo <= hi then hi - lo else 0
    ensures forall j :: 0 <= j < |ids| ==> ids[j] == VectorId(filename, lo + j)
  {
    if lo < hi then seq(hi - lo, j requires 0 <= j < hi - lo => VectorId(filename, lo + j)) else []
  }

  /** A file's ids are pairwise distinct. */
  lemma IdRangeDistinct(filename: string, lo: nat, hi: nat)
    ensures var ids := IdRange(filename, lo, hi);
      forall j, k :: 0 <= j < k < |ids| ==> ids[j] != ids[k]
  {
    var ids := IdRange(filename, lo, hi);
    forall j, k | 0 <= j < k < |ids| ensures ids[j] != ids[k] {
      VectorIdInjective(filename, lo + j, filename, lo + k);
    }
  }
}
