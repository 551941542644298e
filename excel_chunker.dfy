/** The spreadsheet loader: every sheet with data rows is cut into groups of
    `rows_per_chunk` consecutive rows; a group's text is its cells (missing cells as empty
    strings) joined by spaces within a row, the rows joined by spaces, then trimmed. The
    spreadsheet library's parse of the file is an input. */
module ExcelChunker {
  import opened Common
  import opened Records
  import opened Paths
  import opened SlidingWindow

  /** A cell as the data frame holds it: missing (NaN), or the text `astype(str)` gives it. */
  datatype Cell = Missing | Shown(text: string)

  /** A parsed sheet: its name and its data rows (the header row is not a data row). */
  datatype SheetData = SheetData(name: string, rows: seq<seq<Cell>>)

  datatype Workbook = Unreadable | Sheets(sheets: seq<SheetData>)

  /** The exceptions the loader lets escape: it has no handler of its own. */
  datatype ExcelError =
    | FileMissing          // opening a path that does not exist
    | UnreadableWorkbook   // the library cannot parse the file
    | ZeroStep             // `range(0, total_rows, 0)` on a sheet with rows

  /** `fillna("")` then `astype(str)`. */
  function CellText(c: Cell): string
  {
    match c
    case Missing => ""
    case Shown(t) => t
  }

  function CellTexts(row: seq<Cell>): (ts: seq<string>)
    ensures |ts| == |row|
  {
    if row == [] then [] else CellTexts(row[..|row| - 1]) + [CellText(row[|row| - 1])]
  }

  /** A row's text: its cells joined by single spaces. */
  function RowText(row: seq<Cell>): string
  {
    Join(CellTexts(row), " ")
  }

  /** `agg(" ".join, axis=1)`: one string per row. */
  function RowTexts(rows: seq<seq<Cell>>): (ts: seq<string>)
    ensures |ts| == |rows| && forall i :: 0 <= i < |rows| ==> ts[i] == RowText(rows[i])
  {
    if rows == [] then [] else RowTexts(rows[..|rows| - 1]) + [RowText(rows[|rows| - 1])]
  }

  /** The text of a group of rows before trimming: the row texts joined by `str.cat(sep=" ")`. */
  function Joined(rows: seq<seq<Cell>>): string
  {
    Join(RowTexts(rows), " ")
  }

  /** Taking the row texts of the whole sheet once and slicing them gives each group the
      text the per-group `agg` gives it. */
  lemma RowTextsSlice(rows: seq<seq<Cell>>, a: nat, b: nat)
    requires a <= b <= |rows|
    ensures RowTexts(rows)[a..b] == RowTexts(rows[a..b])
    ensures Join(RowTexts(rows)[a..b], " ") == Joined(rows[a..b])
  {
    var whole, part := RowTexts(rows), RowTexts(rows[a..b]);
    forall i | 0 <= i < b - a
      ensures whole[a..b][i] == part[i]
    {
      assert rows[a..b][i] == rows[a + i];
    }
    assert whole[a..b] == part;
  }

  /** One pass of the row loop before the blank check: the rows `start ..< end` and their
      text, the row texts joined by spaces (`str.cat(sep=" ")`). */
  datatype RowGroup = RowGroup(start: nat, end: nat, text: string)

  /** The groups `range(start, total_rows, rows_per_chunk)` visits, given the sheet's row texts. */
  function RowGroups(texts: seq<string>, start: nat, rpc: int): seq<RowGroup>
    requires rpc > 0
    decreases |texts| - start
  {
    if start >= |texts| then []
    else
      var end := SpanEnd(start, rpc, |texts|);
      [RowGroup(start, end, Join(texts[start..end], " "))] + RowGroups(texts, start + rpc, rpc)
  }

  /** The record a group gives: none when its text is blank (`if not chunk_text: continue`),
      else the trimmed text at rows `start + 1 ..= end` counted from one. */
  function Emit(source: string, name: string, g: RowGroup): seq<ChunkMeta>
  {
    if IsBlank(g.text) then [] else [ChunkMeta(source, Strip(g.text), Sheet(name, g.start + 1, g.end))]
  }

  function Emitted(source: string, name: string, gs: seq<RowGroup>): seq<ChunkMeta>
  {
    if gs == [] then [] else Emit(source, name, gs[0]) + Emitted(source, name, gs[1..])
  }

  /** The records of one sheet's row loop. */
  function SheetRecords(source: string, sh: SheetData, rpc: int): seq<ChunkMeta>
    requires rpc > 0
  {
    Emitted(source, sh.name, RowGroups(RowTexts(sh.rows), 0, rpc))
  }

  /** One sheet: none for a sheet without rows; `None` when `range` raises on a zero step;
      no groups for a negative step (an empty range). */
  function SheetOutcome(source: string, sh: SheetData, rpc: int): Option<seq<ChunkMeta>>
  {
    if |sh.rows| == 0 then Some([])
    else if rpc == 0 then None
    else if rpc < 0 then Some([])
    else Some(SheetRecords(source, sh, rpc))
  }

  /** The sheet loop: records in sheet order, or `None` from the first sheet that raises. */
  function BookOutcome(source: string, shs: seq<SheetData>, rpc: int): Option<seq<ChunkMeta>>
  {
    if shs == [] then Some([])
    else
      var init := BookOutcome(source, shs[..|shs| - 1], rpc);
      var last := SheetOutcome(source, shs[|shs| - 1], rpc);
      if init.None? || last.None? then None else Some(init.value + last.value)
  }

  /** What `load_and_chunk_excel` returns or raises. */
  function ExcelResult(path: string, present: bool, wb: Workbook, rpc: int)
    : Result<(seq<string>, seq<ChunkMeta>), ExcelError>
  {
    if !present then Err(FileMissing)
    else if wb.Unreadable? then Err(UnreadableWorkbook)
    else
      match BookOutcome(Basename(path), wb.sheets, rpc)
      case None => Err(ZeroStep)
      case Some(ms) => Ok((Texts(ms), ms))
  }

  /** One sheet: the empty-sheet skip and the step check `range` makes. */
  method ChunkSheet(filename: string, sh: SheetData, rpc: int) returns (r: Option<seq<ChunkMeta>>)
    ensures r == SheetOutcome(filename, sh, rpc)
  {
    if |sh.rows| == 0 {
      return Some([]);
    }
    if rpc == 0 {
      // `range` raises on a zero step
      return None;
    }
    if rpc < 0 {
      return Some([]);
    }
    var texts := RowTexts(sh.rows);
    var metadata := SheetGroups(filename, sh.name, texts, rpc);
    return Some(metadata);
  }

  /** The `for start in range(0, total_rows, rows_per_chunk)` loop of one sheet. */
  method SheetGroups(filename: string, name: string, texts: seq<string>, rpc: int) returns (metadata: seq<ChunkMeta>)
    requires rpc > 0
    ensures metadata == Emitted(filename, name, RowGroups(texts, 0, rpc))
  {
    var total := |texts|;
    metadata := [];
    ghost var all := Emitted(filename, name, RowGroups(texts, 0, rpc));
    var start: nat := 0;
    while start < total
      invariant metadata + Emitted(filename, name, RowGroups(texts, start, rpc)) == all
      decreases total - start
    {
      metadata := SheetGroup(filename, name, texts, start, rpc, metadata);
      start := start + rpc;
    }
  }

  /** One pass of the sheet loop: the group at `start` and its record, if any. */
  method SheetGroup(filename: string, name: string, texts: seq<string>, start: nat, rpc: int, metadata: seq<ChunkMeta>)
    returns (next: seq<ChunkMeta>)
    requires rpc > 0 && start < |texts|
    ensures next + Emitted(filename, name, RowGroups(texts, start + rpc, rpc))
         == metadata + Emitted(filename, name, RowGroups(texts, start, rpc))
  {
    var total := |texts|;
    var end := if start + rpc < total then start + rpc else total;
    assert end == SpanEnd(start, rpc, total);
    var g := RowGroup(start, end, Join(texts[start..end], " "));
    var kept := EmitGroup(filename, name, g);
    RowGroupsStep(filename, name, texts, start, rpc, metadata);
    next := metadata + kept;
  }

  /** The blank check and the record of one group. */
  method EmitGroup(filename: string, name: string, g: RowGroup) returns (kept: seq<ChunkMeta>)
    ensures kept == Emit(filename, name, g)
  {
    var chunkText := Strip(g.text);
    StripEmptyIffBlank(g.text);
    if chunkText == [] {
      return [];
    }
    return [ChunkMeta(filename, chunkText, Sheet(name, g.start + 1, g.end))];
  }

  /** One step of the sheet loop: the records so far followed by the rest. */
  lemma RowGroupsStep(source: string, name: string, texts: seq<string>, start: nat, rpc: int, acc: seq<ChunkMeta>)
    requires start < |texts| && rpc > 0
    ensures var end := SpanEnd(start, rpc, |texts|);
      acc + Emitted(source, name, RowGroups(texts, start, rpc))
      == (acc + Emit(source, name, RowGroup(start, end, Join(texts[start..end], " "))))
         + Emitted(source, name, RowGroups(texts, start + rpc, rpc))
  {
    var gs := RowGroups(texts, start, rpc);
    assert gs[1..] == RowGroups(texts, start + rpc, rpc);
    MetaRegroup(acc, Emit(source, name, gs[0]), Emitted(source, name, gs[1..]));
  }

  lemma MetaRegroup(acc: seq<ChunkMeta>, x: seq<ChunkMeta>, rest: seq<ChunkMeta>)
    ensures acc + (x + rest) == (acc + x) + rest
  {
  }

  /** The `for sheet_name in xls.sheet_names` loop. */
  method ChunkSheets(filename: string, shs: seq<SheetData>, rpc: int) returns (r: Option<seq<ChunkMeta>>)
    ensures r == BookOutcome(filename, shs, rpc)
  {
    var metadata: seq<ChunkMeta> := [];
    var k := 0;
    while k < |shs|
      invariant 0 <= k <= |shs|
      invariant BookOutcome(filename, shs[..k], rpc) == Some(metadata)
    {
      var sheetMetas := ChunkSheet(filename, shs[k], rpc);
      assert shs[..k + 1][..k] == shs[..k];
      if sheetMetas.None? {
        RaisePersists(filename, shs[..k + 1], shs, rpc);
        return None;
      }
      metadata := metadata + sheetMetas.value;
      k := k + 1;
    }
    assert shs[..k] == shs;
    return Some(metadata);
  }

  /** `load_and_chunk_excel`: the chunk list and the metadata list, entry for entry, or the
      exception it lets escape. */
  method LoadAndChunkExcel(path: string, present: bool, wb: Workbook, rowsPerChunk: int)
    returns (r: Result<(seq<string>, seq<ChunkMeta>), ExcelError>)
    ensures r == ExcelResult(path, present, wb, rowsPerChunk)
  {
    if !present {
      return Err(FileMissing);
    }
    if wb.Unreadable? {
      return Err(UnreadableWorkbook);
    }
    var metadata := ChunkSheets(Basename(path), wb.sheets, rowsPerChunk);
    if metadata.None? {
      return Err(ZeroStep);
    }
    var chunks: seq<string> := [];
    var i := 0;
    while i < |metadata.value|
      invariant 0 <= i <= |metadata.value| && chunks == Texts(metadata.value[..i])
    {
      assert metadata.value[..i + 1] == metadata.value[..i] + [metadata.value[i]];
      TextsAppend(metadata.value[..i], [metadata.value[i]]);
      chunks := chunks + [metadata.value[i].text];
      i := i + 1;
    }
    assert metadata.value[..i] == metadata.value;
    return Ok((chunks, metadata.value));
  }

  /** Once a sheet raises, later sheets do not matter. */
  lemma {:induction false} RaisePersists(source: string, pre: seq<SheetData>, shs: seq<SheetData>, rpc: int)
    requires pre <= shs && BookOutcome(source, pre, rpc).None?
    ensures BookOutcome(source, shs, rpc).None?
    decreases |shs|
  {
    if |pre| < |shs| {
      assert pre <= shs[..|shs| - 1];
      RaisePersists(source, pre, shs[..|shs| - 1], rpc);
    } else {
      assert pre == shs;
    }
  }

  /** A group the loop visits: it starts at a position `range` yields, holds the rows up
      to `min(start + rpc, total)` (at least one, at most `rpc`), and carries the joined
      text of exactly those rows. */
  lemma {:induction false} RowGroupShape(texts: seq<string>, start: nat, rpc: int, i: nat)
    requires rpc > 0 && i < |RowGroups(texts, start, rpc)|
    ensures var g := RowGroups(texts, start, rpc)[i];
      g.start in Starts(|texts|, start, rpc) && start <= g.start
      && g.start < g.end == SpanEnd(g.start, rpc, |texts|)
      && g.text == Join(texts[g.start..g.end], " ")
    decreases |texts| - start
  {
    var gs := RowGroups(texts, start, rpc);
    assert Starts(|texts|, start, rpc) == [start] + Starts(|texts|, start + rpc, rpc);
    if i > 0 {
      assert gs[i] == RowGroups(texts, start + rpc, rpc)[i - 1];
      RowGroupShape(texts, start + rpc, rpc, i - 1);
    }
  }

  /** An earlier group ends no later than a later one starts. */
  lemma RowGroupsOrdered(texts: seq<string>, start: nat, rpc: int, i: nat, k: nat)
    requires rpc > 0 && i < k < |RowGroups(texts, start, rpc)|
    ensures RowGroups(texts, start, rpc)[i].end <= RowGroups(texts, start, rpc)[k].start
  {
    var gs := RowGroups(texts, start, rpc);
    RowGroupStart(texts, start, rpc, i);
    RowGroupStart(texts, start, rpc, k);
    RowGroupShape(texts, start, rpc, i);
    assert gs[i].end <= gs[i].start + rpc;
    MulMonotone(i + 1, k, rpc);
    assert (i + 1) * rpc == i * rpc + rpc;
  }

  /** Group `i` starts `i` strides past `start`. */
  lemma {:induction false} RowGroupStart(texts: seq<string>, start: nat, rpc: int, i: nat)
    requires rpc > 0 && i < |RowGroups(texts, start, rpc)|
    ensures RowGroups(texts, start, rpc)[i].start == start + i * rpc
    decreases |texts| - start
  {
    if i > 0 {
      RowGroupsTail(texts, start, rpc, i);
      assert start < |texts|;
      RowGroupStart(texts, start + rpc, rpc, i - 1);
      assert (i - 1) * rpc + rpc == i * rpc;
    }
  }

  lemma MulMonotone(a: nat, b: nat, c: int)
    requires a <= b && c > 0
    ensures a * c <= b * c
  {
  }

  /** Past the first group, the groups are those from the next start. */
  lemma RowGroupsTail(texts: seq<string>, start: nat, rpc: int, i: nat)
    requires rpc > 0 && 0 < i < |RowGroups(texts, start, rpc)|
    ensures |RowGroups(texts, start, rpc)| == |RowGroups(texts, start + rpc, rpc)| + 1
    ensures RowGroups(texts, start, rpc)[i] == RowGroups(texts, start + rpc, rpc)[i - 1]
  {
  }

  /** Every group the loop visits from `start` on stands at a start in `Starts`, and every
      such start has its group. */
  lemma {:induction false} RowGroupAt(texts: seq<string>, start: nat, rpc: int, a: nat) returns (i: nat)
    requires rpc > 0 && a in Starts(|texts|, start, rpc)
    ensures var gs := RowGroups(texts, start, rpc);
      i < |gs| && gs[i].start == a
    decreases |texts| - start
  {
    var gs := RowGroups(texts, start, rpc);
    assert Starts(|texts|, start, rpc) == [start] + Starts(|texts|, start + rpc, rpc);
    if a == start {
      i := 0;
    } else {
      var i' := RowGroupAt(texts, start + rpc, rpc, a);
      assert gs[1..] == RowGroups(texts, start + rpc, rpc);
      i := i' + 1;
    }
  }

  /** Where each record comes from: the group it was emitted for. */
  lemma {:induction false} EmittedOrigin(source: string, name: string, gs: seq<RowGroup>, j: nat) returns (i: nat)
    requires j < |Emitted(source, name, gs)|
    ensures i < |gs| && Emit(source, name, gs[i]) == [Emitted(source, name, gs)[j]]
  {
    var e := Emit(source, name, gs[0]);
    if j < |e| {
      i := 0;
    } else {
      var i' := EmittedOrigin(source, name, gs[1..], j - |e|);
      i := i' + 1;
    }
  }

  /** And the converse: a group with non-blank text has its record. */
  lemma {:induction false} EmittedFor(source: string, name: string, gs: seq<RowGroup>, i: nat) returns (j: nat)
    requires i < |gs| && !IsBlank(gs[i].text)
    ensures j < |Emitted(source, name, gs)| && [Emitted(source, name, gs)[j]] == Emit(source, name, gs[i])
  {
    var e := Emit(source, name, gs[0]);
    if i == 0 {
      j := 0;
    } else {
      var j' := EmittedFor(source, name, gs[1..], i - 1);
      j := |e| + j';
    }
  }

  /** Records keep the order of their groups, and groups that do not overlap give records
      that do not overlap. */
  lemma {:induction false} EmittedOrdered(source: string, name: string, gs: seq<RowGroup>, j: nat, l: nat)
    requires forall i, k :: 0 <= i < k < |gs| ==> gs[i].end <= gs[k].start
    requires j < l < |Emitted(source, name, gs)|
    ensures var ms := Emitted(source, name, gs);
      ms[j].loc.Sheet? && ms[l].loc.Sheet? && ms[j].loc.endRow < ms[l].loc.startRow
  {
    var ms := Emitted(source, name, gs);
    var e := Emit(source, name, gs[0]);
    var rest := Emitted(source, name, gs[1..]);
    assert ms == e + rest;
    assert ms[l] == rest[l - |e|];
    if j < |e| {
      var il := EmittedOrigin(source, name, gs[1..], l - |e|);
      assert gs[1..][il] == gs[il + 1];
    } else {
      assert ms[j] == rest[j - |e|];
      EmittedOrdered(source, name, gs[1..], j - |e|, l - |e|);
    }
  }

  /** Every record of a sheet names the file and the sheet; its rows `startRow ..= endRow`
      begin just after a multiple of `rows_per_chunk`, number at least one and at most
      `rows_per_chunk`, and end at `min(startRow - 1 + rows_per_chunk, total_rows)` ... */
  lemma SheetRecordShape(source: string, sh: SheetData, rpc: int, j: nat)
    requires rpc > 0 && j < |SheetRecords(source, sh, rpc)|
    ensures var m := SheetRecords(source, sh, rpc)[j];
      m.source == source && m.loc.Sheet? && m.loc.sheet == sh.name
      && 1 <= m.loc.startRow <= m.loc.endRow <= |sh.rows|
      && (m.loc.startRow - 1) % rpc == 0
      && m.loc.endRow - m.loc.startRow < rpc
      && m.loc.endRow == SpanEnd(m.loc.startRow - 1, rpc, |sh.rows|)
  {
    var texts := RowTexts(sh.rows);
    var gs := RowGroups(texts, 0, rpc);
    var m := SheetRecords(source, sh, rpc)[j];
    var i := EmittedOrigin(source, sh.name, gs, j);
    var g := gs[i];
    EmitPlaced(source, sh.name, g);
    assert m.source == source && m.loc == Sheet(sh.name, g.start + 1, g.end);
    RowGroupShape(texts, 0, rpc, i);
    StartsAreMultiples(|texts|, 0, rpc, g.start);
    assert g.start % rpc == 0 && g.start < g.end == SpanEnd(g.start, rpc, |sh.rows|);
  }

  /** ... and its text is the trimmed, non-empty text of exactly those rows. */
  lemma SheetRecordText(source: string, sh: SheetData, rpc: int, j: nat)
    requires rpc > 0 && j < |SheetRecords(source, sh, rpc)|
    ensures var m := SheetRecords(source, sh, rpc)[j];
      m.loc.Sheet? && 1 <= m.loc.startRow <= m.loc.endRow <= |sh.rows|
      && m.text == Strip(Joined(sh.rows[m.loc.startRow - 1..m.loc.endRow]))
      && m.text != [] && Strip(m.text) == m.text
  {
    var texts := RowTexts(sh.rows);
    var gs := RowGroups(texts, 0, rpc);
    var i := EmittedOrigin(source, sh.name, gs, j);
    RowGroupShape(texts, 0, rpc, i);
    var g := gs[i];
    RowTextsSlice(sh.rows, g.start, g.end);
    EmitShape(source, sh.name, g);
  }

  /** `Emit` gives at most one record, placed at the group's rows. */
  lemma EmitPlaced(source: string, name: string, g: RowGroup)
    ensures var e := Emit(source, name, g);
      |e| <= 1 && (e != [] ==> e[0].source == source && e[0].loc == Sheet(name, g.start + 1, g.end))
  {
  }

  /** The record `Emit` gives for a group with non-blank text. */
  lemma EmitShape(source: string, name: string, g: RowGroup)
    requires Emit(source, name, g) != []
    ensures var m := Emit(source, name, g)[0];
      m == ChunkMeta(source, Strip(g.text), Sheet(name, g.start + 1, g.end))
      && m.text != [] && Strip(m.text) == m.text
  {
    StripEmptyIffBlank(g.text);
    StripIdempotent(g.text);
  }

  /** A sheet's records are in row order and their row ranges do not overlap. */
  lemma SheetRecordsAscending(source: string, sh: SheetData, rpc: int, j: nat, l: nat)
    requires rpc > 0 && j < l < |SheetRecords(source, sh, rpc)|
    ensures var ms := SheetRecords(source, sh, rpc);
      ms[j].loc.Sheet? && ms[l].loc.Sheet? && ms[j].loc.endRow < ms[l].loc.startRow
  {
    var texts := RowTexts(sh.rows);
    var gs := RowGroups(texts, 0, rpc);
    forall i, k | 0 <= i < k < |gs| ensures gs[i].end <= gs[k].start {
      RowGroupsOrdered(texts, 0, rpc, i, k);
    }
    EmittedOrdered(source, sh.name, gs, j, l);
  }

  /** The converse of the shape: every group of rows the loop visits whose text is not
      blank has its record. */
  lemma SheetGroupKept(source: string, sh: SheetData, rpc: int, a: nat) returns (j: nat)
    requires rpc > 0 && a < |sh.rows| && a % rpc == 0
    requires !IsBlank(Joined(sh.rows[a..SpanEnd(a, rpc, |sh.rows|)]))
    ensures var ms := SheetRecords(source, sh, rpc);
      j < |ms| && ms[j].loc == Sheet(sh.name, a + 1, SpanEnd(a, rpc, |sh.rows|))
  {
    var texts := RowTexts(sh.rows);
    var gs := RowGroups(texts, 0, rpc);
    StartsAreMultiples(|texts|, 0, rpc, a);
    var i := RowGroupAt(texts, 0, rpc, a);
    RowGroupShape(texts, 0, rpc, i);
    RowTextsSlice(sh.rows, a, gs[i].end);
    j := EmittedFor(source, sh.name, gs, i);
  }

  /** No non-blank row is lost: each lies inside some record's row range. */
  lemma SheetRowCovered(source: string, sh: SheetData, rpc: int, r: nat) returns (j: nat)
    requires rpc > 0 && r < |sh.rows| && !IsBlank(RowText(sh.rows[r]))
    ensures var ms := SheetRecords(source, sh, rpc);
      j < |ms| && ms[j].loc.Sheet? && ms[j].loc.startRow <= r + 1 <= ms[j].loc.endRow
  {
    var a := GroupStart(r, rpc);
    var end := SpanEnd(a, rpc, |sh.rows|);
    RowMakesGroup(sh.rows, a, end, r);
    j := SheetGroupKept(source, sh, rpc, a);
  }

  /** The start of the group of `rpc` rows that row `r` falls in. */
  lemma GroupStart(r: nat, rpc: int) returns (a: nat)
    requires rpc > 0
    ensures a <= r < a + rpc && a % rpc == 0
  {
    a := r - r % rpc;
    ModUnique(a, rpc, r / rpc, 0);
  }

  /** A group that holds a non-blank row has non-blank text. */
  lemma RowMakesGroup(rows: seq<seq<Cell>>, a: nat, end: nat, r: nat)
    requires a <= r < end <= |rows| && !IsBlank(RowText(rows[r]))
    ensures !IsBlank(Joined(rows[a..end]))
  {
    var slice := rows[a..end];
    assert slice[r - a] == rows[r];
    var part := RowTexts(slice);
    assert part[r - a] == RowText(rows[r]);
    if IsBlank(Join(part, " ")) {
      JoinBlank(part, " ", r - a);
    }
  }

  /** The loader raises on a zero step exactly when some sheet has rows: if it raises, the
      step is zero and a sheet with rows exists ... */
  lemma {:induction false} RaisingSheet(source: string, shs: seq<SheetData>, rpc: int) returns (k: nat)
    requires BookOutcome(source, shs, rpc).None?
    ensures rpc == 0 && k < |shs| && |shs[k].rows| > 0
  {
    var init := shs[..|shs| - 1];
    if BookOutcome(source, init, rpc).None? {
      k := RaisingSheet(source, init, rpc);
    } else {
      k := |shs| - 1;
    }
  }

  /** ... and with a zero step, any sheet with rows makes it raise. */
  lemma SheetRaises(source: string, shs: seq<SheetData>, rpc: int, k: nat)
    requires rpc == 0 && k < |shs| && |shs[k].rows| > 0
    ensures BookOutcome(source, shs, rpc).None?
  {
    assert shs[..k + 1][..k] == shs[..k];
    RaisePersists(source, shs[..k + 1], shs, rpc);
  }

  /** Each record of a workbook comes from one of its sheets. */
  lemma {:induction false} BookRecordOrigin(source: string, shs: seq<SheetData>, rpc: int, j: nat) returns (k: nat, i: nat)
    requires BookOutcome(source, shs, rpc).Some? && j < |BookOutcome(source, shs, rpc).value|
    ensures rpc > 0 && k < |shs| && i < |SheetRecords(source, shs[k], rpc)|
    ensures BookOutcome(source, shs, rpc).value[j] == SheetRecords(source, shs[k], rpc)[i]
  {
    var init := shs[..|shs| - 1];
    var ms := BookOutcome(source, init, rpc).value;
    if j < |ms| {
      k, i := BookRecordOrigin(source, init, rpc, j);
    } else {
      k, i := |shs| - 1, j - |ms|;
    }
  }

  /** Twelve rows, five per chunk: the loop visits rows 1-5, 6-10 and 11-12. */
  lemma TwelveRowsExample(texts: seq<string>)
    requires |texts| == 12
    ensures var gs := RowGroups(texts, 0, 5);
      |gs| == 3 && gs[0].start + 1 == 1 && gs[0].end == 5 && gs[1].start + 1 == 6 && gs[1].end == 10
      && gs[2].start + 1 == 11 && gs[2].end == 12
  {
    assert RowGroups(texts, 15, 5) == [];
    var g2 := RowGroups(texts, 10, 5);
    assert g2 == [RowGroup(10, 12, Join(texts[10..12], " "))];
    var g1 := RowGroups(texts, 5, 5);
    assert g1 == [RowGroup(5, 10, Join(texts[5..10], " "))] + g2;
  }
}
