/** The batch loop both `embed_and_upsert` variants share: positions `0..total-1`
    are cut into batches of `batch_size`, the i-th chunk becomes the tuple
    `("<filename>_<i>", embeddings[i], metadata[i])`, and each batch is one upsert
    request. A batch whose metadata runs out raises before its request is sent,
    and an upsert the index rejects raises too; either way the batches before it
    have been sent and stay in the index.

    The loop is specified in three layers: `Spans` tiles the positions into
    batches, `FirstStop` finds the batch that raises, and `Tuples` says what a
    batch's request carries. */
module UpsertBatching {
  import opened Common
  import opened Records
  import opened VectorStore

  /** Why an `embed_and_upsert` call raised. */
  datatype UpsertError =
    | NoMetadata           // `metadata[0]` on an empty list
    | MissingSource        // `metadata[0]['source']` without the key
    | ZeroBatchSize        // `range(0, total, 0)`
    | MetadataTooShort     // `metadata[i]` past the end inside a batch
    | UpsertRaised(batch: nat)   // the index rejected this batch's request

  /** The tuples for positions `lo..hi-1`, in order. */
  function Tuples(filename: string, embs: seq<Vector>, metas: seq<MetaDict>, lo: nat, hi: nat): (vs: seq<Upserted>)
    requires lo <= hi <= |embs| && hi <= |metas|
    ensures |vs| == hi - lo
    decreases hi
  {
    if hi == lo then []
    else Tuples(filename, embs, metas, lo, hi - 1) + [Upserted(VectorId(filename, hi - 1), embs[hi - 1], metas[hi - 1])]
  }

  /** The tuple of position `lo + j` pairs its id with its embedding and its metadata dict. */
  lemma {:induction false} TupleAt(filename: string, embs: seq<Vector>, metas: seq<MetaDict>, lo: nat, hi: nat, j: nat)
    requires lo <= hi <= |embs| && hi <= |metas| && j < hi - lo
    ensures Tuples(filename, embs, metas, lo, hi)[j] == Upserted(VectorId(filename, lo + j), embs[lo + j], metas[lo + j])
    decreases hi
  {
    if j < hi - 1 - lo {
      TupleAt(filename, embs, metas, lo, hi - 1, j);
    }
  }

  /** The ids of a tuple range are the file's id range. */
  lemma TupleIds(filename: string, embs: seq<Vector>, metas: seq<MetaDict>, lo: nat, hi: nat)
    requires lo <= hi <= |embs| && hi <= |metas|
    ensures Ids(Tuples(filename, embs, metas, lo, hi)) == IdRange(filename, lo, hi)
  {
    forall j | 0 <= j < hi - lo
      ensures Ids(Tuples(filename, embs, metas, lo, hi))[j] == IdRange(filename, lo, hi)[j]
    {
      TupleAt(filename, embs, metas, lo, hi, j);
    }
  }

  /** Two adjacent tuple ranges make the range that spans both. */
  lemma {:induction false} TuplesSplit(filename: string, embs: seq<Vector>, metas: seq<MetaDict>, lo: nat, mid: nat, hi: nat)
    requires lo <= mid <= hi <= |embs| && hi <= |metas|
    ensures Tuples(filename, embs, metas, lo, mid) + Tuples(filename, embs, metas, mid, hi)
         == Tuples(filename, embs, metas, lo, hi)
    decreases hi
  {
    if hi > mid {
      TuplesSplit(filename, embs, metas, lo, mid, hi - 1);
    }
  }

  /** The positions `lo..hi-1` one batch covers. */
  datatype Span = Span(lo: nat, hi: nat)

  /** The batches of `range(start, total, bs)`, each cut at `min(lo + bs, total)`. */
  function Spans(total: nat, start: nat, bs: int): seq<Span>
    requires bs > 0
    decreases total - start
  {
    if start >= total then [] else [Span(start, SpanEnd(start, bs, total))] + Spans(total, start + bs, bs)
  }

  /** The batches tile `start..total-1`: the first starts at `start`, each ends where
      the next begins, the last ends at `total`, and each covers between 1 and `bs`
      positions. */
  lemma {:induction false} SpansTile(total: nat, start: nat, bs: int, k: nat)
    requires bs > 0 && k < |Spans(total, start, bs)|
    ensures var sp := Spans(total, start, bs);
      && (k == 0 ==> sp[k].lo == start)
      && sp[k].lo < sp[k].hi <= sp[k].lo + bs && sp[k].hi <= total
      && (k + 1 < |sp| ==> sp[k].hi == sp[k + 1].lo)
      && (k + 1 == |sp| ==> sp[k].hi == total)
    decreases total - start
  {
    if k > 0 {
      SpansTile(total, start + bs, bs, k - 1);
    } else if start + bs < total {
      SpansTile(total, start + bs, bs, 0);
    }
  }

  /** Batch k starts at position `start + k * bs`. */
  lemma {:induction false} SpanStart(total: nat, start: nat, bs: int, k: nat, off: nat)
    requires bs > 0 && off == k * bs && k < |Spans(total, start, bs)|
    ensures Spans(total, start, bs)[k] == Span(start + off, SpanEnd(start + off, bs, total))
    decreases k
  {
    if k > 0 {
      MulPred(k, bs);
      SpanStart(total, start + bs, bs, k - 1, off - bs);
    }
  }

  lemma MulPred(k: nat, bs: int)
    requires k > 0
    ensures k * bs - bs == (k - 1) * bs
  {
  }

  /** Batch k raises: its metadata runs out, or it is the batch the index rejects. */
  predicate Stops(sp: Span, k: nat, available: nat, failAt: Option<nat>)
  {
    sp.hi > available || failAt == Some(k)
  }

  /** The first batch from k on that raises, or `|spans|` when none does. */
  function FirstStop(spans: seq<Span>, available: nat, failAt: Option<nat>, k: nat): (n: nat)
    requires k <= |spans|
    ensures k <= n <= |spans|
    decreases |spans| - k
  {
    if k == |spans| || Stops(spans[k], k, available, failAt) then k
    else FirstStop(spans, available, failAt, k + 1)
  }

  /** No batch between k and the first stop raises. */
  lemma {:induction false} FirstStopSpec(spans: seq<Span>, available: nat, failAt: Option<nat>, k: nat, j: nat)
    requires k <= |spans| && k <= j < FirstStop(spans, available, failAt, k)
    ensures !Stops(spans[j], j, available, failAt)
    decreases |spans| - k
  {
    if k < j {
      FirstStopSpec(spans, available, failAt, k + 1, j);
    }
  }

  /** The first stop, when there is one, raises. */
  lemma {:induction false} FirstStopStops(spans: seq<Span>, available: nat, failAt: Option<nat>, k: nat)
    requires k <= |spans|
    ensures var n := FirstStop(spans, available, failAt, k);
      n < |spans| ==> Stops(spans[n], n, available, failAt)
    decreases |spans| - k
  {
    if k < |spans| && !Stops(spans[k], k, available, failAt) {
      FirstStopStops(spans, available, failAt, k + 1);
    }
  }

  /** The batches a call sends, the position every sent tuple lies below, and the
      error that ended it early, if any. */
  datatype Run = Run(spans: seq<Span>, reached: nat, error: Option<UpsertError>)

  /** The run over `total` embeddings and `available` metadata dicts; `failAt` is the
      batch whose upsert the index rejects, if any. */
  function Plan(total: nat, available: nat, bs: int, failAt: Option<nat>): Run
    requires bs > 0
  {
    var all := Spans(total, 0, bs);
    var n := FirstStop(all, available, failAt, 0);
    if n == |all| then Run(all, total, None)
    else Run(all[..n], all[n].lo, Some(if all[n].hi > available then MetadataTooShort else UpsertRaised(n)))
  }

  /** How a call ends: it reaches the last position exactly when no error stopped it,
      and it never sends a position past the metadata; `MetadataTooShort` only when
      there are fewer dicts than embeddings; a rejected batch is the one `failAt`
      names, and every batch before it was sent. */
  lemma RunOutcome(total: nat, available: nat, bs: int, failAt: Option<nat>)
    requires bs > 0
    ensures var run := Plan(total, available, bs, failAt);
      && run.reached <= total && run.reached <= available
      && (run.error == None <==> run.reached == total)
      && (run.error == Some(MetadataTooShort) ==> available < total)
      && (run.error.Some? && run.error.value.UpsertRaised? ==>
            failAt == Some(run.error.value.batch) && run.error.value.batch == |run.spans|)
      && (failAt.None? && total <= available ==> run.error == None)
  {
    var all := Spans(total, 0, bs);
    var n := FirstStop(all, available, failAt, 0);
    FirstStopStops(all, available, failAt, 0);
    if n > 0 {
      FirstStopSpec(all, available, failAt, 0, n - 1);
      SpansTile(total, 0, bs, n - 1);
    }
    if n < |all| {
      SpansTile(total, 0, bs, n);
    }
  }

  /** The batches a call sends tile `0..reached-1`, each of 1 to `bs` positions, and
      all of them below the metadata's end. */
  lemma SentTile(total: nat, available: nat, bs: int, failAt: Option<nat>, k: nat)
    requires bs > 0 && k < |Plan(total, available, bs, failAt).spans|
    ensures var run := Plan(total, available, bs, failAt);
      && (k == 0 ==> run.spans[k].lo == 0)
      && run.spans[k].lo < run.spans[k].hi <= run.spans[k].lo + bs
      && run.spans[k].hi <= total && run.spans[k].hi <= available
      && (k + 1 < |run.spans| ==> run.spans[k].hi == run.spans[k + 1].lo)
      && (k + 1 == |run.spans| ==> run.spans[k].hi == run.reached)
  {
    var all := Spans(total, 0, bs);
    var n := FirstStop(all, available, failAt, 0);
    SpansTile(total, 0, bs, k);
    FirstStopSpec(all, available, failAt, 0, k);
    if k + 1 < |all| {
      SpansTile(total, 0, bs, k + 1);
    }
  }

  /** The upsert requests for the batches, one per batch, in order (a batch outside the
      lists, which a call never sends, would carry nothing). */
  function Upserts(filename: string, embs: seq<Vector>, metas: seq<MetaDict>, spans: seq<Span>): (rs: seq<Request>)
    ensures |rs| == |spans|
    decreases |spans|
  {
    if spans == [] then []
    else
      var sp := spans[|spans| - 1];
      var vs := if sp.lo <= sp.hi <= |embs| && sp.hi <= |metas| then Tuples(filename, embs, metas, sp.lo, sp.hi) else [];
      Upserts(filename, embs, metas, spans[..|spans| - 1]) + [UpsertRequest(vs)]
  }

  /** Sending one more batch extends the request list by that batch's request. */
  lemma UpsertsSnoc(filename: string, embs: seq<Vector>, metas: seq<MetaDict>, spans: seq<Span>, lo: nat, hi: nat)
    requires lo <= hi <= |embs| && hi <= |metas|
    ensures Upserts(filename, embs, metas, spans + [Span(lo, hi)])
         == Upserts(filename, embs, metas, spans) + [UpsertRequest(Tuples(filename, embs, metas, lo, hi))]
  {
    assert (spans + [Span(lo, hi)])[..|spans + [Span(lo, hi)]| - 1] == spans;
  }

  /** Request k carries the tuples of batch k. */
  lemma {:induction false} UpsertAt(filename: string, embs: seq<Vector>, metas: seq<MetaDict>, spans: seq<Span>, k: nat)
    requires k < |spans| && spans[k].lo <= spans[k].hi <= |embs| && spans[k].hi <= |metas|
    ensures Upserts(filename, embs, metas, spans)[k] == UpsertRequest(Tuples(filename, embs, metas, spans[k].lo, spans[k].hi))
    decreases |spans|
  {
    if k < |spans| - 1 {
      UpsertAt(filename, embs, metas, spans[..|spans| - 1], k);
    }
  }

  /** Serving the sent requests leaves the index as if positions `0..reached-1` had been
      upserted in one request. */
  lemma Delivered(entries: map<string, Entry>, filename: string, embs: seq<Vector>, metas: seq<MetaDict>,
                  bs: int, failAt: Option<nat>)
    requires bs > 0
    ensures var run := Plan(|embs|, |metas|, bs, failAt);
      run.reached <= |embs| && run.reached <= |metas| &&
      ApplyAll(entries, Upserts(filename, embs, metas, run.spans)) == Put(entries, Tuples(filename, embs, metas, 0, run.reached))
  {
    var run := Plan(|embs|, |metas|, bs, failAt);
    RunOutcome(|embs|, |metas|, bs, failAt);
    SentChained(|embs|, |metas|, bs, failAt, |run.spans|);
    assert run.spans[..|run.spans|] == run.spans;
    if |run.spans| > 0 {
      SentTile(|embs|, |metas|, bs, failAt, |run.spans| - 1);
    }
    ChainedDelivers(entries, filename, embs, metas, run.spans, run.reached);
  }

  /** The batches run back to back from position 0 up to `upTo`. */
  predicate Chained(spans: seq<Span>, upTo: nat)
    decreases |spans|
  {
    if spans == [] then upTo == 0
    else
      var sp := spans[|spans| - 1];
      sp.hi == upTo && sp.lo <= sp.hi && Chained(spans[..|spans| - 1], sp.lo)
  }

  /** Requests for back-to-back batches from 0 to `upTo` have the effect of one upsert of
      positions `0..upTo-1`. */
  lemma {:induction false} ChainedDelivers(entries: map<string, Entry>, filename: string, embs: seq<Vector>, metas: seq<MetaDict>,
                                           spans: seq<Span>, upTo: nat)
    requires Chained(spans, upTo) && upTo <= |embs| && upTo <= |metas|
    ensures ApplyAll(entries, Upserts(filename, embs, metas, spans)) == Put(entries, Tuples(filename, embs, metas, 0, upTo))
    decreases |spans|
  {
    if spans != [] {
      var init := spans[..|spans| - 1];
      var lo := spans[|spans| - 1].lo;
      ChainedDelivers(entries, filename, embs, metas, init, lo);
      var r := UpsertRequest(Tuples(filename, embs, metas, lo, upTo));
      assert Upserts(filename, embs, metas, spans) == Upserts(filename, embs, metas, init) + [r];
      ApplyAllSnoc(entries, Upserts(filename, embs, metas, init), r);
      PutConcat(entries, Tuples(filename, embs, metas, 0, lo), Tuples(filename, embs, metas, lo, upTo));
      TuplesSplit(filename, embs, metas, 0, lo, upTo);
    }
  }

  /** The first k sent batches run back to back from 0 to the end of batch k-1. */
  lemma {:induction false} SentChained(total: nat, available: nat, bs: int, failAt: Option<nat>, k: nat)
    requires bs > 0 && k <= |Plan(total, available, bs, failAt).spans|
    ensures var spans := Plan(total, available, bs, failAt).spans;
      Chained(spans[..k], if k == 0 then 0 else spans[k - 1].hi)
    decreases k
  {
    var spans := Plan(total, available, bs, failAt).spans;
    if k > 0 {
      SentChained(total, available, bs, failAt, k - 1);
      SentTile(total, available, bs, failAt, k - 1);
      if k > 1 {
        SentTile(total, available, bs, failAt, k - 2);
      }
      assert spans[..k][..k - 1] == spans[..k - 1];
    }
  }

  /** After positions `0..n-1` were sent, the id of position i < n holds its
      embedding and its metadata dict. */
  lemma StoredAt(entries: map<string, Entry>, filename: string, embs: seq<Vector>, metas: seq<MetaDict>, n: nat, i: nat)
    requires i < n <= |embs| && n <= |metas|
    ensures var after := Put(entries, Tuples(filename, embs, metas, 0, n));
      VectorId(filename, i) in after && after[VectorId(filename, i)] == Entry(embs[i], metas[i])
  {
    var vs := Tuples(filename, embs, metas, 0, n);
    TupleIds(filename, embs, metas, 0, n);
    IdRangeDistinct(filename, 0, n);
    assert forall j, k :: 0 <= j < k < |vs| ==> Ids(vs)[j] != Ids(vs)[k];
    TupleAt(filename, embs, metas, 0, n, i);
    PutLookup(entries, vs, i);
  }

  /** Sending positions `0..n-1` adds only the ids `"<filename>_<i>"` for i < n; any
      other id keeps its entry or its absence. */
  lemma OthersKept(entries: map<string, Entry>, filename: string, embs: seq<Vector>, metas: seq<MetaDict>, n: nat, key: string)
    requires n <= |embs| && n <= |metas|
    requires key !in IdRange(filename, 0, n)
    ensures var after := Put(entries, Tuples(filename, embs, metas, 0, n));
      (key in after <==> key in entries) && (key in entries ==> after[key] == entries[key])
  {
    TupleIds(filename, embs, metas, 0, n);
    PutKeys(entries, Tuples(filename, embs, metas, 0, n), key);
  }

  /** The inner loop: the tuples of positions `start..end-1`, or `None` when the
      metadata list runs out first (the `IndexError` of `metadata[i]`). */
  method BuildBatch(filename: string, embs: seq<Vector>, metas: seq<MetaDict>, start: nat, end: nat)
    returns (batch: Option<seq<Upserted>>)
    requires start <= end <= |embs| && start <= |metas|
    ensures batch.Some? <==> end <= |metas|
    ensures batch.Some? ==> batch.value == Tuples(filename, embs, metas, start, end)
  {
    var vs: seq<Upserted> := [];
    var i := start;
    while i < end
      invariant start <= i <= end && i <= |metas|
      invariant vs == Tuples(filename, embs, metas, start, i)
    {
      if i >= |metas| {
        return None;
      }
      vs := vs + [Upserted(VectorId(filename, i), embs[i], metas[i])];
      i := i + 1;
    }
    return Some(vs);
  }

  /** Loop bookkeeping: the batches done, then those from `start`, make up the whole
      tiling. */
  predicate Tiled(done: seq<Span>, total: nat, start: nat, bs: int, all: seq<Span>)
    requires bs > 0
  {
    done + Spans(total, start, bs) == all
  }

  /** Loop bookkeeping: past the end, the batches done are all of them. */
  lemma TiledDone(done: seq<Span>, total: nat, start: nat, bs: int, all: seq<Span>)
    requires bs > 0 && start >= total && Tiled(done, total, start, bs, all)
    ensures done == all
  {
    assert done + [] == done;
  }

  /** Loop bookkeeping: the batch at `start` is the next one of the whole tiling. */
  lemma LoopAt(done: seq<Span>, all: seq<Span>, total: nat, start: nat, bs: int)
    requires bs > 0 && start < total && Tiled(done, total, start, bs, all)
    ensures |done| < |all| && all[|done|] == Span(start, SpanEnd(start, bs, total))
    ensures done == all[..|done|]
  {
    var sp := Span(start, SpanEnd(start, bs, total));
    assert Spans(total, start, bs) == [sp] + Spans(total, start + bs, bs);
    assert all[|done|] == sp;
  }

  /** Loop bookkeeping: once the batch at `start` is done, the rest start a stride on. */
  lemma LoopStep(done: seq<Span>, all: seq<Span>, total: nat, start: nat, bs: int, done': seq<Span>, start': nat)
    requires bs > 0 && start < total && Tiled(done, total, start, bs, all)
    requires done' == done + [Span(start, SpanEnd(start, bs, total))] && start' == start + bs
    ensures Tiled(done', total, start', bs, all)
  {
    var sp, rest := Span(start, SpanEnd(start, bs, total)), Spans(total, start', bs);
    assert Spans(total, start, bs) == [sp] + rest;
    AppendAssoc(done, [sp], rest);
  }

  /** Loop bookkeeping: when batch b raises, the batches done are exactly the run's. */
  lemma LoopHalt(done: seq<Span>, all: seq<Span>, available: nat, failAt: Option<nat>, total: nat, bs: int)
    requires bs > 0 && all == Spans(total, 0, bs) && |done| < |all| && done == all[..|done|]
    requires FirstStop(all, available, failAt, |done|) == FirstStop(all, available, failAt, 0)
    requires Stops(all[|done|], |done|, available, failAt)
    ensures Plan(total, available, bs, failAt).spans == done
    ensures Plan(total, available, bs, failAt).error
         == Some(if all[|done|].hi > available then MetadataTooShort else UpsertRaised(|done|))
  {
  }

  /** One pass of the outer loop: build the batch at `start` and send it, unless the
      metadata runs out or the upsert raises, which ends the run as `Plan` says. */
  method SendNext(filename: string, embs: seq<Vector>, metas: seq<MetaDict>, bs: int, failAt: Option<nat>,
                  start: nat, b: nat, sent: seq<Request>, ghost done: seq<Span>, ghost all: seq<Span>)
    returns (stop: Option<UpsertError>, sent': seq<Request>, ghost done': seq<Span>, start': nat)
    requires bs > 0 && start < |embs| && start <= |metas| && b == |done|
    requires all == Spans(|embs|, 0, bs) && Tiled(done, |embs|, start, bs, all)
    requires FirstStop(all, |metas|, failAt, b) == FirstStop(all, |metas|, failAt, 0)
    requires sent == Upserts(filename, embs, metas, done)
    ensures var run := Plan(|embs|, |metas|, bs, failAt);
      stop.Some? ==> stop == run.error && sent == Upserts(filename, embs, metas, run.spans)
    ensures stop.None? ==>
        && done' == done + [Span(start, SpanEnd(start, bs, |embs|))] && |done'| == b + 1 <= |all|
        && start' == start + bs && Tiled(done', |embs|, start', bs, all)
        && (start' < |embs| ==> start' <= |metas|)
        && FirstStop(all, |metas|, failAt, b + 1) == FirstStop(all, |metas|, failAt, 0)
        && sent' == Upserts(filename, embs, metas, done')
  {
    var end := SpanEnd(start, bs, |embs|);
    LoopAt(done, all, |embs|, start, bs);
    var batch := BuildBatch(filename, embs, metas, start, end);
    if batch.None? || failAt == Some(b) {
      LoopHalt(done, all, |metas|, failAt, |embs|, bs);
      stop := Some(if batch.None? then MetadataTooShort else UpsertRaised(b));
      sent', done', start' := sent, done, start;
      return;
    }
    UpsertsSnoc(filename, embs, metas, done, start, end);
    stop, done', start' := None, done + [Span(start, end)], start + bs;
    LoopStep(done, all, |embs|, start, bs, done', start');
    sent' := sent + [UpsertRequest(batch.value)];
  }

  /** The outer loop over batch starts: build each batch, then send it. */
  method UpsertAll(filename: string, embs: seq<Vector>, metas: seq<MetaDict>, bs: int, failAt: Option<nat>)
    returns (sent: seq<Request>, err: Option<UpsertError>)
    requires bs > 0
    ensures var run := Plan(|embs|, |metas|, bs, failAt);
      err == run.error && sent == Upserts(filename, embs, metas, run.spans)
  {
    ghost var all := Spans(|embs|, 0, bs);
    ghost var done: seq<Span> := [];
    sent := [];
    var start: nat := 0;
    var b: nat := 0;
    while start < |embs|
      invariant b == |done| <= |all| && Tiled(done, |embs|, start, bs, all)
      invariant start < |embs| ==> start <= |metas|
      invariant FirstStop(all, |metas|, failAt, b) == FirstStop(all, |metas|, failAt, 0)
      invariant sent == Upserts(filename, embs, metas, done)
      decreases |embs| - start
    {
      var stop, next;
      stop, next, done, start := SendNext(filename, embs, metas, bs, failAt, start, b, sent, done, all);
      if stop.Some? {
        return sent, stop;
      }
      sent := next;
      b := b + 1;
    }
    TiledDone(done, |embs|, start, bs, all);
    err := None;
  }
}
