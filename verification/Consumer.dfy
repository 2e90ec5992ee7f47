/** A consumer reading a partition to its end, and the archive read path. */
module Consumer {
  import opened Bytes
  import opened Record
  import opened Framing
  import opened Offsets
  import opened Layout
  import opened Segments
  import opened LogModel
  import opened Fetching
  import opened Logs

  // ---- looping on FetchAt ------------------------------------------------------

  /** Where a segment's batch stands in the flat log. */
  lemma {:induction false} FlatIndex(segs: seq<Seg>, offset: int)
    requires Chain(segs) && segs[0].base <= offset < Hwm(segs)
    ensures var i := SegAt(segs, offset); var bs := segs[i].batches; var j := BatchAt(bs, offset);
            var g := |Flat(segs[..i])|;
            && BatchAt(Flat(segs), offset) == g + j
            && g + |bs| <= |Flat(segs)| && Flat(segs)[g..g + |bs|] == bs
  {
    var i := SegAt(segs, offset);
    SegAtHolds(segs, offset);
    FlatSlice(segs, i);
    ChainIsDense(segs);
    BatchAtHolds(segs[i].base, segs[i].batches, offset);
    SliceAt(segs[0].base, Flat(segs), offset, |Flat(segs[..i])|, segs[i].batches);
  }

  /** A stretch of a dense run that holds the offset holds it where the run does. */
  lemma {:induction false} SliceAt(base: int, f: seq<Batch>, offset: int, g: nat, bs: seq<Batch>)
    requires Dense(base, f) && g + |bs| <= |f| && f[g..g + |bs|] == bs
    requires BatchAt(bs, offset) < |bs| && bs[BatchAt(bs, offset)].Contains(offset)
    ensures BatchAt(f, offset) == g + BatchAt(bs, offset)
  {
    var j := BatchAt(bs, offset);
    assert f[g + j] == bs[j];
    BatchAtUnique(base, f, offset, g + j);
  }

  lemma {:induction false} FlatSlice(segs: seq<Seg>, i: nat)
    requires i < |segs|
    ensures var g := |Flat(segs[..i])|;
            g + |segs[i].batches| <= |Flat(segs)| && Flat(segs)[g..g + |segs[i].batches|] == segs[i].batches
  {
    assert segs == segs[..i] + segs[i..];
    FlatConcat(segs[..i], segs[i..]);
    assert Flat(segs[i..]) == segs[i].batches + Flat(segs[i..][1..]);
  }

  lemma StretchEnd(base: int, f: seq<Batch>, offset: int, n: nat)
    requires Dense(base, f) && base <= offset < Next(base, f)
    requires 0 < n && BatchAt(f, offset) + n <= |f|
    ensures var last := f[BatchAt(f, offset) + n - 1].last;
            offset < last + 1 <= Next(base, f) && BatchAt(f, last + 1) == BatchAt(f, offset) + n
  {
    BatchAtHolds(base, f, offset);
    var at := BatchAt(f, offset);
    var k := at + n - 1;
    if n > 1 {
      DenseOrder(base, f, at, k);
    }
    DenseAt(base, f, k);
    BatchAtHolds(base, f, f[k].last + 1);
    if k + 1 < |f| {
      DenseAt(base, f, k + 1);
      assert f[..k + 1][k] == f[k];
      BatchAtUnique(base, f, f[k].last + 1, k + 1);
    }
  }

  lemma {:induction false} FlatIntact(segs: seq<Seg>)
    requires forall i :: 0 <= i < |segs| ==> AllIntact(Any, segs[i].batches)
    ensures AllIntact(Any, Flat(segs))
  {
    if segs != [] {
      FlatIntact(segs[1..]);
      IntactConcat(Any, segs[0].batches, Flat(segs[1..]));
    }
  }

  lemma LogIntact(log: Log)
    requires log.Valid()
    ensures AllIntact(Any, Flat(log.View()))
  {
    forall i | 0 <= i < |log.View()|
      ensures AllIntact(Any, log.View()[i].batches)
    {
      if i < |log.sealed| {
        assert Depicts(true, log.sealed[i], log.history[i]);
        ScanSound(Any, log.sealed[i].file);
        ReadAllIntact(Any, log.sealed[i].Batches());
      } else {
        ReadAllIntact(Any, log.active.batches);
      }
    }
    FlatIntact(log.View());
  }

  /** A consumer that keeps fetching from the offset after the last one it saw
      terminates having received every batch from its starting offset to the
      high watermark, each once and in order. */
  method ConsumeAll(log: Log, offset: int, maxBytes: nat) returns (got: seq<bytes>)
    requires log.Valid() && Chain(log.View()) && maxBytes >= HEADER_SIZE
    requires log.View()[0].base <= offset <= Hwm(log.View())
    ensures got == Raws(Flat(log.View()))[BatchAt(Flat(log.View()), offset)..]
  {
    ghost var segs := log.View();
    ghost var f, top := Flat(segs), Hwm(segs);
    AtHwm(segs);
    LogIntact(log);
    got := [];
    var at := offset;
    while at < log.active.nextOffset
      invariant segs[0].base <= at <= top && Received(f, offset, at, got)
      decreases top - at
    {
      var batches, next := FetchBatches(log, at, maxBytes, segs, f);
      ReceivedMore(f, offset, at, got, batches, next, top);
      got := got + batches;
      at := next;
    }
    ReceivedAll(f, offset, at, got);
  }

  /** Everything from the batch of one offset up to the batch of another. */
  ghost predicate Received(f: seq<Batch>, offset: int, at: int, got: seq<bytes>) {
    BatchAt(f, offset) <= BatchAt(f, at) && got == Raws(f)[BatchAt(f, offset)..BatchAt(f, at)]
  }

  lemma ReceivedMore(f: seq<Batch>, offset: int, at: int, got: seq<bytes>, batches: seq<bytes>, next: int, top: int)
    requires Received(f, offset, at, got) && ReadsOn(f, at, batches, next, top)
    ensures Received(f, offset, next, got + batches)
  {
    AppendSlice(Raws(f), BatchAt(f, offset), BatchAt(f, at), BatchAt(f, next));
  }

  lemma {:induction false} ReceivedAll(f: seq<Batch>, offset: int, at: int, got: seq<bytes>)
    requires Received(f, offset, at, got) && BatchAt(f, at) == |f|
    ensures got == Raws(f)[BatchAt(f, offset)..]
  {
  }

  /** Fetching `raws` at an offset is reading on in the flat log f, up to `next`. */
  ghost predicate ReadsOn(f: seq<Batch>, at: int, raws: seq<bytes>, next: int, top: int) {
    var i := BatchAt(f, at);
    && i + |raws| <= |f| && raws == Raws(f)[i..i + |raws|]
    && at < next <= top && BatchAt(f, next) == i + |raws|
  }

  /** One fetch, decoded. */
  method FetchBatches(log: Log, at: int, maxBytes: nat, ghost segs: seq<Seg>, ghost f: seq<Batch>)
    returns (batches: seq<bytes>, next: int)
    requires log.Valid() && segs == log.View() && f == Flat(segs) && AllIntact(Any, f)
    requires Chain(segs) && maxBytes >= HEADER_SIZE && segs[0].base <= at < Hwm(segs)
    ensures batches != [] && ReadsOn(f, at, batches, next, Hwm(segs))
  {
    ghost var raws, after := FetchReadsOn(segs, at, maxBytes);
    var data := FetchData(log, at, maxBytes, segs, raws);
    batches, next := Decode(data, raws);
    SameReads(f, at, raws, after, Hwm(segs), batches, next);
  }

  lemma SameReads(f: seq<Batch>, at: int, raws: seq<bytes>, after: int, top: int, batches: seq<bytes>, next: int)
    requires ReadsOn(f, at, raws, after, top) && batches == raws && next == after
    ensures ReadsOn(f, at, batches, next, top)
  {
  }

  method FetchData(log: Log, at: int, maxBytes: nat, ghost segs: seq<Seg>, ghost raws: seq<bytes>) returns (data: bytes)
    requires log.Valid() && segs == log.View() && Chain(segs)
    requires LogFetch(segs, at, maxBytes).Fetched? && LogFetch(segs, at, maxBytes).data == Join(raws)
    ensures data == Join(raws)
  {
    ChainOrdered(segs);
    var r := log.FetchAt(at, maxBytes);
    data := r.data;
  }

  method Decode(data: bytes, ghost raws: seq<bytes>) returns (batches: seq<bytes>, next: int)
    requires raws != [] && AllFramed(Any, raws) && data == Join(raws)
    ensures batches == raws && next == Read(raws[|raws| - 1]).last + 1
  {
    SplitsWhenScanned(data);
    var split := SplitBatches(data);
    batches := split.batches;
    next := Read(batches[|batches| - 1]).last + 1;
  }

  /** A fetch returns a non-empty stretch of whole batches of the flat log, starting
      with the one that holds the offset; a fetch at the offset after it goes on
      right behind it. */
  lemma FetchReadsOn(segs: seq<Seg>, at: int, maxBytes: nat) returns (raws: seq<bytes>, next: int)
    requires Chain(segs) && segs[0].base <= at < Hwm(segs) && maxBytes >= HEADER_SIZE
    requires AllIntact(Any, Flat(segs))
    ensures raws != [] && AllFramed(Any, raws) && next == Read(raws[|raws| - 1]).last + 1
    ensures LogFetch(segs, at, maxBytes).Fetched? && LogFetch(segs, at, maxBytes).data == Join(raws)
    ensures ReadsOn(Flat(segs), at, raws, next, Hwm(segs))
  {
    SegAtHolds(segs, at);
    FlatIndex(segs, at);
    ChainIsDense(segs);
    var i := SegAt(segs, at);
    var bs := segs[i].batches;
    raws := FetchRun(Raws(bs), BatchAt(bs, at), maxBytes);
    next := StretchReadsOn(segs[0].base, Flat(segs), at, |Flat(segs[..i])|, bs, raws);
  }

  lemma {:induction false} StretchReadsOn(base: int, f: seq<Batch>, at: int, g: nat, bs: seq<Batch>, raws: seq<bytes>)
    returns (next: int)
    requires Dense(base, f) && base <= at < Next(base, f) && AllIntact(Any, f)
    requires g + |bs| <= |f| && f[g..g + |bs|] == bs && BatchAt(f, at) == g + BatchAt(bs, at)
    requires BatchAt(bs, at) < |bs| && raws != [] && raws <= Raws(bs)[BatchAt(bs, at)..]
    ensures AllFramed(Any, raws) && next == Read(raws[|raws| - 1]).last + 1
    ensures ReadsOn(f, at, raws, next, Next(base, f))
  {
    SliceRaws(f, g, bs, BatchAt(bs, at), raws);
    next := StretchNext(base, f, at, raws);
  }

  lemma {:induction false} StretchNext(base: int, f: seq<Batch>, at: int, raws: seq<bytes>) returns (next: int)
    requires Dense(base, f) && base <= at < Next(base, f) && AllIntact(Any, f)
    requires raws != [] && BatchAt(f, at) + |raws| <= |f| && raws == Raws(f)[BatchAt(f, at)..BatchAt(f, at) + |raws|]
    ensures AllFramed(Any, raws) && next == Read(raws[|raws| - 1]).last + 1
    ensures ReadsOn(f, at, raws, next, Next(base, f))
  {
    var i, n := BatchAt(f, at), |raws|;
    SliceIntact(f, i, i + n);
    StretchEnd(base, f, at, n);
    next := f[i + n - 1].last + 1;
  }

  lemma {:induction false} SliceRaws(f: seq<Batch>, g: nat, bs: seq<Batch>, j: nat, raws: seq<bytes>)
    requires g + |bs| <= |f| && f[g..g + |bs|] == bs && j <= |bs| && raws <= Raws(bs)[j..]
    ensures raws == Raws(f)[g + j..g + j + |raws|]
  {
    forall k | 0 <= k < |raws|
      ensures raws[k] == f[g + j + k].raw
    {
      assert raws[k] == Raws(bs)[j..][k] == bs[j + k].raw;
      assert bs[j + k] == f[g + (j + k)];
    }
  }

  lemma {:induction false} SliceIntact(f: seq<Batch>, a: nat, b: nat)
    requires AllIntact(Any, f) && a < b <= |f|
    ensures AllFramed(Any, Raws(f)[a..b]) && Read(Raws(f)[a..b][b - a - 1]) == f[b - 1]
  {
    IntactAt(Any, f, b - 1);
    forall k | 0 <= k < b - a
      ensures Framed(Raws(f)[a..b][k])
    {
      IntactAt(Any, f, a + k);
    }
  }

  lemma AppendSlice(s: seq<bytes>, a: nat, b: nat, c: nat)
    requires a <= b <= c <= |s|
    ensures s[a..b] + s[b..c] == s[a..c]
  {
  }

  lemma {:induction false} AtHwm(segs: seq<Seg>)
    requires Chain(segs)
    ensures segs[0].base <= Hwm(segs) && BatchAt(Flat(segs), Hwm(segs)) == |Flat(segs)|
  {
    ChainIsDense(segs);
    ChainLast(segs);
    BatchAtHolds(segs[0].base, Flat(segs), Hwm(segs));
  }

  // ---- the archive read path (internal/broker/restore_fetch.go) -----------------------

  /** What the archive answers for a restored segment file: it has no case for an empty
      budget, and past the last batch it is out of range. */
  function ArchiveOutcome(s: Seg, offset: int, maxBytes: nat): FetchOutcome {
    var j := BatchAt(s.batches, offset);
    if j >= |s.batches| then OutOfRange
    else if maxBytes < HEADER_SIZE then Unreadable(ShortHeader)
    else Fetched(Join(FetchRun(Raws(s.batches), j, maxBytes)), s.batches[j].base)
  }

  /** Scans the restored file from byte zero, then reads and trims like the log. */
  method FetchFromArchive(file: bytes, offset: int, maxBytes: nat, ghost base: int, ghost raws: seq<bytes>)
    returns (r: FetchOutcome)
    requires AllFramed(Any, raws) && file == Join(raws)
    requires Dense(base, ReadAll(raws)) && base <= offset
    ensures r == ArchiveOutcome(Seg(base, ReadAll(raws)), offset, maxBytes)
  {
    ghost var goal := BatchAt(ReadAll(raws), offset);
    var startPos := ScanFromZero(file, offset, base, raws);
    if startPos < 0 {
      return OutOfRange;
    }
    RawsOfRead(raws);
    r := ReadArchive(file, startPos, maxBytes, raws, goal);
  }

  /** The window of a restored file, trimmed, or the first batch in full. */
  method ReadArchive(file: bytes, startPos: nat, maxBytes: nat, ghost raws: seq<bytes>, ghost goal: nat)
    returns (r: FetchOutcome)
    requires AllFramed(Any, raws) && goal < |raws| && file == Join(raws) && startPos == PosOf(raws, goal)
    ensures r == if maxBytes == 0 then Unreadable(ShortHeader) else RunOutcome(raws, goal, 0, maxBytes)
  {
    WindowOutcome(raws, goal, maxBytes);
    WholeBatchWindow(raws, goal);
    var want := maxBytes;
    if startPos + want > |file| {
      want := |file| - startPos;
    }
    var buf := file[startPos..startPos + want];
    assert buf == Window(raws, goal, maxBytes);
    var trimmed := TrimToBatchBoundary(buf);
    if |trimmed| > 0 {
      return Fetched(trimmed, Header(trimmed).baseOffset);
    }
    match ParseBatchHeader(buf) {
      case Err(e) => return Unreadable(e);
      case Ok(hdr) =>
        var need := hdr.TotalSize();
        if startPos + need > |file| {
          return OutOfRange;
        }
        r := Fetched(file[startPos..startPos + need], hdr.baseOffset);
    }
  }

  /** The linear scan: the start of the batch holding the offset, or -1. */
  method ScanFromZero(file: bytes, offset: int, ghost base: int, ghost raws: seq<bytes>) returns (startPos: int)
    requires AllFramed(Any, raws) && file == Join(raws)
    requires Dense(base, ReadAll(raws)) && base <= offset
    ensures var goal := BatchAt(ReadAll(raws), offset);
            startPos == if goal < |raws| then PosOf(raws, goal) else -1
  {
    var pos := 0;
    ghost var j := 0;
    assert raws[..0] == [];
    while pos < |file|
      invariant 0 <= j <= BatchAt(ReadAll(raws), offset) && pos == PosOf(raws, j)
      decreases |file| - pos
    {
      ScanReads(base, raws, offset, j);
      var h := ParseBatchHeader(file[pos..pos + HEADER_SIZE]).value;
      if offset >= h.baseOffset && offset <= h.LastOffset() {
        return pos;
      }
      pos := pos + h.TotalSize();
      j := j + 1;
    }
    ScanMissed(raws, j, BatchAt(ReadAll(raws), offset));
    return -1;
  }

  lemma {:induction false} ScanMissed(raws: seq<bytes>, j: nat, goal: nat)
    requires AllFramed(Any, raws) && j <= goal <= |raws| && PosOf(raws, j) >= |Join(raws)|
    ensures goal == |raws|
  {
    FileAt(raws, |raws|);
    if j < |raws| {
      PosOrder(raws, j, |raws|);
    }
  }

  /** For the same bytes and any offset they hold, the archive answers what the
      log would have answered, exactly when the byte budget is not zero. */
  lemma {:induction false} ArchiveAgrees(s: Seg, offset: int, maxBytes: nat)
    requires Dense(s.base, s.batches) && s.base <= offset < s.Next()
    ensures BatchAt(s.batches, offset) < |s.batches|
    ensures ArchiveOutcome(s, offset, maxBytes) == SegFetch(s, offset, maxBytes) <==> maxBytes != 0
  {
    BatchAtHolds(s.base, s.batches, offset);
  }

  /** The indexed read of a segment and the linear scan of its restored file, side by side. */
  method BothPaths(im: Image, offset: int, maxBytes: nat) returns (local: FetchOutcome, archived: FetchOutcome)
    requires im.Good() && Dense(im.base, im.View().batches) && im.base <= offset < im.View().Next()
    ensures local == archived <==> maxBytes != 0
    ensures maxBytes >= HEADER_SIZE ==> local.Fetched? && local.data != []
  {
    ScanSound(Any, im.file);
    ArchiveAgrees(im.View(), offset, maxBytes);
    local := FetchImage(im, offset, maxBytes);
    archived := FetchFromArchive(im.file, offset, maxBytes, im.base, im.Batches());
    if maxBytes >= HEADER_SIZE {
      FetchedSome(im.Batches(), BatchAt(im.View().batches, offset), maxBytes);
    }
  }

  lemma {:induction false} FetchedSome(raws: seq<bytes>, j: nat, maxBytes: nat)
    requires AllFramed(Any, raws) && j < |raws|
    ensures Raws(ReadAll(raws)) == raws && Join(FetchRun(raws, j, maxBytes)) != []
  {
    RawsOfRead(raws);
    var run := FetchRun(raws, j, maxBytes);
    assert run != [] && run[0] == raws[j];
    RunHeader(run);
  }
}
