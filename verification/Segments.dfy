/** One segment: an append-only log file with its indexes. */
module Segments {
  import opened Bytes
  import opened Record
  import opened Samples
  import opened Framing
  import opened Index
  import opened Offsets
  import opened Layout

  const DEFAULT_INTERVAL := 16384

  /** A segment as a value: everything else in it is determined by this. */
  datatype Seg = Seg(base: int, batches: seq<Batch>) {
    function Next(): int { Offsets.Next(base, batches) }
    function File(): bytes { Join(Raws(batches)) }
  }

  /** All there is to a segment for a reader: its file, its next offset and its
      indexes. Sealed segments never change again, so the log keeps them as images. */
  datatype Image = Image(base: int, interval: int, file: bytes, next: int, index: State, times: TimeState) {
    ghost function Batches(): seq<bytes> { Scan(Any, file) }

    ghost function View(): Seg { Seg(base, ReadAll(Batches())) }

    /** The file is a run of whole batches, and the next offset is the end of them. */
    ghost predicate Whole() {
      && file == Join(Batches())
      && next == Next(base, ReadAll(Batches()))
    }

    /** And both indexes are what appending exactly those batches to a fresh segment gives. */
    ghost predicate Good() {
      && Whole()
      && index == Build(interval, Marks(base, Batches()))
      && times == TimeBuild(interval, Marks(base, Batches()))
    }

    /** Through the sparse index, finds the same batch as a scan from byte zero:
        the only one that holds the offset, or the end of the file past the last. */
    method FindBatchAt(target: int) returns (r: Result<int>)
      requires Good() && Dense(base, View().batches) && base <= target
      ensures r == Ok(PosOf(Batches(), BatchAt(View().batches, target)))
    {
      GoodFramed(file);
      ghost var j := BuiltStart(interval, base, Batches(), index.entries, target);
      var startPos := StartOfScan(target);
      r := ScanForward(file, startPos, target, base, Batches(), j);
    }

    method StartOfScan(target: int) returns (startPos: int)
      requires Sorted(index.entries)
      ensures startPos == HitPos(index.entries, (target - base) % UINT32)
    {
      var found;
      startPos, found := LookupPosition(index.entries, target - base);
      if !found {
        startPos := 0;
      }
    }
  }

  /** Up to maxBytes of the file from a position on. */
  method ReadAt(file: bytes, position: nat, maxBytes: nat) returns (buf: bytes)
    ensures buf == if position >= |file| then []
                   else file[position..if position + maxBytes > |file| then |file| else position + maxBytes]
  {
    if position >= |file| {
      return [];
    }
    var want := maxBytes;
    if position + want > |file| {
      want := |file| - position;
    }
    buf := file[position..position + want];
  }

  /** Image `im` holds exactly segment `s`, with the indexes for it if they are `indexed`. */
  ghost predicate Depicts(indexed: bool, im: Image, s: Seg) {
    im.Whole() && im.View() == s && (indexed ==> im.Good())
  }

  lemma {:induction false} GoodFramed(file: bytes)
    ensures AllFramed(Any, Scan(Any, file))
  {
    ScanSound(Any, file);
  }

  /** The index built for some batches is in order and points at or before the one sought. */
  lemma {:induction false} BuiltStart(interval: int, base: int, raws: seq<bytes>, entries: seq<Entry>, target: int)
    returns (j: nat)
    requires AllFramed(Any, raws) && Dense(base, ReadAll(raws)) && base <= target
    requires entries == Build(interval, Marks(base, raws)).entries
    ensures Sorted(entries) && j <= BatchAt(ReadAll(raws), target)
    ensures HitPos(entries, (target - base) % UINT32) == PosOf(raws, j)
  {
    IndexInOrder(interval, base, raws);
    j := IndexAgrees(interval, base, raws, target);
  }

  /** Reads batch headers from a batch start on until one covers the target. */
  method ScanForward(file: bytes, startPos: int, target: int, ghost base: int, ghost raws: seq<bytes>, ghost j0: nat)
    returns (r: Result<int>)
    requires AllFramed(Any, raws) && Dense(base, ReadAll(raws)) && base <= target
    requires file == Join(raws) && j0 <= BatchAt(ReadAll(raws), target) && startPos == PosOf(raws, j0)
    ensures r == Ok(PosOf(raws, BatchAt(ReadAll(raws), target)))
  {
    var pos := startPos;
    ghost var j := j0;
    while pos < |file|
      invariant 0 <= j <= BatchAt(ReadAll(raws), target) && pos == PosOf(raws, j)
      decreases |file| - pos
    {
      ScanReads(base, raws, target, j);
      var h: BatchHeader;
      match ParseBatchHeader(file[pos..pos + HEADER_SIZE]) {
        case Err(e) => return Err(e);
        case Ok(header) => h := header;
      }
      if target >= h.baseOffset && target <= h.LastOffset() {
        return Ok(pos);
      }
      if h.baseOffset > target {
        return Ok(pos);
      }
      pos := pos + h.TotalSize();
      j := j + 1;
    }
    AtTheEnd(raws, j, BatchAt(ReadAll(raws), target));
    return Ok(|file|);
  }

  datatype AppendResult = Stored(first: int, last: int, position: int) | Sealed | Rejected

  class Segment {
    const base: int
    const maxBytes: int
    const idx: OffsetIndex
    const tix: TimeIndex
    var file: bytes
    var logSize: int
    var nextOffset: int
    var sealed: bool
    ghost var batches: seq<bytes>

    ghost function View(): Seg
      reads this
    {
      Seg(base, ReadAll(batches))
    }

    function Snapshot(): Image
      reads this, idx, tix
    {
      Image(base, idx.interval, file, nextOffset,
            State(idx.entries, idx.lastIndexedPos), TimeState(tix.entries, tix.lastIndexedPos, tix.lastTS))
    }

    /** The snapshot is a good image of the segment's batches exactly when the segment is valid. */
    lemma SnapshotIsGood()
      requires Sound()
      ensures Snapshot().Batches() == batches && Snapshot().View() == View() && Snapshot().Whole()
      ensures Snapshot().Good() <==> Valid()
    {
      ScanOfJoin(Any, batches);
    }

    ghost predicate Valid()
      reads this, idx, tix
    {
      && logSize == |file|
      && Holds()
      && IndexesFresh()
    }

    /** All that, but for what the indexes hold. */
    ghost predicate Sound()
      reads this, idx, tix
    {
      logSize == |file| && Holds() && idx.interval == tix.interval
    }

    ghost predicate Keeps(indexed: bool)
      reads this, idx, tix
    {
      Sound() && (indexed ==> IndexesFresh())
    }

    ghost predicate Holds()
      reads this
    {
      && AllFramed(Any, batches)
      && file == Join(batches)
      && nextOffset == Next(base, ReadAll(batches))
    }

    ghost predicate IndexesFresh()
      reads this, idx, tix
    {
      && idx.interval == tix.interval
      && idx.View() == Build(idx.interval, Marks(base, batches))
      && tix.View() == TimeBuild(idx.interval, Marks(base, batches))
    }

    /** OpenSegment: whatever bytes the file holds, keeps the longest run of
        parseable, CRC-valid whole batches. The indexes then agree with the file
        exactly when the file was not empty or the index files were: recovery
        returns early on an empty file and keeps what was loaded. */
    constructor Open(base: int, interval: int, maxBytes: int,
                     disk: bytes, loaded: seq<Entry>, loadedTime: seq<TimeEntry>, crc: Checksum)
      ensures this.base == base && this.maxBytes == maxBytes && !sealed
      ensures fresh(idx) && fresh(tix)
      ensures idx.interval == interval && tix.interval == interval
      ensures batches == Scan(CrcTest(crc), disk) && logSize == |file| && Holds()
      ensures Valid() <==> disk != [] || (loaded == [] && loadedTime == [])
    {
      this.base, this.maxBytes := base, maxBytes;
      idx := new OffsetIndex(interval, loaded);
      tix := new TimeIndex(interval, loadedTime);
      file, logSize, nextOffset, sealed := disk, |disk|, base, false;
      batches := [];
      new;
      Recover(crc);
    }

    method Recover(crc: Checksum)
      requires logSize == |file| && idx.interval == tix.interval
      modifies this, idx, tix
      ensures batches == Scan(CrcTest(crc), old(file)) && logSize == |file| && Holds()
      ensures sealed == old(sealed)
      ensures old(file) != [] ==> Valid()
      ensures old(file) == [] ==> unchanged(idx) && unchanged(tix)
    {
      if logSize == 0 {
        nextOffset := base;
        batches := [];
        return;
      }
      idx.Reset();
      tix.Reset();
      nextOffset := base;
      batches := [];
      var pos := Rescan(crc);
      ScanSound(CrcTest(crc), file);
      if pos < logSize {
        file := file[..pos];
        logSize := pos;
      } else {
        assert file[..pos] == file;
      }
    }

    /** Walks the file from byte zero, noting every good batch, to the first bad one. */
    method Rescan(crc: Checksum) returns (pos: nat)
      requires logSize == |file|
      requires batches == [] && nextOffset == base
      requires idx.View() == EMPTY && tix.View() == TIME_EMPTY && idx.interval == tix.interval
      modifies this`nextOffset, this`batches, idx, tix
      ensures pos <= |file| && batches == Scan(CrcTest(crc), file) && Join(batches) == file[..pos]
      ensures nextOffset == Next(base, ReadAll(batches)) && IndexesFresh()
    {
      pos := 0;
      var more := true;
      while more && pos < logSize
        invariant Scanning(crc, pos)
        invariant more || !Starts(CrcTest(crc), file[pos..])
        decreases more, logSize - pos
      {
        more, pos := Advance(crc, pos);
      }
      ReachedEnd(CrcTest(crc), file, batches, pos);
    }

    ghost predicate Scanning(crc: Checksum, pos: int)
      reads this, idx, tix
    {
      && Reached(CrcTest(crc), file, batches, pos)
      && nextOffset == Next(base, ReadAll(batches))
      && IndexesFresh()
    }

    /** One turn of that walk. */
    method Advance(crc: Checksum, pos: nat) returns (more: bool, pos': nat)
      requires pos < logSize == |file| && Scanning(crc, pos)
      modifies this`nextOffset, this`batches, idx, tix
      ensures Scanning(crc, pos')
      ensures more ==> pos < pos'
      ensures !more ==> pos' == pos && !Starts(CrcTest(crc), file[pos..])
    {
      var whole, h, body := ReadBatch(crc, pos);
      more, pos' := whole, pos;
      if whole {
        ReachedStep(CrcTest(crc), file, batches, pos, body);
        Note(h, body, pos);
        pos' := pos + |body|;
      }
    }

    /** Reads the batch at byte pos: a whole one, with a readable header and a
        matching CRC, or nothing. */
    method ReadBatch(crc: Checksum, pos: nat) returns (whole: bool, h: BatchHeader, body: bytes)
      requires pos <= logSize == |file|
      ensures whole <==> Starts(CrcTest(crc), file[pos..])
      ensures whole ==> |body| == TotalSize(file[pos..]) && pos + |body| <= |file|
      ensures whole ==> body == file[pos..pos + |body|] && |body| >= HEADER_SIZE && h == Header(body)
    {
      whole, h, body := false, BatchHeader(0, 0, 0, 0, 0, 0, 0), [];
      if pos + HEADER_SIZE > logSize {
        return;
      }
      ReadHeader(file, pos);
      var header := ParseBatchHeader(file[pos..pos + HEADER_SIZE]);
      if header.Err? {
        return;
      }
      h := header.value;
      var batchSize := h.TotalSize();
      if pos + batchSize > logSize {
        return;
      }
      DropSlice(file, pos, batchSize);
      body := file[pos..pos + batchSize];
      if !CrcMatches(crc, body) {
        return;
      }
      HeaderIsLocal(body, file[pos..]);
      whole := true;
    }

    /** Counts one more batch, found or written at byte pos. */
    method Note(h: BatchHeader, b: bytes, pos: int)
      requires |b| >= HEADER_SIZE && h == Header(b)
      requires pos == |Join(batches)|
      modifies this`nextOffset, this`batches, idx, tix
      ensures batches == old(batches) + [b] && nextOffset == Next(base, ReadAll(batches))
      ensures old(IndexesFresh()) ==> IndexesFresh()
    {
      IndexSnoc(idx.interval, base, batches, b);
      var relOff := h.baseOffset - base;
      idx.MaybeAppend(relOff, pos);
      tix.MaybeAppend(h.maxTimestamp, relOff, pos);
      batches := batches + [b];
      nextOffset := h.LastOffset() + 1;
    }

    /** Sealed by size or, when `aged`, by age; an empty segment never rolls. */
    predicate ShouldRoll(aged: bool)
      reads this
    {
      logSize != 0 && ((maxBytes > 0 && logSize >= maxBytes) || aged)
    }

    /** Writes the bytes it is given. That the batch is as long as its frame says is the
        caller's business: the segment stays consistent exactly when it is. Indexes that agreed
        with the file still do. */
    method Append(crc: Checksum, batch: bytes) returns (r: AppendResult)
      requires Sound()
      modifies this, idx, tix
      ensures sealed == old(sealed) && file == old(file) + if r.Stored? then batch else []
      ensures Sound() <==> r.Stored? ==> Framed(batch)
      ensures old(IndexesFresh()) ==> IndexesFresh()
      ensures r.Sealed? <==> sealed
      ensures r.Stored? <==> !sealed && Appendable(crc, batch)
      ensures r.Stored? ==> batches == old(batches) + [batch]
      ensures r.Stored? ==> r == Stored(Read(batch).base, Read(batch).last, old(logSize))
      ensures !r.Stored? ==> batches == old(batches)
    {
      if sealed {
        return Sealed;
      }
      var parsed := ParseBatchHeader(batch);
      if parsed.Err? {
        return Rejected;
      }
      var h := parsed.value;
      if !CrcMatches(crc, batch) {
        return Rejected;
      }
      if ValidateBatchAttributes(h.attributes).Err? {
        return Rejected;
      }
      r := Write(h, batch);
    }

    method Write(h: BatchHeader, batch: bytes) returns (r: AppendResult)
      requires Sound() && Parses(batch) && h == Header(batch)
      modifies this, idx, tix
      ensures (Sound() <==> Framed(batch)) && sealed == old(sealed) && (old(IndexesFresh()) ==> IndexesFresh())
      ensures batches == old(batches) + [batch] && file == old(file) + batch
      ensures r == Stored(h.baseOffset, h.LastOffset(), old(logSize))
    {
      var pos := logSize;
      ghost var was := batches;
      GrownBy(was, batch);
      file := file + batch;
      logSize := logSize + |batch|;
      Note(h, batch, pos);
      r := Stored(h.baseOffset, h.LastOffset(), pos);
    }

    /** Marks the segment immutable and hands over its image. */
    method Seal() returns (image: Image)
      requires Sound()
      modifies this`sealed
      ensures sealed && Sound() && (Valid() <==> old(Valid()))
      ensures Depicts(false, image, View()) && (Depicts(true, image, View()) <==> Valid())
    {
      sealed := true;
      SnapshotIsGood();
      image := Snapshot();
    }
  }

  lemma {:induction false} GrownBy(was: seq<bytes>, batch: bytes)
    requires AllFramed(Any, was)
    ensures Join(was + [batch]) == Join(was) + batch && (AllFramed(Any, was + [batch]) <==> Framed(batch))
  {
    JoinSnoc(was, batch);
    assert (was + [batch])[|was|] == batch;
  }

  /** Offering one more batch to the indexes of a run extends them to the longer run. */
  lemma {:induction false} IndexSnoc(interval: int, base: int, raws: seq<bytes>, b: bytes)
    ensures Build(interval, Marks(base, raws + [b])) ==
            Offer(Build(interval, Marks(base, raws)), interval, Read(b).base - base, |Join(raws)|)
    ensures TimeBuild(interval, Marks(base, raws + [b])) ==
            TimeOffer(TimeBuild(interval, Marks(base, raws)), interval, Mark(Read(b).base - base, |Join(raws)|,
                    Read(b).time))
  {
    MarksSnoc(base, raws, b);
    var ms := Marks(base, raws + [b]);
    assert ms[..|ms| - 1] == Marks(base, raws);
  }

  /** The scan passes every batch before the one it is after, and stops there. */
  lemma {:induction false} FindStep(base: int, bs: seq<Batch>, target: int, j: nat)
    requires Dense(base, bs) && base <= target && j < |bs| && j <= BatchAt(bs, target)
    ensures bs[j].base <= target
    ensures j == BatchAt(bs, target) <==> target <= bs[j].last
  {
    if j < BatchAt(bs, target) {
      BatchAtBefore(bs, target, j);
      DenseAt(base, bs, j);
    } else {
      BatchAtHolds(base, bs, target);
    }
  }

  /** The last batch whose offsets do not exceed the target is a bound for the lookup. */
  lemma BoundFor(base: int, bs: seq<Batch>, target: int) returns (j: nat)
    requires Dense(base, bs) && base <= target && bs != []
    ensures j < |bs| && j <= BatchAt(bs, target)
    ensures BatchAt(bs, target) < |bs| ==> j == BatchAt(bs, target)
    ensures bs[j].base <= target && (j + 1 < |bs| ==> target < bs[j + 1].base)
  {
    var goal := BatchAt(bs, target);
    BatchAtHolds(base, bs, target);
    j := if goal < |bs| then goal else |bs| - 1;
    FindStep(base, bs, target, j);
    if j + 1 < |bs| {
      DenseOrder(base, bs, j, j + 1);
    }
  }

  /** Every index lookup starts the scan at or before the batch it is after; and
      fewer than `interval` bytes before it when offset and position fit 32 bits. */
  lemma IndexAgrees(interval: int, base: int, raws: seq<bytes>, target: int) returns (k: nat)
    requires AllFramed(Any, raws) && Dense(base, ReadAll(raws)) && base <= target
    ensures k <= BatchAt(ReadAll(raws), target)
    ensures HitPos(Build(interval, Marks(base, raws)).entries, (target - base) % UINT32) == PosOf(raws, k)
    ensures var goal := BatchAt(ReadAll(raws), target);
            goal < |raws| && interval > 0 && target - base < UINT32 && PosOf(raws, goal) < UINT32 ==>
              PosOf(raws, goal) - PosOf(raws, k) < interval
  {
    var ms := Marks(base, raws);
    if raws == [] {
      k := 0;
      EmptyIndex(interval, ms, (target - base) % UINT32);
      assert raws[..0] == [];
    } else {
      MarksIncrease(base, raws);
      var j := BoundFor(base, ReadAll(raws), target);
      k := LookupIsSafe(interval, ms, target - base, j);
      assert ms[k].pos == MarkOf(base, raws, k).pos;
    }
  }

  lemma {:induction false} EmptyIndex(interval: int, ms: seq<Mark>, t: int)
    requires ms == []
    ensures HitPos(Build(interval, ms).entries, t) == 0
  {
  }

  /** What the scan for a target reads at batch j, and where it goes from there. */
  lemma {:induction false} ScanReads(base: int, raws: seq<bytes>, target: int, j: nat)
    requires AllFramed(Any, raws) && Dense(base, ReadAll(raws)) && base <= target
    requires j <= BatchAt(ReadAll(raws), target) && PosOf(raws, j) < |Join(raws)|
    ensures j < |raws| && PosOf(raws, j) + HEADER_SIZE <= |Join(raws)|
    ensures var header := ParseBatchHeader(Join(raws)[PosOf(raws, j)..PosOf(raws, j) + HEADER_SIZE]);
            && header.Ok? && header.value.baseOffset <= target
            && (j == BatchAt(ReadAll(raws), target) <==> target <= header.value.LastOffset())
            && PosOf(raws, j) + header.value.TotalSize() == PosOf(raws, j + 1)
            && header.value.TotalSize() > 0
  {
    FileAt(raws, j);
    HeaderAt(raws, j);
    FindStep(base, ReadAll(raws), target, j);
    PosStep(raws, j);
  }

  lemma {:induction false} IndexInOrder(interval: int, base: int, raws: seq<bytes>)
    requires AllFramed(Any, raws) && Dense(base, ReadAll(raws))
    ensures Sorted(Build(interval, Marks(base, raws)).entries)
  {
    MarksIncrease(base, raws);
    BuildSorted(interval, Marks(base, raws));
  }

  lemma {:induction false} AtTheEnd(raws: seq<bytes>, j: nat, goal: nat)
    requires AllFramed(Any, raws) && j <= goal <= |raws| && PosOf(raws, j) >= |Join(raws)|
    ensures PosOf(raws, goal) == |Join(raws)|
  {
    FileAt(raws, goal);
    PosOrder(raws, j, goal);
  }

  /** A segment file cut at any byte by a crash recovers to exactly the batches
      that were whole, and recovering once more changes nothing. */
  lemma {:induction false} RecoverAfterCut(crc: Checksum, raws: seq<bytes>, k: nat)
    requires AllFramed(CrcTest(crc), raws) && k <= |Join(raws)|
    ensures Scan(CrcTest(crc), Join(raws)[..k]) == raws[..Fit(raws, k)]
    ensures Scan(CrcTest(crc), Join(raws[..Fit(raws, k)])) == raws[..Fit(raws, k)]
  {
    ScanOfCut(CrcTest(crc), raws, k);
    ScanIdempotent(CrcTest(crc), Join(raws)[..k]);
  }

  /** The index a lost log of two batches left behind. */
  lemma {:induction false} LostIndex(interval: int, base: int, r0: bytes, r1: bytes)
    requires 0 <= Read(r0).base - base < UINT32 && 0 <= Read(r1).base - base < UINT32
    requires 0 < interval <= |r0| < UINT32
    ensures Build(interval, Marks(base, [r0, r1])) ==
            State([Entry(Read(r0).base - base, 0), Entry(Read(r1).base - base, |r0|)], |r0|)
  {
    var raws, ms := [r0, r1], Marks(base, [r0, r1]);
    assert raws[..0] == [] && raws[..1] == [r0] && Join([r0]) == r0 + Join([r0][1..]) == r0;
    assert ms == [MarkOf(base, raws, 0), MarkOf(base, raws, 1)];
    assert ms[..1] == [ms[0]] && ms[..1][..0] == [];
    assert Build(interval, ms[..1]) == State([Entry(Read(r0).base - base, 0)], 0);
  }

  /** Why the early return matters: a log is cut to nothing while the index built for it
      survives. Whatever batch is stored first afterwards, if it is not as long as the lost
      first one and reaches the offset of the lost second one, a lookup for that offset
      lands on no batch start. */
  lemma {:induction false} StaleIndexMisses(interval: int, base: int, r0: bytes, r1: bytes, raw: bytes)
    requires Framed(r0) && Framed(r1) && Dense(base, ReadAll([r0, r1]))
    requires 0 < interval <= |r0| < UINT32 && Read(r1).base - base < UINT32
    requires Framed(raw) && Read(raw).base == base && Read(r1).base <= Read(raw).last && |raw| != |r0|
    ensures var lost := Build(interval, Marks(base, [r0, r1]));
            var after := Offer(lost, interval, Read(raw).base - base, 0);
            var hit := HitPos(after.entries, Read(r1).base - base);
            Read(raw).Contains(Read(r1).base) && forall j :: 0 <= j <= 1 ==> PosOf([raw], j) != hit
  {
    assert ReadAll([r0, r1])[0] == Read(r0) && ReadAll([r0, r1])[1..][0] == Read(r1);
    LostIndex(interval, base, r0, r1);
    var t := Read(r1).base - base;
    HitPosAt([Entry(0, 0), Entry(t, |r0|)], t, 2);
    assert [raw][..0] == [] && [raw][..1] == [raw] && Join([raw]) == raw + Join([raw][1..]) == raw;
  }

  /** Such batches exist under any checksum, at the interval the broker uses by default. */
  lemma StaleIndexExample(crc: Checksum) returns (r0: bytes, r1: bytes, raw: bytes)
    ensures forall b :: b in {r0, r1, raw} ==> Framed(b) && ValidateBatchForAppend(crc, b).Ok?
    ensures Dense(0, ReadAll([r0, r1])) && DEFAULT_INTERVAL <= |r0| < UINT32 && Read(r1).base < UINT32
    ensures Read(raw).base == 0 && Read(r1).base <= Read(raw).last && |raw| != |r0|
  {
    SampleIsValid(crc, 0, DEFAULT_INTERVAL);
    SampleIsValid(crc, 0, 0);
    SampleIsValid(crc, 1, 0);
    r0, raw := Sample(crc, 0, DEFAULT_INTERVAL), Sample(crc, 1, 0);
    r1 := Stamp(Sample(crc, 0, 0), 1);
    StampReads(Sample(crc, 0, 0), 1);
    StampKeepsAppendable(crc, Sample(crc, 0, 0), 1);
    var bs := ReadAll([r0, r1]);
    assert bs[1..] == [Read(r1)] && bs[1..][1..] == [];
  }
}
