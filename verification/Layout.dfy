/** Where the batches of a run stand in a segment file, what their headers say,
    and what a fetch cuts out of it. */
module Layout {
  import opened Bytes
  import opened Record
  import opened Samples
  import opened Framing
  import opened Index
  import opened Offsets

  /** A stored batch with its header read out. */
  function Read(raw: bytes): (b: Batch)
    ensures b.raw == raw
  {
    if |raw| < HEADER_SIZE then Batch(0, 0, 0, raw)
    else var h := Header(raw); Batch(h.baseOffset, h.LastOffset(), h.maxTimestamp, raw)
  }

  function ReadAll(raws: seq<bytes>): (bs: seq<Batch>)
    ensures |bs| == |raws|
    ensures forall i :: 0 <= i < |raws| ==> bs[i] == Read(raws[i])
  {
    seq(|raws|, i requires 0 <= i < |raws| => Read(raws[i]))
  }

  function Raws(bs: seq<Batch>): (raws: seq<bytes>)
    ensures |raws| == |bs|
    ensures forall i :: 0 <= i < |bs| ==> raws[i] == bs[i].raw
  {
    seq(|bs|, i requires 0 <= i < |bs| => bs[i].raw)
  }

  lemma ReadAllConcat(a: seq<bytes>, b: seq<bytes>)
    ensures ReadAll(a + b) == ReadAll(a) + ReadAll(b)
  {
  }

  lemma ReadAllSnoc(a: seq<bytes>, b: bytes)
    ensures ReadAll(a + [b]) == ReadAll(a) + [Read(b)]
  {
  }

  lemma ReadAllSlice(raws: seq<bytes>, i: nat, j: nat)
    requires i <= j <= |raws|
    ensures ReadAll(raws[i..j]) == ReadAll(raws)[i..j]
  {
  }

  lemma RawsOfRead(raws: seq<bytes>)
    ensures Raws(ReadAll(raws)) == raws
  {
  }

  // ---- byte positions --------------------------------------------------------------

  /** The byte at which batch j starts. */
  function PosOf(raws: seq<bytes>, j: nat): nat
    requires j <= |raws|
  {
    |Join(raws[..j])|
  }

  lemma PosStep(raws: seq<bytes>, j: nat)
    requires j < |raws|
    ensures PosOf(raws, j + 1) == PosOf(raws, j) + |raws[j]|
  {
    assert raws[..j + 1] == raws[..j] + [raws[j]];
    JoinSnoc(raws[..j], raws[j]);
  }

  lemma {:induction false} PosOrder(raws: seq<bytes>, i: nat, j: nat)
    requires AllFramed(Any, raws) && i <= j <= |raws|
    ensures PosOf(raws, i) <= PosOf(raws, j)
    ensures i < j ==> PosOf(raws, i) < PosOf(raws, j)
    decreases j
  {
    if i < j {
      PosStep(raws, j - 1);
      PosOrder(raws, i, j - 1);
    }
  }

  lemma SliceOfConcat(a: bytes, b: bytes, c: bytes)
    ensures |a| + |b| <= |a + (b + c)| && (a + (b + c))[|a|..|a| + |b|] == b
  {
  }

  /** What stands in the file at batch j's position. */
  lemma {:induction false} FileAt(raws: seq<bytes>, j: nat)
    requires j <= |raws|
    ensures PosOf(raws, j) <= |Join(raws)|
    ensures Join(raws)[PosOf(raws, j)..] == Join(raws[j..])
    ensures j < |raws| ==> PosOf(raws, j) + |raws[j]| <= |Join(raws)|
                           && Join(raws)[PosOf(raws, j)..PosOf(raws, j) + |raws[j]|] == raws[j]
    ensures j == |raws| ==> PosOf(raws, j) == |Join(raws)|
  {
    JoinSplit(raws, j);
    if j < |raws| {
      var tail := raws[j..];
      assert Join(tail) == raws[j] + Join(tail[1..]);
      SliceOfConcat(Join(raws[..j]), raws[j], Join(tail[1..]));
    } else {
      assert raws[..j] == raws;
    }
  }

  /** The header read at batch j's position is batch j's. */
  lemma {:induction false} HeaderAt(raws: seq<bytes>, j: nat)
    requires AllFramed(Any, raws) && j < |raws|
    ensures PosOf(raws, j) + HEADER_SIZE <= PosOf(raws, j) + |raws[j]| <= |Join(raws)|
    ensures ParseBatchHeader(Join(raws)[PosOf(raws, j)..PosOf(raws, j) + HEADER_SIZE]) == Ok(Header(raws[j]))
  {
    FileAt(raws, j);
    var p := PosOf(raws, j);
    assert Join(raws)[p..p + |raws[j]|][..HEADER_SIZE] == Join(raws)[p..p + HEADER_SIZE];
    HeaderIsLocal(Join(raws)[p..p + HEADER_SIZE], raws[j]);
  }

  // ---- index marks --------------------------------------------------------------------

  function MarkOf(base: int, raws: seq<bytes>, i: nat): Mark
    requires i < |raws|
  {
    Mark(Read(raws[i]).base - base, PosOf(raws, i), Read(raws[i]).time)
  }

  /** What a run of batches offers to the indexes of a segment based at `base`. */
  function Marks(base: int, raws: seq<bytes>): (ms: seq<Mark>)
    ensures |ms| == |raws|
    ensures forall i :: 0 <= i < |raws| ==> ms[i] == MarkOf(base, raws, i)
  {
    seq(|raws|, i requires 0 <= i < |raws| => MarkOf(base, raws, i))
  }

  lemma {:induction false} MarksSnoc(base: int, raws: seq<bytes>, b: bytes)
    ensures Marks(base, raws + [b]) == Marks(base, raws) + [Mark(Read(b).base - base, |Join(raws)|, Read(b).time)]
  {
    var c := raws + [b];
    forall i | 0 <= i < |c|
      ensures c[..i] == raws[..i]
    {
    }
    assert raws[..|raws|] == raws;
  }

  lemma {:induction false} MarksIncrease(base: int, raws: seq<bytes>)
    requires AllFramed(Any, raws) && Dense(base, ReadAll(raws))
    ensures Increasing(Marks(base, raws))
    ensures raws != [] ==> Marks(base, raws)[0].rel == 0 && Marks(base, raws)[0].pos == 0
  {
    var bs := ReadAll(raws);
    forall i, j | 0 <= i <= j < |raws|
      ensures MarkOf(base, raws, i).rel >= 0
      ensures i < j ==>
                && MarkOf(base, raws, i).rel < MarkOf(base, raws, j).rel
                && MarkOf(base, raws, i).pos < MarkOf(base, raws, j).pos
    {
      DenseAt(base, bs, i);
      if i < j {
        DenseOrder(base, bs, i, j);
        PosOrder(raws, i, j);
      }
    }
    if raws != [] {
      assert raws[..0] == [];
      DenseAt(base, bs, 0);
    }
  }

  /** Each entry of a segment's time index is for one of its batches, and no earlier than that
      batch's largest timestamp. */
  lemma {:induction false} TimesOfBatches(interval: int, base: int, raws: seq<bytes>, i: nat)
    requires AllFramed(Any, raws) && i < |TimeBuild(interval, Marks(base, raws)).entries|
    ensures var e := TimeBuild(interval, Marks(base, raws)).entries[i];
            exists k :: 0 <= k < |raws| && Header(raws[k]).baseOffset - base == e.rel
                        && Header(raws[k]).maxTimestamp <= e.ts
  {
    var ms := Marks(base, raws);
    TimesIncrease(interval, ms);
    var e := TimeBuild(interval, ms).entries[i];
    assert Timed(TimeBuild(interval, ms), ms, i);
    var m :| m in ms && m.rel == e.rel && m.ts <= e.ts;
    var k :| 0 <= k < |ms| && ms[k] == m;
    assert Framed(raws[k]) && ms[k] == MarkOf(base, raws, k);
  }

  // ---- what a fetch returns --------------------------------------------------------------

  /** The batches a fetch at batch j with a byte budget is owed: as many whole
      batches as fit, but never fewer than one. */
  function FetchRun(raws: seq<bytes>, j: nat, maxBytes: int): (run: seq<bytes>)
    requires j < |raws|
    ensures run != [] && run <= raws[j..]
  {
    if Fit(raws[j..], maxBytes) > 0 then raws[j..][..Fit(raws[j..], maxBytes)] else [raws[j]]
  }

  /** Reading k bytes at batch j and trimming to whole batches yields exactly
      the batches that fit. */
  lemma {:induction false} TrimmedRead(raws: seq<bytes>, j: nat, k: nat)
    requires AllFramed(Any, raws) && j <= |raws|
    requires k <= |Join(raws[j..])|
    ensures PosOf(raws, j) + k <= |Join(raws)|
    ensures Scan(Any, Join(raws)[PosOf(raws, j)..PosOf(raws, j) + k]) == raws[j..][..Fit(raws[j..], k)]
  {
    FileAt(raws, j);
    CutWindow(Join(raws), PosOf(raws, j), raws[j..], k);
  }

  lemma {:induction false} CutWindow(file: bytes, pos: nat, rest: seq<bytes>, k: nat)
    requires AllFramed(Any, rest) && pos <= |file| && file[pos..] == Join(rest) && k <= |Join(rest)|
    ensures Scan(Any, file[pos..pos + k]) == rest[..Fit(rest, k)]
  {
    ScanOfCut(Any, rest, k);
    DropSlice(file, pos, k);
  }

  /** A budget larger than what is left is as good as what is left. */
  lemma {:induction false} FitSaturates(raws: seq<bytes>, k: nat)
    requires k >= |Join(raws)|
    ensures Fit(raws, k) == |raws|
  {
    if raws != [] {
      FitSaturates(raws[1..], k - |raws[0]|);
    }
  }

  /** What ReadAt hands back for a budget at batch j. */
  function Window(raws: seq<bytes>, j: nat, maxBytes: nat): bytes
    requires j < |raws|
  {
    FileAt(raws, j);
    var pos, size := PosOf(raws, j), |Join(raws)|;
    Join(raws)[pos..if pos + maxBytes > size then size else pos + maxBytes]
  }

  /** The window trims to the batches that fit. */
  lemma {:induction false} WindowTrims(raws: seq<bytes>, j: nat, maxBytes: nat)
    requires AllFramed(Any, raws) && j < |raws|
    ensures Scan(Any, Window(raws, j, maxBytes)) == raws[j..][..Fit(raws[j..], maxBytes)]
  {
    var size := |Join(raws[j..])|;
    assert |Join(raws)| == PosOf(raws, j) + size by { FileAt(raws, j); }
    if maxBytes > size {
      TrimmedRead(raws, j, size);
      assert Fit(raws[j..], maxBytes) == Fit(raws[j..], size) by {
        FitSaturates(raws[j..], maxBytes);
        FitSaturates(raws[j..], size);
      }
    } else {
      TrimmedRead(raws, j, maxBytes);
    }
  }

  /** When no batch fits, the window still shows the first header as soon as it
      is 61 bytes long. */
  lemma {:induction false} WindowShowsHeader(raws: seq<bytes>, j: nat, maxBytes: nat)
    requires AllFramed(Any, raws) && j < |raws| && Fit(raws[j..], maxBytes) == 0
    ensures |Window(raws, j, maxBytes)| == maxBytes < |raws[j]|
    ensures maxBytes >= HEADER_SIZE ==> ParseBatchHeader(Window(raws, j, maxBytes)) == Ok(Header(raws[j]))
  {
    FileAt(raws, j);
    if maxBytes >= HEADER_SIZE {
      HeaderIsLocal(Window(raws, j, maxBytes), raws[j]);
    }
  }

  /** The header of the first batch stands at the start of any non-empty run. */
  lemma {:induction false} RunHeader(run: seq<bytes>)
    requires run != [] && Framed(run[0])
    ensures ParseBatchHeader(Join(run)) == Ok(Header(run[0])) && Join(run) != []
  {
    FramedHead(run[0], Join(run[1..]));
    HeaderIsLocal(Join(run), run[0]);
  }

  // ---- what a produce request stores ---------------------------------------------------------

  /** The batches of a request as they are stored from an offset on. */
  function Stamped(offset: int, raws: seq<bytes>): (s: seq<bytes>)
    ensures |s| == |raws|
    decreases |raws|
  {
    if raws == [] then []
    else
      var s := Stamp(raws[0], offset);
      [s] + Stamped(Read(s).last + 1, raws[1..])
  }

  /** What the produce path hands to the log: framed batches whose offsets, as counted
      from `offset`, stay 64 bits wide. */
  ghost predicate Numbered(offset: int, raws: seq<bytes>)
    decreases |raws|
  {
    raws == [] ||
    (&& Framed(raws[0]) && -INT64_LIMIT <= offset < INT64_LIMIT
     && Numbered(offset + Header(raws[0]).lastOffsetDelta + 1, raws[1..]))
  }

  /** No batch claims to end before it begins. */
  ghost predicate Forward(raws: seq<bytes>)
    decreases |raws|
  {
    raws == [] || (Framed(raws[0]) && Header(raws[0]).lastOffsetDelta >= 0 && Forward(raws[1..]))
  }

  lemma StampReads(raw: bytes, offset: int)
    requires Framed(raw) && -INT64_LIMIT <= offset < INT64_LIMIT
    ensures Framed(Stamp(raw, offset))
    ensures Read(Stamp(raw, offset)).base == offset
    ensures Read(Stamp(raw, offset)).last == offset + Header(raw).lastOffsetDelta
  {
    StampKeepsTheRest(raw, offset);
  }

  lemma {:induction false} StampedHead(offset: int, raws: seq<bytes>, b: Batch)
    requires raws != [] && b == Read(Stamp(raws[0], offset))
    ensures ReadAll(Stamped(offset, raws)) == [b] + ReadAll(Stamped(b.last + 1, raws[1..]))
  {
    var s := Stamp(raws[0], offset);
    ReadAllConcat([s], Stamped(b.last + 1, raws[1..]));
    assert ReadAll([s]) == [b];
  }

  lemma {:induction false} DenseHead(offset: int, b: Batch, rest: seq<Batch>)
    ensures Dense(offset, [b] + rest) <==> b.base == offset <= b.last && Dense(b.last + 1, rest)
  {
    assert ([b] + rest)[1..] == rest;
  }

  /** Nothing refuses a negative last offset delta. The stored run is dense exactly when
      no batch of the request has one. */
  lemma {:induction false} DenseExactlyWhen(offset: int, raws: seq<bytes>)
    requires Numbered(offset, raws)
    ensures Dense(offset, ReadAll(Stamped(offset, raws))) <==> Forward(raws)
    decreases |raws|
  {
    if raws != [] {
      var b := Read(Stamp(raws[0], offset));
      StampReads(raws[0], offset);
      DenseExactlyWhen(b.last + 1, raws[1..]);
      StampedHead(offset, raws, b);
      DenseHead(offset, b, ReadAll(Stamped(b.last + 1, raws[1..])));
    }
  }

  /** A request without one is stored as one dense run of framed batches. */
  lemma {:induction false} StampedDense(offset: int, raws: seq<bytes>)
    requires Numbered(offset, raws) && Forward(raws)
    ensures AllFramed(Any, Stamped(offset, raws))
    ensures Dense(offset, ReadAll(Stamped(offset, raws)))
    decreases |raws|
  {
    DenseExactlyWhen(offset, raws);
    if raws != [] {
      StampReads(raws[0], offset);
      StampedDense(Read(Stamp(raws[0], offset)).last + 1, raws[1..]);
    }
  }

  /** A batch with a negative delta passes the validation under any checksum; storing it
      leaves the high watermark where it was, so the next batch gets the same offset. */
  lemma {:induction false} NegativeDeltaAccepted(crc: Checksum, offset: int)
    requires 0 <= offset < INT64_LIMIT
    ensures var raw := Sample(crc, -1, 0);
            && ValidateBatchForAppend(crc, raw).Ok? && Numbered(offset, [raw])
            && Read(Stamp(raw, offset)).last + 1 == offset
            && !Dense(offset, ReadAll(Stamped(offset, [raw])))
  {
    var raw := Sample(crc, -1, 0);
    SampleIsValid(crc, -1, 0);
    var raws: seq<bytes> := [raw];
    assert raws[1..] == [];
    StampReads(raw, offset);
    DenseExactlyWhen(offset, raws);
  }

  // ---- batches as they were stored -----------------------------------------------------------

  /** The stored bytes are one whole acceptable batch with the header it is read by. */
  ghost predicate Intact(ok: Test, b: Batch) {
    Framed(b.raw) && ok(b.raw) && b == Read(b.raw)
  }

  ghost predicate AllIntact(ok: Test, bs: seq<Batch>)
    decreases |bs|
  {
    bs == [] || (Intact(ok, bs[0]) && AllIntact(ok, bs[1..]))
  }

  lemma {:induction false} IntactAt(ok: Test, bs: seq<Batch>, k: nat)
    requires AllIntact(ok, bs) && k < |bs|
    ensures Intact(ok, bs[k])
  {
    if k > 0 {
      IntactAt(ok, bs[1..], k - 1);
    }
  }

  lemma {:induction false} IntactConcat(ok: Test, a: seq<Batch>, b: seq<Batch>)
    requires AllIntact(ok, a) && AllIntact(ok, b)
    ensures AllIntact(ok, a + b)
  {
    if a == [] {
      assert a + b == b;
    } else {
      IntactConcat(ok, a[1..], b);
      assert (a + b)[1..] == a[1..] + b;
    }
  }

  lemma {:induction false} IntactPrefix(ok: Test, bs: seq<Batch>, k: nat)
    requires AllIntact(ok, bs) && k <= |bs|
    ensures AllIntact(ok, bs[..k])
  {
    if k > 0 {
      IntactPrefix(ok, bs[1..], k - 1);
      assert bs[..k][1..] == bs[1..][..k - 1];
    }
  }

  /** What passes a test passes none. */
  lemma {:induction false} IntactAny(ok: Test, bs: seq<Batch>)
    requires AllIntact(ok, bs)
    ensures AllIntact(Any, bs)
  {
    if bs != [] {
      IntactAny(ok, bs[1..]);
    }
  }

  lemma {:induction false} ReadAllIntact(ok: Test, raws: seq<bytes>)
    requires AllFramed(ok, raws)
    ensures AllIntact(ok, ReadAll(raws))
  {
    if raws != [] {
      ReadAllIntact(ok, raws[1..]);
      assert ReadAll(raws)[1..] == ReadAll(raws[1..]);
    }
  }

  lemma {:induction false} IntactReads(ok: Test, bs: seq<Batch>)
    requires AllIntact(ok, bs)
    ensures AllFramed(ok, Raws(bs)) && ReadAll(Raws(bs)) == bs
  {
    forall k | 0 <= k < |bs|
      ensures Framed(Raws(bs)[k]) && ok(Raws(bs)[k]) && Read(Raws(bs)[k]) == bs[k]
    {
      IntactAt(ok, bs, k);
    }
  }

  /** A validated request is stored as intact batches with matching checksums. */
  lemma {:induction false} StampedIntact(crc: Checksum, offset: int, raws: seq<bytes>)
    requires Numbered(offset, raws)
    requires forall i :: 0 <= i < |raws| ==> Appendable(crc, raws[i])
    ensures AllIntact(CrcTest(crc), ReadAll(Stamped(offset, raws)))
    decreases |raws|
  {
    if raws != [] {
      var b := Read(Stamp(raws[0], offset));
      StampReads(raws[0], offset);
      StampKeepsAppendable(crc, raws[0], offset);
      StampedIntact(crc, b.last + 1, raws[1..]);
      StampedHead(offset, raws, b);
      var rest := ReadAll(Stamped(b.last + 1, raws[1..]));
      assert ([b] + rest)[1..] == rest;
    }
  }
}
