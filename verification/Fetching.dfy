/** What a fetch owes its caller, on one segment and on a whole log. */
module Fetching {
  import opened Bytes
  import opened Record
  import opened Framing
  import opened Offsets
  import opened Layout
  import opened Segments
  import opened LogModel

  datatype FetchOutcome = Fetched(data: bytes, first: int) | Nothing(first: int) | OutOfRange | Unreadable(error: Error)

  /** A fetch at an offset the segment holds: whole batches from the one that
      holds it on, as many as the budget allows and at least one. A budget that
      cannot hold a batch header finds nothing to parse. */
  function SegFetch(s: Seg, offset: int, maxBytes: nat): FetchOutcome
    requires BatchAt(s.batches, offset) < |s.batches|
  {
    var j := BatchAt(s.batches, offset);
    if maxBytes == 0 then Nothing(offset)
    else if maxBytes < HEADER_SIZE then Unreadable(ShortHeader)
    else Fetched(Join(FetchRun(Raws(s.batches), j, maxBytes)), s.batches[j].base)
  }

  /** The segment a fetch goes to: the last one that does not begin after the offset. */
  function SegAt(segs: seq<Seg>, offset: int): (i: nat)
    requires segs != []
    ensures i < |segs|
  {
    if |segs| == 1 || offset < segs[1].base then 0 else 1 + SegAt(segs[1..], offset)
  }

  lemma {:induction false} OrderedTail(segs: seq<Seg>)
    requires Ordered(segs) && |segs| > 1
    ensures Ordered(segs[1..])
  {
    assert forall i :: 0 <= i < |segs| - 1 ==> segs[1..][i] == segs[i + 1];
  }

  lemma {:induction false} SegAtIs(segs: seq<Seg>, offset: int, i: nat)
    requires Ordered(segs) && i < |segs| && segs[0].base <= offset
    requires segs[i].base <= offset && (i + 1 < |segs| ==> offset < segs[i + 1].base)
    ensures SegAt(segs, offset) == i
    decreases |segs|
  {
    if i > 0 {
      if i > 1 {
        OrderedAscends(segs, 1, i);
      }
      OrderedTail(segs);
      SegAtIs(segs[1..], offset, i - 1);
    }
  }

  /** On a gap-free log that segment holds the offset, and so does one batch in it. */
  lemma {:induction false} SegAtHolds(segs: seq<Seg>, offset: int)
    requires Chain(segs) && segs[0].base <= offset < Hwm(segs)
    ensures var s := segs[SegAt(segs, offset)];
            && s.base <= offset < s.Next() && Dense(s.base, s.batches)
            && BatchAt(s.batches, offset) < |s.batches|
    decreases |segs|
  {
    if |segs| == 1 || offset < segs[1].base {
      BatchAtHolds(segs[0].base, segs[0].batches, offset);
    } else {
      SegAtHolds(segs[1..], offset);
    }
  }

  /** A fetch from one segment; past its last batch there is nothing. */
  function FetchFrom(s: Seg, offset: int, maxBytes: nat): FetchOutcome {
    if BatchAt(s.batches, offset) < |s.batches| then SegFetch(s, offset, maxBytes) else Nothing(offset)
  }

  /** FetchAt on any log. */
  function LogFetch(segs: seq<Seg>, offset: int, maxBytes: nat): FetchOutcome
    requires segs != []
  {
    if offset >= Hwm(segs) then Nothing(offset)
    else if offset < segs[0].base then OutOfRange
    else FetchFrom(segs[SegAt(segs, offset)], offset, maxBytes)
  }

  /** From the batch that holds the offset on, a fetch returns the longest run of whole batches of
      its segment that fits the byte budget; if not even that one fits, it alone. */
  lemma {:induction false} FetchIsLongest(segs: seq<Seg>, offset: int, maxBytes: nat) returns (i: nat, j: nat, n: nat)
    requires Chain(segs) && segs[0].base <= offset < Hwm(segs) && maxBytes >= HEADER_SIZE
    ensures i < |segs| && 0 < n && j + n <= |segs[i].batches|
    ensures segs[i].batches[j].base <= offset <= segs[i].batches[j].last
    ensures LogFetch(segs, offset, maxBytes)
            == Fetched(Join(Raws(segs[i].batches)[j..j + n]), segs[i].batches[j].base)
    ensures n == 1 || |Join(Raws(segs[i].batches)[j..j + n])| <= maxBytes
    ensures forall end :: j + n < end <= |segs[i].batches| ==> |Join(Raws(segs[i].batches)[j..end])| > maxBytes
  {
    i := SegAt(segs, offset);
    SegAtHolds(segs, offset);
    var s := segs[i];
    j := BatchAt(s.batches, offset);
    BatchAtHolds(s.base, s.batches, offset);
    n := RunIsLongest(Raws(s.batches), j, maxBytes);
  }

  lemma {:induction false} RunIsLongest(raws: seq<bytes>, j: nat, maxBytes: nat) returns (n: nat)
    requires j < |raws|
    ensures 0 < n <= |raws| - j && FetchRun(raws, j, maxBytes) == raws[j..j + n]
    ensures n == 1 || |Join(raws[j..j + n])| <= maxBytes
    ensures forall end :: j + n < end <= |raws| ==> |Join(raws[j..end])| > maxBytes
  {
    var rest := raws[j..];
    var fit := Fit(rest, maxBytes);
    n := if fit == 0 then 1 else fit;
    assert rest[..n] == raws[j..j + n];
    FitIsLargest(rest, maxBytes, n);
    forall end | j + n < end <= |raws|
      ensures |Join(raws[j..end])| > maxBytes
    {
      assert rest[..end - j] == raws[j..end];
      FitIsLargest(rest, maxBytes, end - j);
    }
  }

  // ---- the read path over bytes ---------------------------------------------------

  /** The common tail of both read paths: a window of the file, trimmed to whole
      batches, or the first batch in full. */
  lemma WindowOutcome(raws: seq<bytes>, j: nat, maxBytes: nat)
    requires AllFramed(Any, raws) && j < |raws|
    ensures var w := Window(raws, j, maxBytes); var trimmed := Join(Scan(Any, w));
            && (w == [] <==> maxBytes == 0)
            && (maxBytes >= HEADER_SIZE && trimmed != [] ==>
                  trimmed == Join(FetchRun(raws, j, maxBytes)) && ParseBatchHeader(trimmed) == Ok(Header(raws[j])))
            && (trimmed == [] && 0 < maxBytes < HEADER_SIZE ==> ParseBatchHeader(w) == Err(ShortHeader))
            && (trimmed == [] && maxBytes >= HEADER_SIZE ==>
                  ParseBatchHeader(w) == Ok(Header(raws[j])) && FetchRun(raws, j, maxBytes) == [raws[j]])
            && (maxBytes < HEADER_SIZE ==> trimmed == [])
  {
    WindowTrims(raws, j, maxBytes);
    FileAt(raws, j);
    var run := raws[j..][..Fit(raws[j..], maxBytes)];
    if run == [] {
      WindowShowsHeader(raws, j, maxBytes);
    } else {
      assert run[0] == raws[j];
      RunHeader(run);
    }
  }

  /** What either read path makes of batch j and a byte budget. */
  function RunOutcome(raws: seq<bytes>, j: nat, offset: int, maxBytes: nat): FetchOutcome
    requires j < |raws|
  {
    if maxBytes == 0 then Nothing(offset)
    else if maxBytes < HEADER_SIZE then Unreadable(ShortHeader)
    else Fetched(Join(FetchRun(raws, j, maxBytes)), Read(raws[j]).base)
  }

  lemma {:induction false} WholeBatchWindow(raws: seq<bytes>, j: nat)
    requires j < |raws|
    ensures PosOf(raws, j) + |raws[j]| <= |Join(raws)|
    ensures Join(raws)[PosOf(raws, j)..PosOf(raws, j) + |raws[j]|] == raws[j] == Join([raws[j]])
  {
    FileAt(raws, j);
    assert Join([raws[j]]) == raws[j] + Join([]);
  }

  /** Reads a window at a batch start and trims it. */
  method ReadWindow(file: bytes, start: nat, offset: int, maxBytes: nat, ghost raws: seq<bytes>, ghost j: nat)
    returns (r: FetchOutcome)
    requires AllFramed(Any, raws) && j <= |raws| && file == Join(raws) && start == PosOf(raws, j)
    ensures r == if j < |raws| then RunOutcome(raws, j, offset, maxBytes) else Nothing(offset)
  {
    FileAt(raws, j);
    var buf := ReadAt(file, start, maxBytes);
    if j < |raws| {
      WindowOutcome(raws, j, maxBytes);
      assert buf == Window(raws, j, maxBytes) by { WholeBatchWindow(raws, j); }
    }
    if |buf| == 0 {
      return Nothing(offset);
    }
    var trimmed := TrimToBatchBoundary(buf);
    if |trimmed| > 0 {
      return Fetched(trimmed, Header(trimmed).baseOffset);
    }
    match ParseBatchHeader(buf) {
      case Err(e) => return Unreadable(e);
      case Ok(hdr) =>
        r := ReadWhole(file, start, offset, hdr.TotalSize(), raws, j);
    }
  }

  /** The budget held no whole batch: return the first one in full. */
  method ReadWhole(file: bytes, start: nat, offset: int, need: nat, ghost raws: seq<bytes>, ghost j: nat)
    returns (r: FetchOutcome)
    requires AllFramed(Any, raws) && j < |raws| && file == Join(raws) && start == PosOf(raws, j) && need == |raws[j]|
    ensures r == Fetched(Join([raws[j]]), Read(raws[j]).base)
  {
    WholeBatchWindow(raws, j);
    var full := ReadAt(file, start, need);
    if |full| < need {
      return Nothing(offset);
    }
    r := Fetched(full, Header(full).baseOffset);
  }

  /** The local read path: find the batch through the index, read, trim. */
  method FetchImage(im: Image, offset: int, maxBytes: nat) returns (r: FetchOutcome)
    requires im.Good() && Dense(im.base, im.View().batches) && im.base <= offset
    ensures r == FetchFrom(im.View(), offset, maxBytes)
  {
    ghost var raws, j := im.Batches(), BatchAt(im.View().batches, offset);
    ScanSound(Any, im.file);
    RawsOfRead(raws);
    var found := im.FindBatchAt(offset);
    match found {
      case Err(e) => return Unreadable(e);
      case Ok(start) => r := ReadWindow(im.file, start, offset, maxBytes, raws, j);
    }
  }
}
