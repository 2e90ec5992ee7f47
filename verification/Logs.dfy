/** The partition log: segments in order, the last one active. */
module Logs {
  import opened Bytes
  import opened Record
  import opened Framing
  import opened Index
  import opened Layout
  import opened Segments
  import opened LogModel
  import opened Fetching

  datatype AppendOutcome = Appended(first: int) | DiskFull | NoBatches | Refused(index: nat, error: Error)

  /** The images hold, in order, exactly these segments, with their indexes if `indexed`. */
  ghost predicate AllDepict(indexed: bool, images: seq<Image>, segs: seq<Seg>) {
    |images| == |segs| &&
    forall i {:trigger Depicts(indexed, images[i], segs[i])} :: 0 <= i < |images| ==>
      Depicts(indexed, images[i], segs[i])
  }

  lemma DepictSnoc(indexed: bool, images: seq<Image>, segs: seq<Seg>, im: Image, s: Seg)
    requires AllDepict(indexed, images, segs) && Depicts(indexed, im, s)
    ensures AllDepict(indexed, images + [im], segs + [s])
  {
    forall i | 0 <= i < |images| + 1
      ensures Depicts(indexed, (images + [im])[i], (segs + [s])[i])
    {
      if i < |images| {
        assert Depicts(indexed, images[i], segs[i]);
      }
    }
  }

  lemma DepictTail(indexed: bool, images: seq<Image>, segs: seq<Seg>)
    requires AllDepict(indexed, images, segs) && images != []
    ensures AllDepict(indexed, images[1..], segs[1..])
  {
    forall i | 0 <= i < |images| - 1
      ensures Depicts(indexed, images[1..][i], segs[1..][i])
    {
      assert Depicts(indexed, images[i + 1], segs[i + 1]);
    }
  }

  /** Every batch of the request passes the checks made before anything is written. */
  ghost predicate AllValid(crc: Checksum, batches: seq<bytes>) {
    forall i :: 0 <= i < |batches| ==> ValidateBatchForAppend(crc, batches[i]).Ok?
  }

  /** One segment's files as a restart finds them. */
  datatype Files = Files(base: int, log: bytes, index: seq<Entry>, times: seq<TimeEntry>) {
    /** Recovery rebuilds the indexes of a non-empty log and keeps those of an empty one. */
    predicate Clean() { log != [] || (index == [] && times == []) }
  }

  /** What a restart makes of one file: its longest good run. */
  function RecoveredSeg(crc: Checksum, f: Files): Seg {
    Seg(f.base, ReadAll(Scan(CrcTest(crc), f.log)))
  }

  function Recovered(crc: Checksum, files: seq<Files>): (v: seq<Seg>)
    ensures |v| == |files|
    ensures forall i :: 0 <= i < |files| ==> v[i] == RecoveredSeg(crc, files[i])
  {
    seq(|files|, i requires 0 <= i < |files| => RecoveredSeg(crc, files[i]))
  }

  ghost predicate AllClean(files: seq<Files>) {
    forall i :: 0 <= i < |files| ==> files[i].Clean()
  }

  /** Recovery keeps only whole batches with matching checksums. */
  lemma RecoveredIntact(crc: Checksum, files: seq<Files>)
    ensures SegsIntact(CrcTest(crc), Recovered(crc, files))
  {
    forall i | 0 <= i < |files|
      ensures AllIntact(CrcTest(crc), RecoveredSeg(crc, files[i]).batches)
    {
      ScanSound(CrcTest(crc), files[i].log);
      ReadAllIntact(CrcTest(crc), Scan(CrcTest(crc), files[i].log));
    }
  }

  class Log {
    const interval: int
    const maxBytes: int
    var sealed: seq<Image>
    var active: Segment
    var logStart: int
    ghost var history: seq<Seg>

    function Repr(): set<object>
      reads this
    {
      {this, active, active.idx, active.tix}
    }

    /** The active segment is the one it was, or made of new files. */
    twostate predicate KeepsOrRenews()
      reads this
    {
      active == old(active) || (fresh(active) && fresh(active.idx) && fresh(active.tix))
    }

    ghost function View(): (v: seq<Seg>)
      reads this, active
      ensures v != [] && Last(v) == active.View()
    {
      history + [active.View()]
    }

    /** The segments are what their files hold; with `indexed`, so are all their indexes. */
    ghost predicate Keeps(indexed: bool)
      reads this, Repr()
    {
      && active.Keeps(indexed) && !active.sealed && active.maxBytes == maxBytes
      && AllDepict(indexed, sealed, history)
    }

    ghost predicate Valid()
      reads this, Repr()
    {
      Keeps(true)
    }

    /** OpenLog: recovers every segment, oldest first, and keeps the last one
        active; a partition without files starts with an empty segment at zero. The indexes
        agree with the files exactly when no empty file comes with index entries. */
    constructor Open(interval: int, maxBytes: int, files: seq<Files>, crc: Checksum)
      ensures Keeps(false) && (Valid() <==> AllClean(files))
      ensures fresh(active) && fresh(active.idx) && fresh(active.tix)
      ensures View() == if files == [] then [Seg(0, [])] else Recovered(crc, files)
      ensures SegsIntact(CrcTest(crc), View())
    {
      RecoveredIntact(crc, files);
      var images, last, segs := OpenAll(files, interval, maxBytes, crc);
      this.interval, this.maxBytes := interval, maxBytes;
      sealed, active, history := images, last, segs;
      logStart := if |files| > 0 then files[0].base else 0;
    }

    method RollLocked(crc: Checksum, ghost indexed: bool)
      requires Keeps(indexed)
      modifies `sealed, `active, `history, active, active.idx, active.tix
      ensures Keeps(indexed) && KeepsOrRenews()
      ensures View() == Roll(old(View()))
    {
      if active.nextOffset == active.base {
        return;
      }
      var next := SealActive(indexed);
      active := OpenEmpty(next, interval, maxBytes, crc);
    }

    /** Seals the active segment and puts its image with the others. */
    method SealActive(ghost indexed: bool) returns (next: int)
      requires Keeps(indexed)
      modifies `sealed, `history, active`sealed
      ensures AllDepict(indexed, sealed, history) && history == old(View()) && next == Hwm(old(View()))
    {
      var image := active.Seal();
      DepictSnoc(indexed, sealed, history, image, active.View());
      sealed, history := sealed + [image], history + [active.View()];
      next := active.nextOffset;
    }

    method RollIfDue(crc: Checksum, aged: bool, ghost indexed: bool)
      requires Keeps(indexed)
      modifies `sealed, `active, `history, active, active.idx, active.tix
      ensures Keeps(indexed) && KeepsOrRenews()
      ensures View() == MaybeRoll(old(View()), maxBytes, aged)
    {
      RawsOfRead(active.batches);
      if active.ShouldRoll(aged) {
        RollLocked(crc, indexed);
      }
    }

    function BaseAt(k: nat): int
      requires k <= |sealed|
      reads this
    {
      if k < |sealed| then sealed[k].base else active.base
    }

    lemma BaseAtIsView(indexed: bool, k: nat)
      requires Keeps(indexed) && k <= |sealed|
      ensures BaseAt(k) == View()[k].base && |View()| == |sealed| + 1
    {
      if k < |sealed| {
        assert Depicts(indexed, sealed[k], history[k]);
      }
    }

    /** Binary search for the last segment that does not begin after the offset. */
    method FindSegment(offset: int) returns (found: bool, i: nat)
      requires Valid() && Ordered(View())
      ensures found <==> View()[0].base <= offset < Hwm(View())
      ensures found ==> i == SegAt(View(), offset) && i <= |sealed| && BaseAt(i) <= offset
    {
      BaseAtIsView(true, 0);
      if offset < BaseAt(0) || offset >= active.nextOffset {
        return false, 0;
      }
      i := Search(offset);
      IsSegAt(offset, i);
      return true, i;
    }

    /** Goes on halving where the first base beyond the offset may be. */
    method Search(offset: int) returns (i: nat)
      requires BaseAt(0) <= offset
      ensures i <= |sealed| && BaseAt(i) <= offset && (i < |sealed| ==> BaseAt(i + 1) > offset)
    {
      var lo, hi := 0, |sealed| + 1;
      while lo < hi
        invariant 0 <= lo <= hi <= |sealed| + 1
        invariant lo > 0 ==> BaseAt(lo - 1) <= offset
        invariant hi <= |sealed| ==> BaseAt(hi) > offset
      {
        var mid := (lo + hi) / 2;
        if !(BaseAt(mid) > offset) {
          lo := mid + 1;
        } else {
          hi := mid;
        }
      }
      return lo - 1;
    }

    lemma {:induction false} IsSegAt(offset: int, i: nat)
      requires Valid() && Ordered(View()) && i <= |sealed| && View()[0].base <= offset
      requires BaseAt(i) <= offset && (i < |sealed| ==> BaseAt(i + 1) > offset)
      ensures SegAt(View(), offset) == i
    {
      BaseAtIsView(true, i);
      if i < |sealed| {
        BaseAtIsView(true, i + 1);
      }
      SegAtIs(View(), offset, i);
    }

    /** Fetches from the last segment that does not begin after the offset. */
    method FetchAt(offset: int, maxBytes: nat) returns (r: FetchOutcome)
      requires Valid() && Ordered(View())
      ensures r == LogFetch(View(), offset, maxBytes)
    {
      var found, i := FindSegment(offset);
      if !found {
        if offset >= active.nextOffset {
          return Nothing(offset);
        }
        return OutOfRange;
      }
      r := FetchSegment(i, offset, maxBytes);
    }

    method FetchSegment(i: nat, offset: int, maxBytes: nat) returns (r: FetchOutcome)
      requires Valid() && Ordered(View()) && i <= |sealed| && BaseAt(i) <= offset
      ensures i < |View()| && r == FetchFrom(View()[i], offset, maxBytes)
    {
      var im := ImageAt(i);
      r := FetchImage(im, offset, maxBytes);
    }

    method ImageAt(i: nat) returns (im: Image)
      requires Valid() && i <= |sealed|
      ensures i < |View()| && Depicts(true, im, View()[i]) && im.base == BaseAt(i)
    {
      BaseAtIsView(true, i);
      if i < |sealed| {
        assert Depicts(true, sealed[i], history[i]);
        im := sealed[i];
      } else {
        active.SnapshotIsGood();
        im := active.Snapshot();
      }
    }

    /** Removes the leading sealed segments whose successor begins by the cutoff. */
    method DeleteSegmentsBefore(cutoff: int, ghost indexed: bool) returns (deleted: nat)
      requires Keeps(indexed)
      modifies `sealed, `history, `logStart
      ensures Keeps(indexed) && deleted == DeleteCount(old(View()), cutoff)
      ensures View() == old(View())[deleted..] && logStart == View()[0].base
    {
      deleted := DropDue(cutoff, indexed);
      BaseAtIsView(indexed, 0);
      logStart := BaseAt(0);
    }

    method DropDue(cutoff: int, ghost indexed: bool) returns (deleted: nat)
      requires Keeps(indexed)
      modifies `sealed, `history
      ensures Keeps(indexed) && deleted == DeleteCount(old(View()), cutoff) && View() == old(View())[deleted..]
    {
      deleted := 0;
      ghost var before := View();
      while DropsFirst(cutoff, indexed)
        invariant Keeps(indexed) && deleted <= |before| && View() == before[deleted..]
        invariant deleted + DeleteCount(View(), cutoff) == DeleteCount(before, cutoff)
        decreases |sealed|
      {
        DeleteStep(before, cutoff, deleted);
        DropFirst(indexed);
        deleted := deleted + 1;
      }
    }

    predicate DropsFirst(cutoff: int, ghost indexed: bool)
      requires Keeps(indexed)
      reads this, Repr()
      ensures DropsFirst(cutoff, indexed) <==> |View()| > 1 && View()[1].base <= cutoff
    {
      BaseAtIsView(indexed, 0);
      if |sealed| > 0 then BaseAtIsView(indexed, 1); BaseAt(1) <= cutoff else false
    }

    method DropFirst(ghost indexed: bool)
      requires Keeps(indexed) && |sealed| > 0
      modifies `sealed, `history
      ensures Keeps(indexed) && |sealed| == old(|sealed|) - 1 && View() == old(View())[1..]
    {
      DepictTail(indexed, sealed, history);
      sealed, history := sealed[1..], history[1..];
    }

    /** Stores a Produce request: every batch of it or none. `aged` stands for the
        clock: whether the active segment has reached its maximum age when it is
        looked at before batch i. */
    method Append(crc: Checksum, batches: seq<bytes>, aged: seq<bool>, paused: bool, ghost indexed: bool)
      returns (r: AppendOutcome)
      requires Keeps(indexed) && |aged| == |batches| && Numbered(Hwm(View()), batches)
      modifies `sealed, `active, `history, active, active.idx, active.tix
      ensures Keeps(indexed) && KeepsOrRenews()
      ensures r.DiskFull? <==> paused
      ensures r.NoBatches? <==> !paused && batches == []
      ensures r.Appended? <==> !paused && batches != [] && AllValid(crc, batches)
      ensures r.Appended? ==> r.first == Hwm(old(View()))
      ensures r.Appended? ==> View() == Plan(old(View()), maxBytes, batches, aged)
      ensures r.DiskFull? || r.NoBatches? ==> View() == old(View())
      ensures r.Refused? ==> View() == MaybeRoll(old(View()), maxBytes, aged[0])
      ensures SegsIntact(CrcTest(crc), old(View())) ==> SegsIntact(CrcTest(crc), View())
    {
      if paused {
        return DiskFull;
      }
      if |batches| == 0 {
        return NoBatches;
      }
      AppendKeepsIntact(crc, View(), maxBytes, batches, aged);
      r := RollAndStore(crc, batches, aged, indexed);
    }

    /** Rolls when that is due, then checks the whole request, then stores it. */
    method RollAndStore(crc: Checksum, batches: seq<bytes>, aged: seq<bool>, ghost indexed: bool)
      returns (r: AppendOutcome)
      requires Keeps(indexed) && batches != [] && |aged| == |batches| && Numbered(Hwm(View()), batches)
      modifies `sealed, `active, `history, active, active.idx, active.tix
      ensures Keeps(indexed) && KeepsOrRenews()
      ensures r.Appended? <==> AllValid(crc, batches)
      ensures r.Appended? ==> r.first == Hwm(old(View()))
      ensures r.Appended? ==> View() == Plan(old(View()), maxBytes, batches, aged)
      ensures !r.Appended? ==> r.Refused? && View() == MaybeRoll(old(View()), maxBytes, aged[0])
    {
      RollIfDue(crc, aged[0], indexed);
      r := CheckAndStore(crc, batches, aged, old(View()), indexed);
    }

    /** Entered with the roll before the first batch already made. */
    method CheckAndStore(crc: Checksum, batches: seq<bytes>, aged: seq<bool>, ghost start: seq<Seg>,
                         ghost indexed: bool)
      returns (r: AppendOutcome)
      requires Keeps(indexed) && batches != [] && |aged| == |batches| && start != []
      requires View() == MaybeRoll(start, maxBytes, aged[0]) && Numbered(Hwm(start), batches)
      modifies `sealed, `active, `history, active, active.idx, active.tix
      ensures Keeps(indexed) && KeepsOrRenews()
      ensures r.Appended? <==> AllValid(crc, batches)
      ensures r.Appended? ==> r.first == Hwm(start) && View() == Plan(start, maxBytes, batches, aged)
      ensures !r.Appended? ==> r.Refused? && View() == old(View())
    {
      RollKeepsHwm(start, maxBytes, aged[0]);
      var startOffset := active.nextOffset;
      var failed, at, error := ValidateAll(crc, batches);
      if failed {
        return AppendOutcome.Refused(at, error);
      }
      StoreAll(crc, batches, aged, start, indexed);
      return Appended(startOffset);
    }

    /** The write loop, entered with the roll before the first batch already made. */
    method StoreAll(crc: Checksum, batches: seq<bytes>, aged: seq<bool>, ghost start: seq<Seg>, ghost indexed: bool)
      requires Writing(indexed, crc, start, batches, aged)
      modifies `sealed, `active, `history, active, active.idx, active.tix
      ensures Keeps(indexed) && KeepsOrRenews()
      ensures View() == Plan(start, maxBytes, batches, aged)
    {
      var todo, clock := batches, aged;
      ghost var done := start;
      while todo != []
        invariant KeepsOrRenews() && Writing(indexed, crc, done, todo, clock)
        invariant Plan(done, maxBytes, todo, clock) == Plan(start, maxBytes, batches, aged)
        decreases |todo|
      {
        done := Turn(crc, todo, clock, done, indexed);
        todo, clock := todo[1..], clock[1..];
      }
    }

    /** `done` has been written, and the roll due before the next batch made. */
    ghost predicate Writing(indexed: bool, crc: Checksum, done: seq<Seg>, todo: seq<bytes>, clock: seq<bool>)
      reads this, Repr()
    {
      && Keeps(indexed) && done != [] && |clock| == |todo|
      && View() == (if todo == [] then done else MaybeRoll(done, maxBytes, clock[0]))
      && Numbered(Hwm(done), todo) && AllValid(crc, todo)
    }

    /** One turn of the write loop. */
    method Turn(crc: Checksum, todo: seq<bytes>, clock: seq<bool>, ghost before: seq<Seg>,
                ghost indexed: bool)
      returns (ghost after: seq<Seg>)
      requires Writing(indexed, crc, before, todo, clock) && todo != []
      modifies `sealed, `active, `history, active, active.idx, active.tix
      ensures KeepsOrRenews() && Writing(indexed, crc, after, todo[1..], clock[1..])
      ensures Plan(after, maxBytes, todo[1..], clock[1..]) == Plan(before, maxBytes, todo, clock)
    {
      AppendStep(crc, maxBytes, before, todo, clock);
      after := StoreFirst(crc, todo[0], clock[0], before, indexed);
      if |todo| > 1 {
        RollIfDue(crc, clock[1], indexed);
      }
    }

    /** Stamps and stores a batch, the roll before it made. */
    method StoreFirst(crc: Checksum, raw: bytes, due: bool, ghost before: seq<Seg>, ghost indexed: bool)
      returns (ghost after: seq<Seg>)
      requires Keeps(indexed) && before != [] && View() == MaybeRoll(before, maxBytes, due)
      requires Framed(Stamp(raw, Hwm(before))) && Appendable(crc, Stamp(raw, Hwm(before)))
      modifies active, active.idx, active.tix
      ensures Keeps(indexed) && View() == after == AppendOne(before, maxBytes, Read(Stamp(raw, Hwm(before))), due)
    {
      RollKeepsHwm(before, maxBytes, due);
      Store(crc, Stamp(raw, active.nextOffset), indexed);
      after := View();
    }

    /** Writes one stamped batch to the active segment. */
    method Store(crc: Checksum, raw: bytes, ghost indexed: bool)
      requires Keeps(indexed) && Framed(raw) && Appendable(crc, raw)
      modifies active, active.idx, active.tix
      ensures Keeps(indexed)
      ensures View() == Put(old(View()), Read(raw))
    {
      ReadAllSnoc(active.batches, raw);
      var r := active.Append(crc, raw);
    }
  }

  /** The log a request leaves: its batches stamped from the high watermark on and
      stored one by one. */
  ghost function Plan(segs: seq<Seg>, maxBytes: int, batches: seq<bytes>, aged: seq<bool>): seq<Seg>
    requires segs != [] && |aged| == |batches|
  {
    AppendAll(segs, maxBytes, ReadAll(Stamped(Hwm(segs), batches)), aged)
  }

  /** A request, stored or refused, leaves whole batches with matching checksums. */
  lemma {:induction false} AppendKeepsIntact(crc: Checksum, segs: seq<Seg>, maxBytes: int, batches: seq<bytes>,
                                             aged: seq<bool>)
    requires segs != [] && batches != [] && |aged| == |batches| && Numbered(Hwm(segs), batches)
    ensures SegsIntact(CrcTest(crc), segs) ==> SegsIntact(CrcTest(crc), MaybeRoll(segs, maxBytes, aged[0]))
    ensures SegsIntact(CrcTest(crc), segs) && AllValid(crc, batches) ==>
              SegsIntact(CrcTest(crc), Plan(segs, maxBytes, batches, aged))
  {
    if SegsIntact(CrcTest(crc), segs) {
      RollIntact(CrcTest(crc), segs, maxBytes, aged[0]);
      if AllValid(crc, batches) {
        StampedIntact(crc, Hwm(segs), batches);
        AppendIntact(CrcTest(crc), segs, maxBytes, ReadAll(Stamped(Hwm(segs), batches)), aged);
      }
    }
  }

  lemma RollKeepsHwm(segs: seq<Seg>, maxBytes: int, aged: bool)
    requires segs != []
    ensures Hwm(MaybeRoll(segs, maxBytes, aged)) == Hwm(segs)
  {
  }

  /** One turn of the write loop against the plan. */
  lemma {:induction false} AppendStep(crc: Checksum, maxBytes: int, segs: seq<Seg>, batches: seq<bytes>,
                                      aged: seq<bool>)
    requires segs != [] && batches != [] && |aged| == |batches| && Numbered(Hwm(segs), batches)
    requires ValidateBatchForAppend(crc, batches[0]).Ok?
    ensures var s := Stamp(batches[0], Hwm(segs)); var after := AppendOne(segs, maxBytes, Read(s), aged[0]);
            && Framed(s) && Appendable(crc, s)
            && Hwm(after) == Read(s).last + 1 && Numbered(Hwm(after), batches[1..])
            && Plan(segs, maxBytes, batches, aged) == Plan(after, maxBytes, batches[1..], aged[1..])
  {
    StampKeepsAppendable(crc, batches[0], Hwm(segs));
    StampReads(batches[0], Hwm(segs));
    RollKeepsHwm(segs, maxBytes, aged[0]);
    PlanStep(segs, maxBytes, batches, aged);
  }

  lemma PlanStep(segs: seq<Seg>, maxBytes: int, batches: seq<bytes>, aged: seq<bool>)
    requires segs != [] && batches != [] && |aged| == |batches|
    ensures var s := Read(Stamp(batches[0], Hwm(segs))); var after := AppendOne(segs, maxBytes, s, aged[0]);
            Plan(segs, maxBytes, batches, aged) == Plan(after, maxBytes, batches[1..], aged[1..])
  {
    var s := Stamp(batches[0], Hwm(segs));
    var rest := Stamped(Read(s).last + 1, batches[1..]);
    assert Stamped(Hwm(segs), batches) == [s] + rest;
    ReadAllHead(s, rest);
    assert Hwm(AppendOne(segs, maxBytes, Read(s), aged[0])) == Read(s).last + 1;
  }

  lemma ReadAllHead(s: bytes, rest: seq<bytes>)
    ensures ReadAll([s] + rest)[0] == Read(s) && ReadAll([s] + rest)[1..] == ReadAll(rest)
  {
  }

  /** The whole request is checked before any of it is written. */
  method ValidateAll(crc: Checksum, batches: seq<bytes>) returns (failed: bool, at: nat, error: Error)
    ensures failed <==> !AllValid(crc, batches)
    ensures failed ==>
              at < |batches| && AllValid(crc, batches[..at]) && ValidateBatchForAppend(crc, batches[at]) == Err(error)
  {
    var i := 0;
    while i < |batches|
      invariant 0 <= i <= |batches|
      invariant AllValid(crc, batches[..i])
    {
      match ValidateBatchForAppend(crc, batches[i]) {
        case Err(e) => return true, i, e;
        case Ok(_) =>
      }
      i := i + 1;
    }
    return false, 0, BadMagic;
  }

  method OpenAll(files: seq<Files>, interval: int, maxBytes: int, crc: Checksum)
    returns (images: seq<Image>, last: Segment, ghost segs: seq<Seg>)
    ensures fresh(last) && fresh(last.idx) && fresh(last.tix)
    ensures !last.sealed && last.maxBytes == maxBytes
    ensures last.Sound() && AllDepict(false, images, segs)
    ensures last.Valid() && AllDepict(true, images, segs) <==> AllClean(files)
    ensures segs + [last.View()] == if files == [] then [Seg(0, [])] else Recovered(crc, files)
  {
    if |files| == 0 {
      images, segs := [], [];
      last := OpenEmpty(0, interval, maxBytes, crc);
    } else {
      var n := |files| - 1;
      images := RecoverSealed(files[..n], interval, maxBytes, crc);
      segs := Recovered(crc, files[..n]);
      last := OpenFiles(files[n], interval, maxBytes, crc);
      CleanSplit(files);
      RecoveredSplit(crc, files);
    }
  }

  lemma {:induction false} RecoveredSplit(crc: Checksum, files: seq<Files>)
    requires files != []
    ensures var n := |files| - 1;
            Recovered(crc, files) == Recovered(crc, files[..n]) + [RecoveredSeg(crc, files[n])]
  {
  }

  lemma CleanSplit(files: seq<Files>)
    requires files != []
    ensures AllClean(files) <==> AllClean(files[..|files| - 1]) && files[|files| - 1].Clean()
  {
    forall i | 0 <= i < |files| - 1
      ensures files[..|files| - 1][i] == files[i]
    {
    }
  }

  lemma {:induction false} DeleteStep(segs: seq<Seg>, cutoff: int, n: nat)
    requires n < |segs| && |segs[n..]| > 1 && segs[n..][1].base <= cutoff
    ensures DeleteCount(segs[n..], cutoff) == 1 + DeleteCount(segs[n + 1..], cutoff)
    ensures segs[n..][1..] == segs[n + 1..]
  {
  }

  method RecoverSealed(files: seq<Files>, interval: int, maxBytes: int, crc: Checksum) returns (images: seq<Image>)
    ensures AllDepict(false, images, Recovered(crc, files))
    ensures AllDepict(true, images, Recovered(crc, files)) <==> AllClean(files)
  {
    images := [];
    for i := 0 to |files|
      invariant |images| == i
      invariant forall k {:trigger images[k]} :: 0 <= k < i ==>
                  && Depicts(false, images[k], RecoveredSeg(crc, files[k]))
                  && (Depicts(true, images[k], RecoveredSeg(crc, files[k])) <==> files[k].Clean())
    {
      var image := OpenSealed(files[i], interval, maxBytes, crc);
      images := images + [image];
    }
    DepictsWhenClean(images, crc, files);
  }

  lemma DepictsWhenClean(images: seq<Image>, crc: Checksum, files: seq<Files>)
    requires |images| == |files|
    requires forall k {:trigger images[k]} :: 0 <= k < |files| ==>
               && Depicts(false, images[k], RecoveredSeg(crc, files[k]))
                  && (Depicts(true, images[k], RecoveredSeg(crc, files[k])) <==> files[k].Clean())
    ensures AllDepict(false, images, Recovered(crc, files))
    ensures AllDepict(true, images, Recovered(crc, files)) <==> AllClean(files)
  {
    var segs := Recovered(crc, files);
    if AllDepict(true, images, segs) {
      forall i | 0 <= i < |files|
        ensures files[i].Clean()
      {
        assert Depicts(true, images[i], segs[i]);
      }
    }
  }

  method OpenSealed(f: Files, interval: int, maxBytes: int, crc: Checksum) returns (image: Image)
    ensures Depicts(false, image, RecoveredSeg(crc, f))
    ensures Depicts(true, image, RecoveredSeg(crc, f)) <==> f.Clean()
  {
    var seg := OpenFiles(f, interval, maxBytes, crc);
    image := seg.Seal();
  }

  method OpenFiles(f: Files, interval: int, maxBytes: int, crc: Checksum) returns (seg: Segment)
    ensures fresh(seg) && fresh(seg.idx) && fresh(seg.tix)
    ensures (seg.Valid() <==> f.Clean()) && !seg.sealed && seg.maxBytes == maxBytes
    ensures seg.Sound() && seg.View() == RecoveredSeg(crc, f)
  {
    seg := new Segment.Open(f.base, interval, maxBytes, f.log, f.index, f.times, crc);
  }

  /** OpenSegment on a name with no file behind it. */
  method OpenEmpty(base: int, interval: int, maxBytes: int, crc: Checksum) returns (seg: Segment)
    ensures fresh(seg) && fresh(seg.idx) && fresh(seg.tix)
    ensures seg.Valid() && !seg.sealed && seg.View() == Seg(base, []) && seg.maxBytes == maxBytes
  {
    seg := new Segment.Open(base, interval, maxBytes, [], [], [], crc);
    assert !Starts(CrcTest(crc), []);
    assert seg.batches == [];
  }
}
