/** Every run of a partition log: requests, retention, crashes and restarts. */
module LogRuns {
  import opened Bytes
  import opened Record
  import opened Framing
  import opened Offsets
  import opened Layout
  import opened Segments
  import opened LogModel
  import opened Logs

  /** A crash keeps the sealed segments, which were synced when they were sealed,
      and cuts the active file at some byte; a restart then keeps the whole batches. */
  function CutActive(segs: seq<Seg>, cut: int): (r: seq<Seg>)
    requires segs != []
    ensures |r| == |segs|
  {
    var last := Last(segs);
    segs[..|segs| - 1] + [Seg(last.base, last.batches[..Fit(Raws(last.batches), cut)])]
  }

  /** How many batches such a crash costs. */
  function Lost(segs: seq<Seg>, cut: int): (n: nat)
    requires segs != []
    ensures n <= |Last(segs).batches|
  {
    |Last(segs).batches| - Fit(Raws(Last(segs).batches), cut)
  }

  lemma {:induction false} CutEffect(segs: seq<Seg>, cut: int)
    requires Chain(segs)
    ensures Chain(CutActive(segs, cut)) && CutActive(segs, cut)[0].base == segs[0].base
    ensures Lost(segs, cut) <= |Flat(segs)|
    ensures Flat(CutActive(segs, cut)) == Flat(segs)[..|Flat(segs)| - Lost(segs, cut)]
  {
    var n, last := |segs| - 1, Last(segs);
    var kept := Fit(Raws(last.batches), cut);
    ChainLast(segs);
    DenseSplit(last.base, last.batches, kept);
    var short := Seg(last.base, last.batches[..kept]);
    ChainSingle(short);
    ChainReplaceLast(segs, [short]);
    FlatLast(segs);
    FlatConcat(segs[..n], [short]);
    var head := Flat(segs[..n]);
    assert (head + last.batches)[..|head| + kept] == head + last.batches[..kept];
  }

  // ---- a crash is a cut and a recovery ------------------------------------------------

  /** The segment files as a crash leaves them: sealed ones whole, the active one cut. */
  function Torn(segs: seq<Seg>, cut: nat): (files: seq<Files>)
    requires segs != [] && cut <= |Last(segs).File()|
    ensures |files| == |segs|
  {
    seq(|segs|, i requires 0 <= i < |segs| =>
      Files(segs[i].base, if i < |segs| - 1 then segs[i].File() else Last(segs).File()[..cut], [], []))
  }

  /** What a restart reads back from a segment's file. */
  lemma {:induction false} RecoverSegment(crc: Checksum, s: Seg, cut: nat, f: Files)
    requires AllIntact(CrcTest(crc), s.batches) && cut <= |s.File()| && f.base == s.base && f.log == s.File()[..cut]
    ensures RecoveredSeg(crc, f) == Seg(s.base, s.batches[..Fit(Raws(s.batches), cut)])
  {
    var raws := Raws(s.batches);
    IntactReads(CrcTest(crc), s.batches);
    RecoverAfterCut(crc, raws, cut);
    var k := Fit(raws, cut);
    ReadAllSlice(raws, 0, k);
    assert raws[0..k] == raws[..k];
    assert ReadAll(raws)[0..k] == s.batches[..k];
  }

  lemma {:induction false} RecoverWhole(crc: Checksum, s: Seg, f: Files)
    requires AllIntact(CrcTest(crc), s.batches) && f.base == s.base && f.log == s.File()
    ensures RecoveredSeg(crc, f) == s
  {
    assert s.File()[..|s.File()|] == s.File();
    RecoverSegment(crc, s, |s.File()|, f);
    FitSaturates(Raws(s.batches), |s.File()|);
  }

  /** Opening the files a crash left, whatever their indexes hold, yields the log without
      the batches the cut went through. */
  lemma {:induction false} ReopenIsCut(crc: Checksum, segs: seq<Seg>, cut: nat, files: seq<Files>)
    requires segs != [] && SegsIntact(CrcTest(crc), segs) && cut <= |Last(segs).File()| && |files| == |segs|
    requires forall i :: 0 <= i < |segs| ==>
               files[i].base == Torn(segs, cut)[i].base && files[i].log == Torn(segs, cut)[i].log
    ensures Recovered(crc, files) == CutActive(segs, cut)
  {
    var again, short := Recovered(crc, files), CutActive(segs, cut);
    forall i | 0 <= i < |segs|
      ensures again[i] == short[i]
    {
      assert files[i].log == Torn(segs, cut)[i].log;
      if i < |segs| - 1 {
        RecoverWhole(crc, segs[i], files[i]);
      } else {
        RecoverSegment(crc, segs[i], cut, files[i]);
      }
    }
  }

  // ---- runs --------------------------------------------------------------------------

  datatype Op =
    | Produce(request: seq<bytes>, aged: seq<bool>)
    | Refuse(due: bool)
    | Delete(cutoff: int)
    | Crash(cut: nat)

  /** The log, and all batches ever accepted and not lost to a crash. */
  datatype State = State(segs: seq<Seg>, accepted: seq<Batch>)

  /** What the broker stores: a request that passes the validation, in which no batch ends
      before it begins. A crash cuts within the active file. */
  ghost predicate Enabled(crc: Checksum, s: State, op: Op)
    requires s.segs != []
  {
    match op
    case Produce(request, aged) =>
      request != [] && |aged| == |request| && Accepts(crc, s.segs, request)
    case Refuse(_) => true
    case Delete(_) => true
    case Crash(cut) => cut <= |Last(s.segs).File()|
  }

  ghost predicate Accepts(crc: Checksum, segs: seq<Seg>, request: seq<bytes>)
    requires segs != []
  {
    AllValid(crc, request) && Numbered(Hwm(segs), request) && Forward(request)
  }

  /** The batches of a request as the log numbers them. */
  function Numbers(segs: seq<Seg>, request: seq<bytes>): seq<Batch>
    requires segs != []
  {
    ReadAll(Stamped(Hwm(segs), request))
  }

  /** A request is stored as Log.Append stores it, and after a crash the log is what
      Log.Open makes of the files. */
  ghost function Step(crc: Checksum, s: State, op: Op, maxBytes: int): (t: State)
    requires s.segs != [] && Enabled(crc, s, op)
    ensures t.segs != []
  {
    match op
    case Produce(request, aged) =>
      State(Plan(s.segs, maxBytes, request, aged), s.accepted + Numbers(s.segs, request))
    case Refuse(aged) => s.(segs := MaybeRoll(s.segs, maxBytes, aged))
    case Delete(cutoff) => s.(segs := s.segs[DeleteCount(s.segs, cutoff)..])
    case Crash(cut) =>
      var again := Recovered(crc, Torn(s.segs, cut));
      State(again, Without(s.accepted, |Flat(s.segs)| - |Flat(again)|))
  }

  /** A run without its last n batches. */
  function Without(bs: seq<Batch>, n: int): seq<Batch> {
    if 0 <= n <= |bs| then bs[..|bs| - n] else []
  }

  ghost predicate CanRun(crc: Checksum, s: State, ops: seq<Op>, maxBytes: int)
    decreases |ops|
  {
    && s.segs != []
    && (ops != [] ==> Enabled(crc, s, ops[0]) && CanRun(crc, Step(crc, s, ops[0], maxBytes), ops[1..], maxBytes))
  }

  ghost function Run(crc: Checksum, s: State, ops: seq<Op>, maxBytes: int): State
    requires CanRun(crc, s, ops, maxBytes)
    decreases |ops|
  {
    if ops == [] then s else Run(crc, Step(crc, s, ops[0], maxBytes), ops[1..], maxBytes)
  }

  const FRESH := State([Seg(0, [])], [])

  /** `f` is the end of what was accepted, and its first batch has number `base`. */
  ghost predicate Ends(accepted: seq<Batch>, f: seq<Batch>, base: int) {
    && Dense(0, accepted) && |f| <= |accepted|
    && var gone := |accepted| - |f|; accepted[gone..] == f && base == Next(0, accepted[..gone])
  }

  /** The segments concatenate to a suffix of what was accepted: gap-free, numbered
      densely from zero, and missing only leading batches. */
  ghost predicate Suffix(s: State) {
    Chain(s.segs) && Ends(s.accepted, Flat(s.segs), s.segs[0].base)
  }

  lemma SuffixHwm(s: State)
    requires Suffix(s)
    ensures Hwm(s.segs) == Next(0, s.accepted)
  {
    ChainIsDense(s.segs);
    DenseSplit(0, s.accepted, |s.accepted| - |Flat(s.segs)|);
  }

  lemma {:induction false} EndsGrow(accepted: seq<Batch>, f: seq<Batch>, base: int, bs: seq<Batch>)
    requires Ends(accepted, f, base) && Dense(Next(0, accepted), bs)
    ensures Ends(accepted + bs, f + bs, base)
  {
    var gone, grown := |accepted| - |f|, accepted + bs;
    DenseConcat(0, accepted, bs);
    assert grown[gone..] == accepted[gone..] + bs && grown[..gone] == accepted[..gone];
  }

  lemma {:induction false} SuffixGrow(s: State, segs: seq<Seg>, bs: seq<Batch>)
    requires Suffix(s) && Extends(s.segs, segs, bs) && Dense(Hwm(s.segs), bs)
    ensures Suffix(State(segs, s.accepted + bs))
  {
    SuffixHwm(s);
    EndsGrow(s.accepted, Flat(s.segs), s.segs[0].base, bs);
  }

  lemma {:induction false} EndsDrop(accepted: seq<Batch>, a: seq<Batch>, b: seq<Batch>, base: int)
    requires Ends(accepted, a + b, base)
    ensures Ends(accepted, b, Next(base, a))
  {
    var gone := |accepted| - |a + b|;
    assert accepted[gone + |a|..] == accepted[gone..][|a|..] == b;
    assert accepted[..gone + |a|] == accepted[..gone] + a by { assert accepted[gone..][..|a|] == a; }
    DenseConcat(0, accepted[..gone], a);
  }

  lemma SuffixDrop(s: State, n: nat)
    requires Suffix(s) && n < |s.segs|
    ensures Suffix(s.(segs := s.segs[n..]))
  {
    ChainDrop(s.segs, n);
    EndsDrop(s.accepted, Flat(s.segs[..n]), Flat(s.segs[n..]), s.segs[0].base);
  }

  lemma {:induction false} CutTail<T>(all: seq<T>, gone: nat, m: nat)
    requires gone <= m <= |all|
    ensures all[..m][gone..] == all[gone..][..m - gone] && all[..m][..gone] == all[..gone]
  {
  }

  lemma {:induction false} EndsCut(accepted: seq<Batch>, f: seq<Batch>, base: int, lost: nat)
    requires Ends(accepted, f, base) && lost <= |f|
    ensures Ends(accepted[..|accepted| - lost], f[..|f| - lost], base)
  {
    var m := |accepted| - lost;
    DenseSplit(0, accepted, m);
    CutTail(accepted, |accepted| - |f|, m);
    var short, left := accepted[..m], f[..|f| - lost];
    assert |short| - |left| == |accepted| - |f|;
  }

  lemma SuffixCut(s: State, cut: nat)
    requires Suffix(s)
    ensures Lost(s.segs, cut) <= |s.accepted|
    ensures Suffix(State(CutActive(s.segs, cut), s.accepted[..|s.accepted| - Lost(s.segs, cut)]))
  {
    CutEffect(s.segs, cut);
    EndsCut(s.accepted, Flat(s.segs), s.segs[0].base, Lost(s.segs, cut));
  }

  /** What an accepted request adds is dense and intact. */
  lemma NumbersAre(crc: Checksum, segs: seq<Seg>, request: seq<bytes>)
    requires segs != [] && Accepts(crc, segs, request)
    ensures Dense(Hwm(segs), Numbers(segs, request)) && AllIntact(CrcTest(crc), Numbers(segs, request))
  {
    DenseExactlyWhen(Hwm(segs), request);
    StampedIntact(crc, Hwm(segs), request);
  }

  /** A dense suffix of what was accepted, every batch of it intact. */
  ghost predicate Kept(crc: Checksum, s: State) {
    Suffix(s) && SegsIntact(CrcTest(crc), s.segs)
  }

  lemma {:induction false} ProduceKeeps(crc: Checksum, s: State, request: seq<bytes>, aged: seq<bool>, maxBytes: int)
    requires Kept(crc, s) && request != [] && |aged| == |request| && Accepts(crc, s.segs, request)
    ensures Kept(crc, Step(crc, s, Produce(request, aged), maxBytes))
  {
    var bs := Numbers(s.segs, request);
    NumbersAre(crc, s.segs, request);
    AppendAllEffect(s.segs, maxBytes, bs, aged);
    SuffixGrow(s, AppendAll(s.segs, maxBytes, bs, aged), bs);
    AppendIntact(CrcTest(crc), s.segs, maxBytes, bs, aged);
  }

  lemma {:induction false} RefuseKeeps(crc: Checksum, s: State, aged: bool, maxBytes: int)
    requires Kept(crc, s)
    ensures Kept(crc, s.(segs := MaybeRoll(s.segs, maxBytes, aged)))
  {
    RollEffect(s.segs);
    SuffixGrow(s, Roll(s.segs), []);
    assert s.accepted + [] == s.accepted;
    RollIntact(CrcTest(crc), s.segs, maxBytes, aged);
  }

  lemma {:induction false} CrashKeeps(crc: Checksum, s: State, cut: nat, maxBytes: int)
    requires Kept(crc, s) && cut <= |Last(s.segs).File()|
    ensures Kept(crc, Step(crc, s, Crash(cut), maxBytes))
    ensures Step(crc, s, Crash(cut), maxBytes).segs == CutActive(s.segs, cut)
  {
    var again := Recovered(crc, Torn(s.segs, cut));
    ReopenIsCut(crc, s.segs, cut, Torn(s.segs, cut));
    RecoveredIntact(crc, Torn(s.segs, cut));
    CutKeeps(s, cut, again);
  }

  lemma {:induction false} CutKeeps(s: State, cut: nat, again: seq<Seg>)
    requires Suffix(s) && again == CutActive(s.segs, cut)
    ensures Suffix(State(again, Without(s.accepted, |Flat(s.segs)| - |Flat(again)|)))
  {
    CutEffect(s.segs, cut);
    SuffixCut(s, cut);
  }

  lemma {:induction false} StepKeepsSuffix(crc: Checksum, s: State, op: Op, maxBytes: int)
    requires Kept(crc, s) && Enabled(crc, s, op)
    ensures Kept(crc, Step(crc, s, op, maxBytes))
  {
    match op
    case Produce(request, aged) => ProduceKeeps(crc, s, request, aged, maxBytes);
    case Refuse(aged) => RefuseKeeps(crc, s, aged, maxBytes);
    case Delete(cutoff) => SuffixDrop(s, DeleteCount(s.segs, cutoff));
    case Crash(cut) => CrashKeeps(crc, s, cut, maxBytes);
  }

  /** Under any run of requests with any roll choices, refusals, retention deletes
      and crashes at any byte, the log stays a dense suffix of what was accepted. */
  lemma {:induction false} RunsKeepSuffix(crc: Checksum, s: State, ops: seq<Op>, maxBytes: int)
    requires Kept(crc, s) && CanRun(crc, s, ops, maxBytes)
    ensures Kept(crc, Run(crc, s, ops, maxBytes))
    decreases |ops|
  {
    if ops != [] {
      StepKeepsSuffix(crc, s, ops[0], maxBytes);
      RunsKeepSuffix(crc, Step(crc, s, ops[0], maxBytes), ops[1..], maxBytes);
    }
  }

  lemma {:induction false} EveryRunFromFresh(crc: Checksum, ops: seq<Op>, maxBytes: int)
    requires CanRun(crc, FRESH, ops, maxBytes)
    ensures Kept(crc, Run(crc, FRESH, ops, maxBytes))
  {
    assert FRESH.accepted == [] && Flat(FRESH.segs) == [] + Flat([]) == [];
    RunsKeepSuffix(crc, FRESH, ops, maxBytes);
  }

  /** In every reachable state, opening the files left by a crash at any byte costs exactly
      the batches the cut went through. */
  lemma {:induction false} EveryCrashIsCut(crc: Checksum, ops: seq<Op>, maxBytes: int, cut: nat, files: seq<Files>)
    requires CanRun(crc, FRESH, ops, maxBytes)
    requires var segs := Run(crc, FRESH, ops, maxBytes).segs;
             && segs != [] && cut <= |Last(segs).File()| && |files| == |segs|
             && forall i :: 0 <= i < |segs| ==>
                  files[i].base == Torn(segs, cut)[i].base && files[i].log == Torn(segs, cut)[i].log
    ensures var segs := Run(crc, FRESH, ops, maxBytes).segs; Recovered(crc, files) == CutActive(segs, cut)
  {
    EveryRunFromFresh(crc, ops, maxBytes);
    ReopenIsCut(crc, Run(crc, FRESH, ops, maxBytes).segs, cut, files);
  }

  /** Requests one after another receive adjoining offset ranges: each is numbered
      from the end of the one before it. */
  lemma {:induction false} AppendsAreAdjacent(crc: Checksum, s: State, request: seq<bytes>, aged: seq<bool>,
                                              maxBytes: int)
    requires Kept(crc, s) && Enabled(crc, s, Produce(request, aged))
    ensures var bs := Numbers(s.segs, request);
            && bs[0].base == Hwm(s.segs) == Next(0, s.accepted)
            && Hwm(Step(crc, s, Produce(request, aged), maxBytes).segs) == bs[|bs| - 1].last + 1
  {
    SuffixHwm(s);
    NumbersAre(crc, s.segs, request);
    AppendAllEffect(s.segs, maxBytes, Numbers(s.segs, request), aged);
  }

  // ---- how large segments get ------------------------------------------------------------

  /** Its bytes before the last batch are fewer than the limit. */
  ghost predicate Within(s: Seg, maxBytes: int) {
    s.batches != [] ==> |Join(Raws(s.batches[..|s.batches| - 1]))| < maxBytes
  }

  ghost predicate AllWithin(segs: seq<Seg>, maxBytes: int) {
    forall i :: 0 <= i < |segs| ==> Within(segs[i], maxBytes)
  }

  /** A segment with intact batches is empty just when its file is. */
  lemma {:induction false} EmptyFile(ok: Test, s: Seg)
    requires AllIntact(ok, s.batches)
    ensures s.batches == [] <==> s.File() == []
  {
    if s.batches != [] {
      IntactReads(ok, s.batches);
      assert Join(Raws(s.batches)) == Raws(s.batches)[0] + Join(Raws(s.batches)[1..]);
    }
  }

  /** A batch begins a new segment if and only if the active one is not empty and has reached a
      positive limit or its age; otherwise it goes behind the others. */
  lemma {:induction false} BeginsExactlyWhen(ok: Test, segs: seq<Seg>, maxBytes: int, b: Batch, aged: bool)
    requires Chain(segs) && SegsIntact(ok, segs)
    ensures var last, after := Last(segs), AppendOne(segs, maxBytes, b, aged);
            if last.batches != [] && (aged || 0 < maxBytes <= |last.File()|)
            then after == segs + [Seg(last.Next(), [b])]
            else after == segs[..|segs| - 1] + [Seg(last.base, last.batches + [b])]
  {
    var last, n := Last(segs), |segs| - 1;
    assert segs[n] == last;
    EmptyFile(ok, last);
    ChainLast(segs);
    if last.batches != [] && (aged || 0 < maxBytes <= |last.File()|) {
      DenseNext(last.base, last.batches);
      var rolled := segs + [Seg(last.Next(), [])];
      assert MaybeRoll(segs, maxBytes, aged) == rolled;
      assert rolled[..|rolled| - 1] == segs && [] + [b] == [b];
    }
  }

  lemma {:induction false} AppendSnoc(segs: seq<Seg>, maxBytes: int, bs: seq<Batch>, aged: seq<bool>, b: Batch,
                                      due: bool)
    requires segs != [] && |aged| == |bs|
    ensures AppendAll(segs, maxBytes, bs + [b], aged + [due])
            == AppendOne(AppendAll(segs, maxBytes, bs, aged), maxBytes, b, due)
    decreases |bs|
  {
    if bs == [] {
      assert bs + [b] == [b] && aged + [due] == [due] && [b][1..] == [] && [due][1..] == [];
    } else {
      assert (bs + [b])[1..] == bs[1..] + [b] && (aged + [due])[1..] == aged[1..] + [due];
      AppendSnoc(AppendOne(segs, maxBytes, bs[0], aged[0]), maxBytes, bs[1..], aged[1..], b, due);
    }
  }

  /** In every reachable state, batch j of a request that is accepted begins a new segment if and
      only if the active one, with the batches before it stored, is not empty and has reached a
      positive limit or its age. */
  lemma {:induction false} RequestSealsExactlyWhen(crc: Checksum, ops: seq<Op>, maxBytes: int, s: State,
                                                   request: seq<bytes>, aged: seq<bool>, j: nat)
    requires CanRun(crc, FRESH, ops, maxBytes) && s == Run(crc, FRESH, ops, maxBytes) && j < |request|
    requires s.segs != [] && Enabled(crc, s, Produce(request, aged))
    ensures var bs := Numbers(s.segs, request);
            var before := AppendAll(s.segs, maxBytes, bs[..j], aged[..j]);
            var after := AppendAll(s.segs, maxBytes, bs[..j + 1], aged[..j + 1]);
            if Last(before).batches != [] && (aged[j] || 0 < maxBytes <= |Last(before).File()|)
            then after == before + [Seg(Last(before).Next(), [bs[j]])]
            else after == before[..|before| - 1] + [Seg(Last(before).base, Last(before).batches + [bs[j]])]
  {
    EveryRunFromFresh(crc, ops, maxBytes);
    NumbersAre(crc, s.segs, request);
    BatchSeals(crc, s.segs, maxBytes, Numbers(s.segs, request), aged, j);
  }

  lemma {:induction false} BatchSeals(crc: Checksum, segs: seq<Seg>, maxBytes: int, bs: seq<Batch>, aged: seq<bool>,
                                      j: nat)
    requires Chain(segs) && SegsIntact(CrcTest(crc), segs) && |aged| == |bs| && j < |bs|
    requires Dense(Hwm(segs), bs) && AllIntact(CrcTest(crc), bs)
    ensures var before := AppendAll(segs, maxBytes, bs[..j], aged[..j]);
            var after := AppendAll(segs, maxBytes, bs[..j + 1], aged[..j + 1]);
            if Last(before).batches != [] && (aged[j] || 0 < maxBytes <= |Last(before).File()|)
            then after == before + [Seg(Last(before).Next(), [bs[j]])]
            else after == before[..|before| - 1] + [Seg(Last(before).base, Last(before).batches + [bs[j]])]
  {
    AfterSome(crc, segs, maxBytes, bs, aged, j);
    assert bs[..j + 1] == bs[..j] + [bs[j]] && aged[..j + 1] == aged[..j] + [aged[j]];
    AppendSnoc(segs, maxBytes, bs[..j], aged[..j], bs[j], aged[j]);
    BeginsExactlyWhen(CrcTest(crc), AppendAll(segs, maxBytes, bs[..j], aged[..j]), maxBytes, bs[j], aged[j]);
  }

  /** The first batches of a request leave a chain of intact segments. */
  lemma {:induction false} AfterSome(crc: Checksum, segs: seq<Seg>, maxBytes: int, bs: seq<Batch>, aged: seq<bool>,
                                     j: nat)
    requires Chain(segs) && SegsIntact(CrcTest(crc), segs) && |aged| == |bs| && j <= |bs|
    requires Dense(Hwm(segs), bs) && AllIntact(CrcTest(crc), bs)
    ensures var before := AppendAll(segs, maxBytes, bs[..j], aged[..j]);
            Chain(before) && SegsIntact(CrcTest(crc), before)
  {
    DenseSplit(Hwm(segs), bs, j);
    IntactPrefix(CrcTest(crc), bs, j);
    AppendAllEffect(segs, maxBytes, bs[..j], aged[..j]);
    AppendIntact(CrcTest(crc), segs, maxBytes, bs[..j], aged[..j]);
  }

  /** A request that is refused seals the active segment under the same condition and changes
      nothing else. */
  lemma {:induction false} RefusalSealsExactlyWhen(crc: Checksum, ops: seq<Op>, maxBytes: int, due: bool)
    requires CanRun(crc, FRESH, ops, maxBytes)
    ensures var s := Run(crc, FRESH, ops, maxBytes);
            && s.segs != []
            && var last := Last(s.segs);
               Step(crc, s, Refuse(due), maxBytes).segs
               == if last.batches != [] && (due || 0 < maxBytes <= |last.File()|)
                  then s.segs + [Seg(last.Next(), [])] else s.segs
  {
    var s := Run(crc, FRESH, ops, maxBytes);
    EveryRunFromFresh(crc, ops, maxBytes);
    var last := Last(s.segs);
    assert s.segs[|s.segs| - 1] == last;
    EmptyFile(CrcTest(crc), last);
    ChainLast(s.segs);
    if last.batches != [] {
      DenseNext(last.base, last.batches);
    }
  }

  lemma {:induction false} AppendOneWithin(ok: Test, segs: seq<Seg>, maxBytes: int, b: Batch, aged: bool)
    requires maxBytes > 0 && Chain(segs) && SegsIntact(ok, segs) && AllWithin(segs, maxBytes)
    ensures AllWithin(AppendOne(segs, maxBytes, b, aged), maxBytes)
  {
    var last, after := Last(segs), AppendOne(segs, maxBytes, b, aged);
    BeginsExactlyWhen(ok, segs, maxBytes, b, aged);
    EmptyFile(ok, segs[|segs| - 1]);
    assert [b][..0] == [] && Raws([]) == [];
    assert (last.batches + [b])[..|last.batches|] == last.batches;
  }

  lemma {:induction false} AppendAllWithin(crc: Checksum, segs: seq<Seg>, maxBytes: int, bs: seq<Batch>,
                                           aged: seq<bool>)
    requires maxBytes > 0 && Chain(segs) && SegsIntact(CrcTest(crc), segs) && AllWithin(segs, maxBytes)
    requires |aged| == |bs| && Dense(Hwm(segs), bs) && AllIntact(CrcTest(crc), bs)
    ensures AllWithin(AppendAll(segs, maxBytes, bs, aged), maxBytes)
    decreases |bs|
  {
    if bs != [] {
      var mid := AppendOne(segs, maxBytes, bs[0], aged[0]);
      AppendOneWithin(CrcTest(crc), segs, maxBytes, bs[0], aged[0]);
      AppendOneEffect(segs, maxBytes, bs[0], aged[0]);
      RollIntact(CrcTest(crc), segs, maxBytes, aged[0]);
      PutIntact(CrcTest(crc), MaybeRoll(segs, maxBytes, aged[0]), bs[0]);
      AppendAllWithin(crc, mid, maxBytes, bs[1..], aged[1..]);
    }
  }

  lemma {:induction false} CutWithin(segs: seq<Seg>, maxBytes: int, cut: nat)
    requires segs != [] && AllWithin(segs, maxBytes)
    ensures AllWithin(CutActive(segs, cut), maxBytes)
  {
    var last := Last(segs);
    var k := Fit(Raws(last.batches), cut);
    assert Within(segs[|segs| - 1], maxBytes);
    if k > 0 {
      var longer := last.batches[..|last.batches| - 1];
      assert last.batches[..k][..k - 1] == longer[..k - 1];
      assert Raws(longer)[..k - 1] == Raws(longer[..k - 1]);
      JoinSplit(Raws(longer), k - 1);
    }
  }

  lemma {:induction false} StepWithin(crc: Checksum, s: State, op: Op, maxBytes: int)
    requires maxBytes > 0 && Kept(crc, s) && AllWithin(s.segs, maxBytes) && Enabled(crc, s, op)
    ensures AllWithin(Step(crc, s, op, maxBytes).segs, maxBytes)
  {
    match op
    case Produce(request, aged) =>
      NumbersAre(crc, s.segs, request);
      AppendAllWithin(crc, s.segs, maxBytes, Numbers(s.segs, request), aged);
    case Refuse(due) =>
    case Delete(cutoff) =>
    case Crash(cut) =>
      ReopenIsCut(crc, s.segs, cut, Torn(s.segs, cut));
      CutWithin(s.segs, maxBytes, cut);
  }

  lemma {:induction false} RunWithin(crc: Checksum, s: State, ops: seq<Op>, maxBytes: int)
    requires maxBytes > 0 && Kept(crc, s) && AllWithin(s.segs, maxBytes) && CanRun(crc, s, ops, maxBytes)
    ensures AllWithin(Run(crc, s, ops, maxBytes).segs, maxBytes)
    decreases |ops|
  {
    if ops != [] {
      StepWithin(crc, s, ops[0], maxBytes);
      StepKeepsSuffix(crc, s, ops[0], maxBytes);
      RunWithin(crc, Step(crc, s, ops[0], maxBytes), ops[1..], maxBytes);
    }
  }

  /** In every run, with a positive limit, each segment had fewer bytes than the limit before its
      last batch: it is over the limit by that batch at most. */
  lemma {:induction false} EverySegmentWithin(crc: Checksum, ops: seq<Op>, maxBytes: int)
    requires maxBytes > 0 && CanRun(crc, FRESH, ops, maxBytes)
    ensures AllWithin(Run(crc, FRESH, ops, maxBytes).segs, maxBytes)
  {
    var none: seq<Op> := [];
    assert CanRun(crc, FRESH, none, maxBytes) && Run(crc, FRESH, none, maxBytes) == FRESH;
    EveryRunFromFresh(crc, none, maxBytes);
    RunWithin(crc, FRESH, ops, maxBytes);
  }
}
