/** What boot owes a fetch: a segment deleted locally whose entry a crash lost is out of range
    until boot has judged its checkpoint, and boot judges each of them once. */
module TieredBoot {
  import opened Record
  import opened Segments
  import opened LogModel
  import opened Logs
  import opened Fetching
  import opened ObjectStore
  import opened Manifests
  import opened ColdTier
  import opened ColdTierRace
  import opened TieredFetch
  import LogRuns
  import A = Archive

  // ---- when boot is done everything is readable ---------------------------------------------------

  /** Every segment deleted locally is listed, or boot has still to judge it. */
  ghost predicate Accounted(t: Tier) {
    t.gone <= |t.segs| &&
    forall k :: k in Keys(t.home, t.segs[..t.gone]) ==> k in A.KeysOf(t.cold.mem) || k in t.cold.boot
  }

  /** Boot's question about an object fails, and the checkpoint is left as it is. */
  predicate Skips(act: Act) {
    act.Archive? && act.ev.Skip?
  }

  predicate Crashes(acts: seq<Act>) {
    acts != [] && (acts[0].Crash? || Crashes(acts[1..]))
  }

  /** Since the last crash boot has had an answer about every object. */
  predicate Answered(acts: seq<Act>) {
    acts == [] || (Answered(acts[1..]) && (Skips(acts[0]) ==> Crashes(acts[1..])))
  }

  lemma {:induction false} ColdAccounts(c: A.Config, all: A.Pieces, gone: set<Key>, a: A.State, k: Key, ev: A.Event,
                                        l: Key)
    requires Injective(c.sha) && A.Inv(c, all, gone, a) && A.Enabled(c, all, gone, a, k, ev) && !ev.Skip?
    requires l in gone && (l in A.KeysOf(a.mem) || l in a.boot)
    ensures var b := A.Step(c, all, gone, a, k, ev); l in A.KeysOf(b.mem) || l in b.boot
  {
    A.StepLists(c, all, gone, a, k, ev);
    A.StepBoots(c, all, gone, a, k, ev);
    if ev.Reconcile? && k == l {
      A.BootLists(c, all, gone, a, k, ev.listUp);
    }
  }

  lemma {:induction false} SameGoneKeys(t: Tier, local: seq<Seg>)
    requires t.gone <= |t.segs|
    ensures Relocal(t, local).segs[..t.gone] == t.segs[..t.gone]
  {
  }

  /** Every step but a skip keeps that, and a crash brings it about. */
  lemma {:induction false} StepAccounts(c: A.Config, t: Tier, act: Act, maxBytes: int)
    requires Sequential(c) && Whole(c, t) && Enabled(c, t, act) && !Skips(act) && (act.Crash? || Accounted(t))
    ensures Accounted(Step(c, t, act, maxBytes))
  {
    match act
    case Crash(cut) => RebootAccounts(c, t, Recovered(c.crc, LogRuns.Torn(Local(t), cut)), Step(c, t, act, maxBytes));
    case Archive(base, ev) => UploadAccounts(c, t, At(t.home, base), ev, Step(c, t, act, maxBytes).cold);
    case _ => LogAccounts(c, t, act, maxBytes);
  }

  lemma {:induction false} LogAccounts(c: A.Config, t: Tier, act: Act, maxBytes: int)
    requires Logged(t) && Doomed(t) && Enabled(c, t, act) && !act.Crash? && !act.Archive? && Accounted(t)
    ensures Accounted(Step(c, t, act, maxBytes))
  {
    var u := Step(c, t, act, maxBytes);
    match act
    case Produce(request, aged) => RelocalAccounts(t, Plan(Local(t), maxBytes, request, aged), u);
    case Refuse(due) => RelocalAccounts(t, MaybeRoll(Local(t), maxBytes, due), u);
    case Decide(n) => DecideAccounts(t, Local(t)[n - 1].Next(), u);
    case Delete => DeleteAccounts(t, DeleteCount(Local(t), t.cutoff), u);
  }

  lemma {:induction false} DeleteAccounts(t: Tier, n: nat, u: Tier)
    requires Logged(t) && Doomed(t) && Accounted(t) && n == DeleteCount(Local(t), t.cutoff)
    requires u == t.(gone := t.gone + n, cutoff := -1)
    ensures Accounted(u)
  {
    DoomedAreListed(t, n);
  }

  lemma {:induction false} RebootAccounts(c: A.Config, t: Tier, local: seq<Seg>, u: Tier)
    requires Inv(c, t) && u == Relocal(t, local).(cutoff := -1, cold := A.Crashed(t.cold))
    ensures Accounted(u)
  {
    CrashAccounts(c, SealedPieces(t.home, t.segs), Keys(t.home, t.segs[..t.gone]), t.cold);
    SameGoneKeys(t, local);
  }

  lemma {:induction false} UploadAccounts(c: A.Config, t: Tier, k: Key, ev: A.Event, b: A.State)
    requires Injective(c.sha) && Inv(c, t) && Accounted(t) && !ev.Skip?
    requires A.Enabled(c, SealedPieces(t.home, t.segs), Keys(t.home, t.segs[..t.gone]), t.cold, k, ev)
    requires b == A.Step(c, SealedPieces(t.home, t.segs), Keys(t.home, t.segs[..t.gone]), t.cold, k, ev)
    ensures Accounted(t.(cold := b))
  {
    EventAccounts(c, SealedPieces(t.home, t.segs), Keys(t.home, t.segs[..t.gone]), t.cold, k, ev);
  }

  lemma {:induction false} RelocalAccounts(t: Tier, local: seq<Seg>, u: Tier)
    requires Accounted(t) && u == Relocal(t, local)
    ensures Accounted(u)
  {
    SameGoneKeys(t, local);
  }

  lemma {:induction false} DecideAccounts(t: Tier, cutoff: int, u: Tier)
    requires Accounted(t) && u == t.(cutoff := cutoff)
    ensures Accounted(u)
  {
  }

  lemma {:induction false} CrashAccounts(c: A.Config, all: A.Pieces, gone: set<Key>, a: A.State)
    requires A.Inv(c, all, gone, a)
    ensures forall l :: l in gone ==> l in A.KeysOf(A.Crashed(a).mem) || l in A.Crashed(a).boot
  {
    forall l | l in gone
      ensures l in A.KeysOf(A.Crashed(a).mem) || l in A.Crashed(a).boot
    {
      A.CrashAccounts(c, all, gone, a, l);
    }
  }

  lemma {:induction false} EventAccounts(c: A.Config, all: A.Pieces, gone: set<Key>, a: A.State, k: Key, ev: A.Event)
    requires Injective(c.sha) && A.Inv(c, all, gone, a) && A.Enabled(c, all, gone, a, k, ev) && !ev.Skip?
    requires forall l :: l in gone ==> l in A.KeysOf(a.mem) || l in a.boot
    ensures var b := A.Step(c, all, gone, a, k, ev);
            forall l :: l in gone ==> l in A.KeysOf(b.mem) || l in b.boot
  {
    var b := A.Step(c, all, gone, a, k, ev);
    forall l | l in gone
      ensures l in A.KeysOf(b.mem) || l in b.boot
    {
      ColdAccounts(c, all, gone, a, k, ev, l);
    }
  }

  lemma {:induction false} RunAccounts(c: A.Config, t: Tier, acts: seq<Act>, maxBytes: int)
    requires Sequential(c) && Whole(c, t) && CanRun(c, t, acts, maxBytes)
    requires Answered(acts) && (Accounted(t) || Crashes(acts))
    ensures Accounted(Run(c, t, acts, maxBytes))
    decreases |acts|
  {
    if acts != [] {
      var u := Step(c, t, acts[0], maxBytes);
      StepKeeps(c, t, acts[0], maxBytes);
      if !Skips(acts[0]) && (acts[0].Crash? || Accounted(t)) {
        StepAccounts(c, t, acts[0], maxBytes);
      }
      RunAccounts(c, u, acts[1..], maxBytes);
    }
  }

  /** After any run in which boot has had its answers since the last crash, and is done, a fetch
      at any offset answers as a log would that never deleted a segment, whatever uploads are
      under way. */
  lemma {:induction false} BootedReadsThrough(c: A.Config, home: Key, objects: map<Key, Object>, acts: seq<Act>,
                                              maxBytes: int, offset: int, budget: nat)
    requires Sequential(c) && Honest(c, objects) && CanRun(c, Fresh(home, objects), acts, maxBytes) && Answered(acts)
    requires Run(c, Fresh(home, objects), acts, maxBytes).cold.boot == {} && budget >= HEADER_SIZE
    ensures var t := Run(c, Fresh(home, objects), acts, maxBytes);
            t.gone < |t.segs| && BrokerFetch(c, t, offset, budget) == LogFetch(t.segs, offset, budget)
  {
    var start := Fresh(home, objects);
    var t := Run(c, start, acts, maxBytes);
    FreshInv(c, home, objects);
    assert start.segs[..0] == [];
    RunAccounts(c, start, acts, maxBytes);
    RunsReadThrough(c, home, objects, acts, maxBytes, offset, budget);
    forall i | 0 <= i < t.gone
      ensures InManifest(t, i)
    {
      KeysAt(t.home, t.segs[..t.gone], i);
      A.KeysAre(t.cold.mem, At(t.home, t.segs[i].base));
    }
  }

  // ---- a skipped checkpoint stays skipped ---------------------------------------------------------------

  /** Segment i was deleted locally, is not listed, and boot will not judge it any more. */
  ghost predicate Missed(t: Tier, i: nat) {
    i < t.gone <= |t.segs| && !InManifest(t, i) && At(t.home, t.segs[i].base) !in t.cold.boot
  }

  lemma {:induction false} StepStaysMissed(c: A.Config, t: Tier, act: Act, maxBytes: int, i: nat)
    requires Sequential(c) && Whole(c, t) && Enabled(c, t, act) && !act.Crash? && Missed(t, i)
    ensures var u := Step(c, t, act, maxBytes); Missed(u, i) && u.segs[i] == t.segs[i]
  {
    if act.Archive? {
      var all, gone, l := SealedPieces(t.home, t.segs), Keys(t.home, t.segs[..t.gone]), At(t.home, t.segs[i].base);
      KeysAt(t.home, t.segs[..t.gone], i);
      A.KeysAre(t.cold.mem, l);
      A.StaysOut(c, all, gone, t.cold, At(t.home, act.base), act.ev, l);
      A.StepBoots(c, all, gone, t.cold, At(t.home, act.base), act.ev);
      A.KeysAre(Step(c, t, act, maxBytes).cold.mem, l);
    }
  }

  /** Until the process is restarted, whatever it does. */
  lemma {:induction false} RunStaysMissed(c: A.Config, t: Tier, acts: seq<Act>, maxBytes: int, i: nat)
    requires Sequential(c) && Whole(c, t) && CanRun(c, t, acts, maxBytes) && !Crashes(acts) && Missed(t, i)
    ensures var u := Run(c, t, acts, maxBytes); Whole(c, u) && Missed(u, i) && u.segs[i] == t.segs[i]
    decreases |acts|
  {
    if acts != [] {
      StepKeeps(c, t, acts[0], maxBytes);
      StepStaysMissed(c, t, acts[0], maxBytes, i);
      RunStaysMissed(c, Step(c, t, acts[0], maxBytes), acts[1..], maxBytes, i);
    }
  }

  /** All that time its offsets are out of range. */
  lemma {:induction false} OutOfRangeUntilRestart(c: A.Config, t: Tier, acts: seq<Act>, maxBytes: int, u: Tier, i: nat,
                                                  offset: int, budget: nat)
    requires Sequential(c) && Whole(c, t) && CanRun(c, t, acts, maxBytes) && u == Run(c, t, acts, maxBytes)
    requires !Crashes(acts) && Missed(t, i) && t.segs[i].base <= offset < t.segs[i].Next()
    ensures u.gone < |u.segs| && BrokerFetch(c, u, offset, budget) == OutOfRange != LogFetch(u.segs, offset, budget)
  {
    RunStaysMissed(c, t, acts, maxBytes, i);
    ArchivedFetch(c, u, i, offset, budget);
  }

  // ---- it happens -----------------------------------------------------------------------------------------

  /** One upload and no deletions: the entry noted, the segment deleted, and the process dies
      before the entry is saved. */
  lemma {:induction false} ReachUnlisted(c: A.Config, home: Key, objects: map<Key, Object>, maxBytes: int)
    returns (t: Tier)
    requires c.limit >= 1 && c.partSize > 0
    ensures Reached(c, Fresh(home, objects), maxBytes, t) && t.home == home && t.gone == 1 && |t.segs| == 3
    ensures t.segs[0] == Single(c, 0) && t.cold.mem == [] && At(home, 0) in t.cold.boot
    ensures At(home, 0) in t.cold.memPending && t.cold.flights == map[]
  {
    var start, all, k, f := Fresh(home, objects), SealedPieces(home, Three(c)), At(home, 0), One(c, 0).raw;
    ThreeSealed(c, home);
    var n := ReachUploaded(c, home, objects, maxBytes);
    var a := Uploaded(c, objects, k, f, n);
    var b := Notes(c, all, a, k, f);
    Go(c, start, maxBytes, home, a, 0, A.Note(|f|), b);
    ReachDeleted(c, start, maxBytes, home, b);
    OneIs(c, 2);
    ThreeIntact(c);
    t := CrashWith(c, With(c, home, b).(gone := 1), Single(c, 0), Single(c, 1), Single(c, 2), maxBytes);
    ReachStep(c, start, maxBytes, With(c, home, b).(gone := 1), Crash(0), t);
  }

  lemma {:induction false} ReachedIsWhole(c: A.Config, home: Key, objects: map<Key, Object>, maxBytes: int, t: Tier)
    requires Sequential(c) && Honest(c, objects) && Reached(c, Fresh(home, objects), maxBytes, t)
    ensures Whole(c, t)
  {
    var start := Fresh(home, objects);
    var acts :| CanRun(c, start, acts, maxBytes) && Run(c, start, acts, maxBytes) == t;
    FreshInv(c, home, objects);
    RunKeeps(c, start, acts, maxBytes);
  }

  lemma {:induction false} UnlistedIsOut(c: A.Config, t: Tier, budget: nat)
    requires Whole(c, t) && t.gone == 1 && t.cold.mem == [] && t.segs[0] == Single(c, 0)
    ensures BrokerFetch(c, t, 0, budget) == OutOfRange != LogFetch(t.segs, 0, budget)
  {
    OneIs(c, 0);
    ArchivedFetch(c, t, 0, 0, budget);
  }

  /** Even with uploads one at a time and no other topic deleted some run makes an offset
      unreadable, at any budget. */
  lemma {:induction false} SegmentGoesMissing(c: A.Config, home: Key, objects: map<Key, Object>, maxBytes: int,
                                              budget: nat)
    returns (t: Tier)
    requires Sequential(c) && Honest(c, objects) && c.limit == 1 && c.partSize > 0
    ensures Reached(c, Fresh(home, objects), maxBytes, t) && Whole(c, t)
    ensures BrokerFetch(c, t, 0, budget) == OutOfRange != LogFetch(t.segs, 0, budget)
    ensures t.home == home && t.gone == 1 && t.segs[0] == Single(c, 0) && t.cold.mem == []
    ensures At(home, 0) in t.cold.boot && At(home, 0) in t.cold.memPending && t.cold.flights == map[]
  {
    t := ReachUnlisted(c, home, objects, maxBytes);
    ReachedIsWhole(c, home, objects, maxBytes, t);
    UnlistedIsOut(c, t, budget);
  }

  /** A step of the cold tier. */
  lemma {:induction false} ColdAct(c: A.Config, t: Tier, k: Key, ev: A.Event, maxBytes: int) returns (u: Tier)
    requires Sequential(c) && Whole(c, t) && k == At(t.home, k.base)
    requires A.Enabled(c, SealedPieces(t.home, t.segs), Keys(t.home, t.segs[..t.gone]), t.cold, k, ev)
    ensures Enabled(c, t, Archive(k.base, ev)) && u == Step(c, t, Archive(k.base, ev), maxBytes) && Whole(c, u)
    ensures u == t.(cold := A.Step(c, SealedPieces(t.home, t.segs), Keys(t.home, t.segs[..t.gone]), t.cold, k, ev))
  {
    u := Step(c, t, Archive(k.base, ev), maxBytes);
    StepKeeps(c, t, Archive(k.base, ev), maxBytes);
  }

  /** In such a state, if boot's question about the object fails the segment stays unlisted ... */
  lemma {:induction false} SkippedIsMissed(c: A.Config, t: Tier, i: nat, maxBytes: int) returns (u: Tier)
    requires Sequential(c) && Whole(c, t) && i < t.gone && !InManifest(t, i)
    requires At(t.home, t.segs[i].base) in t.cold.boot && t.cold.flights == map[]
    ensures Enabled(c, t, Archive(t.segs[i].base, A.Skip)) && u == Step(c, t, Archive(t.segs[i].base, A.Skip), maxBytes)
    ensures Whole(c, u) && Missed(u, i)
  {
    u := ColdAct(c, t, At(t.home, t.segs[i].base), A.Skip, maxBytes);
  }

  /** ... and if it is answered the segment is listed, and read again. */
  lemma {:induction false} JudgedIsListed(c: A.Config, t: Tier, i: nat, listUp: bool, maxBytes: int) returns (u: Tier)
    requires Sequential(c) && Whole(c, t) && i < t.gone && t.cold.flights == map[]
    requires At(t.home, t.segs[i].base) in t.cold.boot && At(t.home, t.segs[i].base) in t.cold.memPending
    ensures Enabled(c, t, Archive(t.segs[i].base, A.Reconcile(listUp)))
    ensures u == Step(c, t, Archive(t.segs[i].base, A.Reconcile(listUp)), maxBytes)
    ensures Whole(c, u) && u == t.(cold := u.cold) && InManifest(u, i)
  {
    var k := At(t.home, t.segs[i].base);
    u := ColdAct(c, t, k, A.Reconcile(listUp), maxBytes);
    KeysAt(t.home, t.segs[..t.gone], i);
    ColdJudged(c, SealedPieces(t.home, t.segs), Keys(t.home, t.segs[..t.gone]), t.cold, k, listUp, u.cold);
  }

  lemma {:induction false} ColdJudged(c: A.Config, all: A.Pieces, gone: set<Key>, a: A.State, k: Key, listUp: bool,
                                      b: A.State)
    requires Injective(c.sha) && A.Inv(c, all, gone, a) && k in gone
    requires A.Enabled(c, all, gone, a, k, A.Reconcile(listUp))
    requires b == A.Step(c, all, gone, a, k, A.Reconcile(listUp))
    ensures Lookup(b.mem, k).Some?
  {
    A.BootLists(c, all, gone, a, k, listUp);
    A.KeysAre(b.mem, k);
  }
}
