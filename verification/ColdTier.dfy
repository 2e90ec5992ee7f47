/** A partition with cold storage: producing, rolling, uploading, deleting what is archived,
    and crashing, in any order. No offset is ever in neither place. */
module ColdTier {
  import opened Bytes
  import opened Framing
  import opened Offsets
  import opened Segments
  import opened LogModel
  import opened Logs
  import opened Options
  import opened ObjectStore
  import opened Manifests
  import LogRuns
  import A = Archive

  /** Every segment ever made, oldest first, of which the first `gone` are no longer on local
      disk; the offset a retention sweep has decided to delete up to, or -1; the cold tier. */
  datatype Tier = Tier(home: Key, segs: seq<Seg>, gone: nat, cutoff: int, cold: A.State)

  datatype Act =
    | Produce(request: seq<bytes>, aged: seq<bool>)
    | Refuse(due: bool)
    | Decide(n: nat)
    | Delete
    | Crash(cut: nat)
    | Archive(base: int, ev: A.Event)

  function At(home: Key, base: int): Key {
    home.(base := base)
  }

  // ---- the segments by key ---------------------------------------------------------------------

  /** The sealed segments, all but the last. */
  function SealedPieces(home: Key, segs: seq<Seg>): A.Pieces {
    if |segs| <= 1 then map[]
    else SealedPieces(home, segs[1..])[At(home, segs[0].base) := A.Piece(segs[0].Next(), segs[0].File())]
  }

  function Keys(home: Key, segs: seq<Seg>): set<Key> {
    if segs == [] then {} else {At(home, segs[0].base)} + Keys(home, segs[1..])
  }

  lemma {:induction false} SealedAt(home: Key, segs: seq<Seg>, i: nat)
    requires Chain(segs) && i < |segs| - 1
    ensures var k := At(home, segs[i].base);
            k in SealedPieces(home, segs) && SealedPieces(home, segs)[k] == A.Piece(segs[i].Next(), segs[i].File())
    decreases |segs|
  {
    if i > 0 {
      SealedAt(home, segs[1..], i - 1);
      ChainOrder(segs, 0, i);
    }
  }

  lemma {:induction false} SealedFrom(home: Key, segs: seq<Seg>, k: Key) returns (i: nat)
    requires Chain(segs) && k in SealedPieces(home, segs)
    ensures i < |segs| - 1 && k == At(home, segs[i].base)
    ensures SealedPieces(home, segs)[k] == A.Piece(segs[i].Next(), segs[i].File())
    decreases |segs|
  {
    if k == At(home, segs[0].base) {
      i := 0;
    } else {
      i := SealedFrom(home, segs[1..], k);
      i := i + 1;
    }
  }

  lemma {:induction false} SealedApart(home: Key, segs: seq<Seg>)
    requires Chain(segs)
    ensures A.Apart(SealedPieces(home, segs))
  {
    var all := SealedPieces(home, segs);
    forall k | k in all
      ensures k.base < all[k].next
    {
      var i := SealedFrom(home, segs, k);
      ChainOrder(segs, i, i + 1);
    }
    forall k, l | k in all && l in all && k != l
      ensures k.topic != l.topic || k.partition != l.partition || all[k].next <= l.base || all[l].next <= k.base
    {
      var i := SealedFrom(home, segs, k);
      var j := SealedFrom(home, segs, l);
      if i < j {
        ChainOrder(segs, i, j);
      } else {
        ChainOrder(segs, j, i);
      }
    }
  }

  /** `more` has all sealed segments of `segs`, in their place. */
  ghost predicate SameSealed(segs: seq<Seg>, more: seq<Seg>) {
    |segs| <= |more| && forall i :: 0 <= i < |segs| - 1 ==> segs[i] == more[i]
  }

  /** Sealed segments stay as they are. */
  lemma {:induction false} SealedGrows(home: Key, segs: seq<Seg>, more: seq<Seg>)
    requires Chain(segs) && Chain(more) && SameSealed(segs, more)
    ensures forall k :: k in SealedPieces(home, segs) ==>
              k in SealedPieces(home, more) && SealedPieces(home, more)[k] == SealedPieces(home, segs)[k]
  {
    forall k | k in SealedPieces(home, segs)
      ensures k in SealedPieces(home, more) && SealedPieces(home, more)[k] == SealedPieces(home, segs)[k]
    {
      var i := SealedFrom(home, segs, k);
      SealedAt(home, more, i);
    }
  }

  lemma {:induction false} KeysAt(home: Key, segs: seq<Seg>, i: nat)
    requires i < |segs|
    ensures At(home, segs[i].base) in Keys(home, segs)
  {
    if i > 0 {
      KeysAt(home, segs[1..], i - 1);
    }
  }

  lemma {:induction false} KeysFrom(home: Key, segs: seq<Seg>, k: Key) returns (i: nat)
    requires k in Keys(home, segs)
    ensures i < |segs| && k == At(home, segs[i].base)
  {
    if k == At(home, segs[0].base) {
      i := 0;
    } else {
      i := KeysFrom(home, segs[1..], k);
      i := i + 1;
    }
  }

  lemma {:induction false} KeysConcat(home: Key, a: seq<Seg>, b: seq<Seg>)
    ensures Keys(home, a + b) == Keys(home, a) + Keys(home, b)
  {
    if a == [] {
      assert a + b == b;
    } else {
      assert (a + b)[1..] == a[1..] + b;
      KeysConcat(home, a[1..], b);
    }
  }

  lemma {:induction false} KeysSplit(home: Key, segs: seq<Seg>, m: nat, n: nat)
    requires m + n <= |segs|
    ensures Keys(home, segs[..m + n]) == Keys(home, segs[..m]) + Keys(home, segs[m..m + n])
  {
    KeysConcat(home, segs[..m], segs[m..m + n]);
    assert segs[..m] + segs[m..m + n] == segs[..m + n];
  }

  // ---- steps ---------------------------------------------------------------------------------------

  /** The segments on local disk. */
  function Local(t: Tier): seq<Seg>
    requires t.gone <= |t.segs|
  {
    t.segs[t.gone..]
  }

  function Relocal(t: Tier, local: seq<Seg>): Tier
    requires t.gone <= |t.segs|
  {
    t.(segs := t.segs[..t.gone] + local)
  }

  ghost predicate Enabled(c: A.Config, t: Tier, act: Act)
    requires t.gone < |t.segs|
  {
    var local := Local(t);
    match act
    case Produce(request, aged) =>
      request != [] && |aged| == |request| && LogRuns.Accepts(c.crc, local, request)
    case Refuse(_) => true
    case Decide(n) =>
      && 0 < n < |local|
      && (forall i :: 0 <= i < n ==>
            Holds(t.cold.mem, At(t.home, local[i].base), local[i].Next(), |local[i].File()|))
    case Delete => t.cutoff >= 0
    case Crash(cut) => cut <= |Last(local).File()|
    case Archive(base, ev) =>
      A.Enabled(c, SealedPieces(t.home, t.segs), Keys(t.home, t.segs[..t.gone]), t.cold, At(t.home, base), ev)
  }

  /** The log moves as Log.Append, DeleteSegmentsBefore and, after a crash, Log.Open move it. */
  ghost function Step(c: A.Config, t: Tier, act: Act, maxBytes: int): (u: Tier)
    requires t.gone < |t.segs| && Enabled(c, t, act)
    ensures u.gone < |u.segs|
  {
    var local := Local(t);
    match act
    case Produce(request, aged) => Relocal(t, Plan(local, maxBytes, request, aged))
    case Refuse(due) => Relocal(t, MaybeRoll(local, maxBytes, due))
    case Decide(n) => t.(cutoff := local[n - 1].Next())
    case Delete => t.(gone := t.gone + DeleteCount(local, t.cutoff), cutoff := -1)
    case Crash(cut) =>
      Relocal(t, Recovered(c.crc, LogRuns.Torn(local, cut))).(cutoff := -1, cold := A.Crashed(t.cold))
    case Archive(base, ev) =>
      t.(cold := A.Step(c, SealedPieces(t.home, t.segs), Keys(t.home, t.segs[..t.gone]), t.cold, At(t.home, base), ev))
  }

  ghost predicate CanRun(c: A.Config, t: Tier, acts: seq<Act>, maxBytes: int)
    decreases |acts|
  {
    && t.gone < |t.segs|
    && (acts != [] ==> Enabled(c, t, acts[0]) && CanRun(c, Step(c, t, acts[0], maxBytes), acts[1..], maxBytes))
  }

  ghost function Run(c: A.Config, t: Tier, acts: seq<Act>, maxBytes: int): Tier
    requires CanRun(c, t, acts, maxBytes)
    decreases |acts|
  {
    if acts == [] then t else Run(c, Step(c, t, acts[0], maxBytes), acts[1..], maxBytes)
  }

  /** An empty log and archive; the store may hold other objects, each labelled with its digest. */
  function Fresh(home: Key, objects: map<Key, Object>): Tier {
    Tier(home, [Seg(0, [])], 0, -1, A.State([], [], map[], map[], objects, map[], map[], {}, false))
  }

  ghost predicate Honest(c: A.Config, objects: map<Key, Object>) {
    forall k :: k in objects ==> objects[k].stamp == Some(c.sha(objects[k].data))
  }

  // ---- what every run keeps ------------------------------------------------------------------------

  ghost predicate Inv(c: A.Config, t: Tier) {
    && Logged(t) && Doomed(t)
    && A.Inv(c, SealedPieces(t.home, t.segs), Keys(t.home, t.segs[..t.gone]), t.cold)
  }

  ghost predicate Logged(t: Tier) {
    Chain(t.segs) && t.segs[0].base == 0 && t.gone < |t.segs|
  }

  /** What the pending sweep will delete is sealed and in the manifest. */
  ghost predicate Doomed(t: Tier)
    requires t.segs != []
  {
    && t.cutoff <= Last(t.segs).base
    && (forall i :: t.gone <= i < |t.segs| - 1 && t.segs[i].Next() <= t.cutoff ==>
          At(t.home, t.segs[i].base) in A.KeysOf(t.cold.mem))
  }

  lemma FreshInv(c: A.Config, home: Key, objects: map<Key, Object>)
    requires Honest(c, objects)
    ensures Whole(c, Fresh(home, objects))
  {
    var t := Fresh(home, objects);
    var all := SealedPieces(home, t.segs);
    assert t.segs[..0] == [];
    assert A.Phases(map[]) == map[];
    assert A.Right(c, all, t.cold);
    A.InvFrom(c, all, {}, t.cold, A.ViewOf(c, all, t.cold));
  }

  /** Putting a longer or shorter local log behind the deleted segments keeps the whole chain. */
  lemma {:induction false} ChainRelocal(segs: seq<Seg>, n: nat, local: seq<Seg>)
    requires Chain(segs) && n < |segs| && Chain(local) && local[0].base == segs[n].base
    ensures Chain(segs[..n] + local) && (segs[..n] + local)[0].base == segs[0].base
  {
    if n == 0 {
      assert segs[..0] + local == local;
    } else {
      ChainRelocal(segs[1..], n - 1, local);
      assert (segs[..n] + local)[1..] == segs[1..][..n - 1] + local;
    }
  }

  lemma {:induction false} ChainNext(segs: seq<Seg>, i: nat)
    requires Chain(segs) && i + 1 < |segs|
    ensures segs[i + 1].base == segs[i].Next()
  {
    if i > 0 {
      ChainNext(segs[1..], i - 1);
    }
  }

  /** Logs with the same sealed segments have their active segment at the same place. */
  lemma {:induction false} SameActive(a: seq<Seg>, b: seq<Seg>)
    requires Chain(a) && Chain(b) && a[0].base == b[0].base && SameSealed(a, b)
    ensures b[|a| - 1].base == Last(a).base
  {
    var n := |a| - 1;
    if n > 0 {
      ChainNext(a, n - 1);
      ChainNext(b, n - 1);
      assert a[n - 1] == b[n - 1];
    }
  }

  lemma RelocalSame(t: Tier, local: seq<Seg>)
    requires t.gone < |t.segs| && SameSealed(Local(t), local)
    ensures SameSealed(t.segs, Relocal(t, local).segs)
  {
    var u := Relocal(t, local);
    forall i | 0 <= i < |t.segs| - 1
      ensures t.segs[i] == u.segs[i]
    {
      if i >= t.gone {
        assert Local(t)[i - t.gone] == local[i - t.gone];
      }
    }
  }

  lemma {:induction false} RelocalDoomed(t: Tier, u: Tier)
    requires Chain(t.segs) && Chain(u.segs) && t.segs[0].base == u.segs[0].base && t.gone < |t.segs|
    requires SameSealed(t.segs, u.segs) && u == t.(segs := u.segs) && Doomed(t)
    ensures Doomed(u)
  {
    var n := |t.segs| - 1;
    SameActive(t.segs, u.segs);
    if n < |u.segs| - 1 {
      ChainOrder(u.segs, n, |u.segs| - 1);
    }
    forall i | u.gone <= i < |u.segs| - 1 && u.segs[i].Next() <= u.cutoff
      ensures At(u.home, u.segs[i].base) in A.KeysOf(u.cold.mem)
    {
      ChainOrder(u.segs, i, i + 1);
      if i > n {
        ChainOrder(u.segs, n, i);
      }
      assert t.segs[i] == u.segs[i];
    }
  }

  lemma SameGone(t: Tier, u: Tier)
    requires t.gone < |t.segs| && u.gone == t.gone && SameSealed(t.segs, u.segs)
    ensures u.segs[..u.gone] == t.segs[..t.gone]
  {
  }

  /** The log moves on, sealed segments as they are. */
  lemma {:induction false} MoveOn(c: A.Config, t: Tier, u: Tier)
    requires Inv(c, t) && Logged(u) && u == t.(segs := u.segs) && SameSealed(t.segs, u.segs)
    ensures Inv(c, u)
  {
    var all, more, gone := SealedPieces(t.home, t.segs), SealedPieces(t.home, u.segs), Keys(t.home, t.segs[..t.gone]);
    SameGone(t, u);
    SealedGrows(t.home, t.segs, u.segs);
    SealedApart(t.home, u.segs);
    A.GrowKeeps(c, all, more, gone, t.cold);
    RelocalDoomed(t, u);
  }

  lemma {:induction false} RelocalLogged(t: Tier, local: seq<Seg>)
    requires Logged(t) && Chain(local) && local[0].base == Local(t)[0].base && SameSealed(Local(t), local)
    ensures Logged(Relocal(t, local))
  {
    ChainRelocal(t.segs, t.gone, local);
  }

  lemma {:induction false} RelocalKeeps(c: A.Config, t: Tier, local: seq<Seg>)
    requires Inv(c, t) && Chain(local) && local[0].base == Local(t)[0].base && SameSealed(Local(t), local)
    ensures Inv(c, Relocal(t, local))
  {
    RelocalLogged(t, local);
    RelocalSame(t, local);
    MoveOn(c, t, Relocal(t, local));
  }

  /** A sweep that deletes only held segments dooms only what is in the manifest. */
  lemma {:induction false} DecideDooms(t: Tier, n: nat)
    requires Logged(t) && 0 < n < |Local(t)|
    requires forall i :: 0 <= i < n ==> At(t.home, Local(t)[i].base) in A.KeysOf(t.cold.mem)
    ensures Doomed(t.(cutoff := Local(t)[n - 1].Next()))
  {
    var local, last := Local(t), t.gone + n - 1;
    ChainOrder(t.segs, last, |t.segs| - 1);
    forall i | t.gone <= i < |t.segs| - 1 && t.segs[i].Next() <= local[n - 1].Next()
      ensures At(t.home, t.segs[i].base) in A.KeysOf(t.cold.mem)
    {
      ChainOrder(t.segs, i, i + 1);
      if last < i {
        ChainOrder(t.segs, last, i);
      }
      assert t.segs[i] == local[i - t.gone];
    }
  }

  lemma {:induction false} HeldAreListed(mem: seq<Entry>, home: Key, local: seq<Seg>, n: nat)
    requires n <= |local|
    requires forall i :: 0 <= i < n ==> Holds(mem, At(home, local[i].base), local[i].Next(), |local[i].File()|)
    ensures forall i :: 0 <= i < n ==> At(home, local[i].base) in A.KeysOf(mem)
  {
    forall i | 0 <= i < n
      ensures At(home, local[i].base) in A.KeysOf(mem)
    {
      A.KeysAre(mem, At(home, local[i].base));
    }
  }

  lemma {:induction false} DecideKeeps(c: A.Config, t: Tier, n: nat)
    requires Inv(c, t) && Enabled(c, t, Decide(n))
    ensures Inv(c, t.(cutoff := Local(t)[n - 1].Next()))
  {
    HeldAreListed(t.cold.mem, t.home, Local(t), n);
    DecideDooms(t, n);
  }

  lemma {:induction false} ChainTail(segs: seq<Seg>, n: nat)
    requires Chain(segs) && n < |segs|
    ensures Chain(segs[n..])
  {
    if n > 0 {
      ChainTail(segs[1..], n - 1);
      assert segs[1..][n - 1..] == segs[n..];
    } else {
      assert segs[0..] == segs;
    }
  }

  lemma {:induction false} DeletedEnds(segs: seq<Seg>, m: nat, cutoff: int, i: nat)
    requires Chain(segs) && m < |segs| && i < DeleteCount(segs[m..], cutoff)
    ensures m + i < |segs| - 1 && segs[m + i].Next() <= cutoff
  {
    ChainTail(segs, m);
    DeletesWhatEnds(segs[m..], cutoff, i);
    assert segs[m..][i] == segs[m + i];
  }

  /** What goes is in the manifest. */
  lemma {:induction false} DoomedAreListed(t: Tier, n: nat)
    requires Logged(t) && Doomed(t) && n == DeleteCount(Local(t), t.cutoff)
    ensures t.gone + n < |t.segs|
    ensures Keys(t.home, t.segs[t.gone..t.gone + n]) <= A.KeysOf(t.cold.mem)
    ensures Keys(t.home, t.segs[..t.gone + n])
            == Keys(t.home, t.segs[..t.gone]) + Keys(t.home, t.segs[t.gone..t.gone + n])
  {
    var going := t.segs[t.gone..t.gone + n];
    forall k | k in Keys(t.home, going)
      ensures k in A.KeysOf(t.cold.mem)
    {
      var i := KeysFrom(t.home, going, k);
      DeletedEnds(t.segs, t.gone, t.cutoff, i);
      assert going[i] == t.segs[t.gone + i];
    }
    KeysSplit(t.home, t.segs, t.gone, n);
  }

  lemma {:induction false} DropKeeps(c: A.Config, t: Tier, u: Tier, more: set<Key>)
    requires Inv(c, t) && Logged(u) && Doomed(u) && u == t.(gone := u.gone, cutoff := u.cutoff)
    requires more <= A.KeysOf(t.cold.mem)
    requires Keys(t.home, t.segs[..u.gone]) == Keys(t.home, t.segs[..t.gone]) + more
    ensures Inv(c, u)
  {
    A.DeleteKeeps(c, SealedPieces(t.home, t.segs), Keys(t.home, t.segs[..t.gone]), t.cold, more);
  }

  lemma {:induction false} DeleteKeeps(c: A.Config, t: Tier, n: nat, u: Tier)
    requires Inv(c, t) && n == DeleteCount(Local(t), t.cutoff) && u == t.(gone := t.gone + n, cutoff := -1)
    ensures Inv(c, u)
  {
    var more := Deleted(t, n, u);
    DropKeeps(c, t, u, more);
  }

  lemma {:induction false} Deleted(t: Tier, n: nat, u: Tier) returns (more: set<Key>)
    requires Logged(t) && Doomed(t) && n == DeleteCount(Local(t), t.cutoff) && u == t.(gone := t.gone + n, cutoff := -1)
    ensures Logged(u) && Doomed(u) && more <= A.KeysOf(t.cold.mem)
    ensures Keys(t.home, t.segs[..u.gone]) == Keys(t.home, t.segs[..t.gone]) + more
  {
    more := Keys(t.home, t.segs[t.gone..t.gone + n]);
    DoomedAreListed(t, n);
    NothingDoomed(u);
  }

  lemma {:induction false} InvFrom(c: A.Config, t: Tier, all: A.Pieces, gone: set<Key>)
    requires Logged(t) && Doomed(t) && all == SealedPieces(t.home, t.segs) && gone == Keys(t.home, t.segs[..t.gone])
    requires A.Inv(c, all, gone, t.cold)
    ensures Inv(c, t)
  {
  }

  /** Without a sweep under way nothing is doomed: offsets are not negative. */
  lemma {:induction false} NothingDoomed(t: Tier)
    requires Logged(t) && t.cutoff == -1
    ensures Doomed(t)
  {
    ChainLast(t.segs);
    forall i | t.gone <= i < |t.segs| - 1
      ensures t.segs[i].Next() > t.cutoff
    {
      ChainOrder(t.segs, i, i + 1);
      if i > 0 {
        ChainOrder(t.segs, 0, i);
      }
    }
  }

  /** The digest tells contents apart, uploads run one at a time, no other topic is deleted. */
  ghost predicate Sequential(c: A.Config) {
    Injective(c.sha) && c.limit <= 1 && !c.deletions
  }

  lemma {:induction false} CrashKeeps(c: A.Config, t: Tier, cut: nat)
    requires Inv(c, t) && SegsIntact(CrcTest(c.crc), t.segs) && cut <= |Last(Local(t)).File()|
    ensures var local := Recovered(c.crc, LogRuns.Torn(Local(t), cut));
            Inv(c, Relocal(t, local).(cutoff := -1, cold := A.Crashed(t.cold)))
  {
    var local := LogRuns.CutActive(Local(t), cut);
    LogRuns.ReopenIsCut(c.crc, Local(t), cut, LogRuns.Torn(Local(t), cut));
    CutLocal(t, cut);
    RelocalKeeps(c, t, local);
    RebootKeeps(c, Relocal(t, local));
  }

  lemma {:induction false} CutLocal(t: Tier, cut: nat)
    requires Logged(t)
    ensures var local := LogRuns.CutActive(Local(t), cut);
            Chain(local) && local[0].base == Local(t)[0].base && SameSealed(Local(t), local)
  {
    ChainDrop(t.segs, t.gone);
    LogRuns.CutEffect(Local(t), cut);
  }

  lemma {:induction false} RebootKeeps(c: A.Config, t: Tier)
    requires Inv(c, t)
    ensures Inv(c, t.(cutoff := -1, cold := A.Crashed(t.cold)))
  {
    var u := t.(cutoff := -1, cold := A.Crashed(t.cold));
    var all, gone := SealedPieces(t.home, t.segs), Keys(t.home, t.segs[..t.gone]);
    A.CrashKeeps(c, all, gone, t.cold);
    NothingDoomed(u);
    InvFrom(c, u, all, gone);
  }

  lemma {:induction false} ColdStep(c: A.Config, all: A.Pieces, gone: set<Key>, a: A.State, k: Key,
                                    ev: A.Event, b: A.State)
    requires Sequential(c) && !a.forgetting
    requires A.Inv(c, all, gone, a) && A.Enabled(c, all, gone, a, k, ev) && b == A.Step(c, all, gone, a, k, ev)
    ensures A.Inv(c, all, gone, b) && A.KeysOf(a.mem) <= A.KeysOf(b.mem)
  {
    A.StepKeeps(c, all, gone, a, k, ev);
    A.StepLists(c, all, gone, a, k, ev);
  }

  lemma {:induction false} UploadKeeps(c: A.Config, t: Tier, k: Key, ev: A.Event, b: A.State)
    requires Sequential(c) && !t.cold.forgetting && Inv(c, t)
    requires A.Enabled(c, SealedPieces(t.home, t.segs), Keys(t.home, t.segs[..t.gone]), t.cold, k, ev)
    requires b == A.Step(c, SealedPieces(t.home, t.segs), Keys(t.home, t.segs[..t.gone]), t.cold, k, ev)
    ensures Inv(c, t.(cold := b))
  {
    ColdStep(c, SealedPieces(t.home, t.segs), Keys(t.home, t.segs[..t.gone]), t.cold, k, ev, b);
  }

  /** Producing or rolling extends the local log and leaves its sealed part alone. */
  lemma {:induction false} ExtendKeeps(c: A.Config, t: Tier, local: seq<Seg>, added: seq<Batch>)
    requires Inv(c, t) && Extends(Local(t), local, added)
    ensures Inv(c, Relocal(t, local))
  {
    ExtendsSame(Local(t), local, added);
    RelocalKeeps(c, t, local);
  }

  lemma {:induction false} ExtendsSame(a: seq<Seg>, b: seq<Seg>, added: seq<Batch>)
    requires a != [] && Extends(a, b, added)
    ensures SameSealed(a, b)
  {
    forall i | 0 <= i < |a| - 1
      ensures a[i] == b[i]
    {
      assert a[i] == a[..|a| - 1][i] == b[..|a| - 1][i];
    }
  }

  lemma {:induction false} ProduceKeeps(c: A.Config, t: Tier, request: seq<bytes>, aged: seq<bool>, maxBytes: int)
    requires Inv(c, t) && |aged| == |request| && LogRuns.Accepts(c.crc, Local(t), request)
    ensures Inv(c, Relocal(t, Plan(Local(t), maxBytes, request, aged)))
  {
    var bs := LogRuns.Numbers(Local(t), request);
    LogRuns.NumbersAre(c.crc, Local(t), request);
    ChainDrop(t.segs, t.gone);
    AppendAllEffect(Local(t), maxBytes, bs, aged);
    ExtendKeeps(c, t, AppendAll(Local(t), maxBytes, bs, aged), bs);
  }

  lemma {:induction false} RefuseKeeps(c: A.Config, t: Tier, aged: bool, maxBytes: int)
    requires Inv(c, t)
    ensures Inv(c, Relocal(t, MaybeRoll(Local(t), maxBytes, aged)))
  {
    ChainDrop(t.segs, t.gone);
    RollEffect(Local(t));
    assert Flat(Local(t)) + [] == Flat(Local(t));
    ExtendKeeps(c, t, MaybeRoll(Local(t), maxBytes, aged), []);
  }

  lemma {:induction false} StepInv(c: A.Config, t: Tier, act: Act, maxBytes: int)
    requires Sequential(c) && Whole(c, t) && Enabled(c, t, act)
    ensures Inv(c, Step(c, t, act, maxBytes))
  {
    var u := Step(c, t, act, maxBytes);
    match act
    case Produce(request, aged) => ProduceKeeps(c, t, request, aged, maxBytes);
    case Refuse(due) => RefuseKeeps(c, t, due, maxBytes);
    case Decide(n) => DecideKeeps(c, t, n);
    case Delete => DeleteKeeps(c, t, DeleteCount(Local(t), t.cutoff), u);
    case Crash(cut) => CrashKeeps(c, t, cut);
    case Archive(base, ev) => UploadKeeps(c, t, At(t.home, base), ev, u.cold);
  }

  /** The invariant, every stored batch intact, and no topic deletion under way. */
  ghost predicate Whole(c: A.Config, t: Tier) {
    Inv(c, t) && SegsIntact(CrcTest(c.crc), t.segs) && !t.cold.forgetting
  }

  /** Batches stay whole with matching checksums, whatever the configuration. */
  lemma {:induction false} StepIntact(c: A.Config, t: Tier, act: Act, maxBytes: int)
    requires t.gone < |t.segs| && SegsIntact(CrcTest(c.crc), t.segs) && Enabled(c, t, act)
    ensures SegsIntact(CrcTest(c.crc), Step(c, t, act, maxBytes).segs)
  {
    match act
    case Produce(request, aged) =>
      LogRuns.NumbersAre(c.crc, Local(t), request);
      AppendIntact(CrcTest(c.crc), Local(t), maxBytes, LogRuns.Numbers(Local(t), request), aged);
    case Refuse(due) => RollIntact(CrcTest(c.crc), Local(t), maxBytes, due);
    case Crash(cut) => RecoveredIntact(c.crc, LogRuns.Torn(Local(t), cut));
    case _ =>
  }

  lemma {:induction false} StepSettled(c: A.Config, t: Tier, act: Act, maxBytes: int)
    requires !c.deletions && t.gone < |t.segs| && !t.cold.forgetting && Enabled(c, t, act)
    ensures !Step(c, t, act, maxBytes).cold.forgetting
  {
    if act.Archive? {
      var all, gone := SealedPieces(t.home, t.segs), Keys(t.home, t.segs[..t.gone]);
      A.NeverForgets(c, all, gone, t.cold, At(t.home, act.base), act.ev);
    }
  }

  /** With uploads one at a time and no other topic deleted, every step keeps the tier whole. */
  lemma {:induction false} StepKeeps(c: A.Config, t: Tier, act: Act, maxBytes: int)
    requires Sequential(c) && Whole(c, t) && Enabled(c, t, act)
    ensures Whole(c, Step(c, t, act, maxBytes))
  {
    StepInv(c, t, act, maxBytes);
    StepIntact(c, t, act, maxBytes);
    StepSettled(c, t, act, maxBytes);
  }

  lemma {:induction false} RunKeeps(c: A.Config, t: Tier, acts: seq<Act>, maxBytes: int)
    requires Sequential(c) && Whole(c, t) && CanRun(c, t, acts, maxBytes)
    ensures Whole(c, Run(c, t, acts, maxBytes))
    decreases |acts|
  {
    if acts != [] {
      StepKeeps(c, t, acts[0], maxBytes);
      RunKeeps(c, Step(c, t, acts[0], maxBytes), acts[1..], maxBytes);
    }
  }

  // ---- no offset in neither place ----------------------------------------------------------------------

  /** Segment i is in cold storage: its bytes are in the store, under an entry that says so or a
      checkpoint from which the next boot makes one. */
  ghost predicate Archived(c: A.Config, t: Tier, i: nat)
    requires i < |t.segs|
  {
    var k, s := At(t.home, t.segs[i].base), t.segs[i];
    && k in t.cold.objects && t.cold.objects[k].data == s.File()
    && (k in t.cold.memPending || Listed(c, t, i))
  }

  ghost predicate Listed(c: A.Config, t: Tier, i: nat)
    requires i < |t.segs|
  {
    var s := t.segs[i];
    var e := Lookup(t.cold.mem, At(t.home, s.base));
    e.Some? && e.value.next == s.Next() && e.value.size >= |s.File()| && e.value.sha == Some(c.sha(s.File()))
  }

  /** The segment holding the offset is on local disk or in cold storage. */
  ghost predicate Somewhere(c: A.Config, t: Tier, offset: int) {
    exists i :: 0 <= i < |t.segs| && t.segs[i].base <= offset < t.segs[i].Next() && (t.gone <= i || Archived(c, t, i))
  }

  ghost predicate NothingLost(c: A.Config, t: Tier) {
    t.segs != [] && forall offset :: 0 <= offset < Hwm(t.segs) ==> Somewhere(c, t, offset)
  }

  lemma {:induction false} Locate(segs: seq<Seg>, offset: int) returns (i: nat)
    requires Chain(segs) && segs[0].base <= offset < Hwm(segs)
    ensures i < |segs| && segs[i].base <= offset < segs[i].Next()
  {
    if offset < segs[0].Next() {
      i := 0;
    } else {
      i := Locate(segs[1..], offset);
      i := i + 1;
    }
  }

  lemma {:induction false} GoneIsArchived(c: A.Config, t: Tier, i: nat)
    requires Inv(c, t) && i < t.gone
    ensures Archived(c, t, i)
  {
    var all, gone, k := SealedPieces(t.home, t.segs), Keys(t.home, t.segs[..t.gone]), At(t.home, t.segs[i].base);
    SealedAt(t.home, t.segs, i);
    KeysAt(t.home, t.segs[..t.gone], i);
    CoveredMeans(c, all, gone, t.cold, k);
  }

  lemma {:induction false} CoveredMeans(c: A.Config, all: A.Pieces, gone: set<Key>, a: A.State, k: Key)
    requires A.Inv(c, all, gone, a) && k in gone && k in all
    ensures A.ObjectRight(c, all, a.objects, k)
    ensures k in a.memPending || (Lookup(a.mem, k).Some? && A.EntryRight(c, all, a.objects, Lookup(a.mem, k).value))
  {
    assert A.Covered(A.ViewOf(c, all, a), k);
    A.KeysAre(a.mem, k);
  }

  lemma {:induction false} InvLosesNothing(c: A.Config, t: Tier)
    requires Inv(c, t)
    ensures NothingLost(c, t)
  {
    forall offset | 0 <= offset < Hwm(t.segs)
      ensures Somewhere(c, t, offset)
    {
      var i := Locate(t.segs, offset);
      if i < t.gone {
        GoneIsArchived(c, t, i);
      }
    }
  }

  /** Through any run of appends, rolls, uploads, deletions and crashes, with uploads one at a
      time and no other topic deleted, every offset below the high watermark is on local disk
      or in cold storage. */
  lemma {:induction false} RunsLoseNothing(c: A.Config, home: Key, objects: map<Key, Object>, acts: seq<Act>,
                                           maxBytes: int)
    requires Sequential(c) && Honest(c, objects)
    requires CanRun(c, Fresh(home, objects), acts, maxBytes)
    ensures NothingLost(c, Run(c, Fresh(home, objects), acts, maxBytes))
  {
    FreshInv(c, home, objects);
    RunKeeps(c, Fresh(home, objects), acts, maxBytes);
    InvLosesNothing(c, Run(c, Fresh(home, objects), acts, maxBytes));
  }

  /** Entries of the partition never overlap, however many uploads run at a time: no offset is
      in two entries. */
  lemma {:induction false} RunNoClash(c: A.Config, t: Tier, acts: seq<Act>, maxBytes: int)
    requires A.NoClash(t.cold) && CanRun(c, t, acts, maxBytes)
    ensures A.NoClash(Run(c, t, acts, maxBytes).cold)
    decreases |acts|
  {
    if acts != [] {
      StepNoClash(c, t, acts[0], maxBytes);
      RunNoClash(c, Step(c, t, acts[0], maxBytes), acts[1..], maxBytes);
    }
  }

  lemma {:induction false} StepNoClash(c: A.Config, t: Tier, act: Act, maxBytes: int)
    requires A.NoClash(t.cold) && t.gone < |t.segs| && Enabled(c, t, act)
    ensures A.NoClash(Step(c, t, act, maxBytes).cold)
  {
    if act.Archive? {
      A.StepNoClash(c, SealedPieces(t.home, t.segs), Keys(t.home, t.segs[..t.gone]), t.cold, At(t.home,
              act.base), act.ev);
    }
  }
}
