/** The two ways a segment is lost. AddCompleted puts an entry into memory and then writes the
    entries and the checkpoints one after the other. Another upload's checkpoint flush, or the
    deletion of another topic, can drop the checkpoint from the file before the entry is in it;
    retention may delete the segment in that window, and a crash then forgets it. */
module ColdTierRace {
  import opened Bytes
  import opened Framing
  import opened Offsets
  import opened Layout
  import opened Record
  import opened Samples
  import opened Segments
  import opened LogModel
  import opened Logs
  import opened Options
  import opened ObjectStore
  import opened Manifests
  import opened ColdTier
  import LogRuns
  import A = Archive

  ghost predicate Reached(c: A.Config, start: Tier, maxBytes: int, t: Tier) {
    exists acts :: CanRun(c, start, acts, maxBytes) && Run(c, start, acts, maxBytes) == t
  }

  lemma {:induction false} RunSnoc(c: A.Config, t: Tier, acts: seq<Act>, act: Act, maxBytes: int)
    requires CanRun(c, t, acts, maxBytes)
    requires var u := Run(c, t, acts, maxBytes); u.gone < |u.segs| && Enabled(c, u, act)
    ensures CanRun(c, t, acts + [act], maxBytes)
    ensures Run(c, t, acts + [act], maxBytes) == Step(c, Run(c, t, acts, maxBytes), act, maxBytes)
    decreases |acts|
  {
    if acts == [] {
      assert [] + [act] == [act];
      assert [act][1..] == [];
    } else {
      var next := Step(c, t, acts[0], maxBytes);
      assert (acts + [act])[1..] == acts[1..] + [act];
      RunSnoc(c, next, acts[1..], act, maxBytes);
    }
  }

  lemma {:induction false} ReachStep(c: A.Config, start: Tier, maxBytes: int, t: Tier, act: Act, u: Tier)
    requires Reached(c, start, maxBytes, t) && t.gone < |t.segs| && Enabled(c, t, act)
    requires u == Step(c, t, act, maxBytes)
    ensures Reached(c, start, maxBytes, u)
  {
    var acts :| CanRun(c, start, acts, maxBytes) && Run(c, start, acts, maxBytes) == t;
    RunSnoc(c, start, acts, act, maxBytes);
  }

  // ---- three segments of one batch each -----------------------------------------------------------

  /** The smallest batch the broker accepts, stored at offset i. */
  function One(c: A.Config, i: int): Batch { Read(Stamp(Sample(c.crc, 0, 0), i)) }

  function Single(c: A.Config, i: int): Seg { Seg(i, [One(c, i)]) }

  function Three(c: A.Config): seq<Seg> { [Single(c, 0), Single(c, 1), Single(c, 2)] }

  function Request(c: A.Config): seq<bytes> {
    var raw := Sample(c.crc, 0, 0);
    [raw, raw, raw]
  }

  lemma {:induction false} OneIs(c: A.Config, i: int)
    requires 0 <= i < 3
    ensures One(c, i).base == One(c, i).last == i && |One(c, i).raw| == HEADER_SIZE
    ensures Single(c, i).File() == One(c, i).raw && Single(c, i).Next() == i + 1
  {
    var raw := Sample(c.crc, 0, 0);
    SampleIsValid(c.crc, 0, 0);
    StampReads(raw, i);
    var raws: seq<bytes> := [One(c, i).raw];
    assert Raws([One(c, i)]) == raws;
    assert raws[1..] == [];
    assert Join(raws) == raws[0] + Join([]) == raws[0];
  }

  lemma {:induction false} Accepted(c: A.Config)
    ensures LogRuns.Accepts(c.crc, [Seg(0, [])], Request(c))
  {
    var raw, none: seq<bytes> := Sample(c.crc, 0, 0), [];
    SampleIsValid(c.crc, 0, 0);
    assert [raw, raw, raw][1..] == [raw, raw] && [raw, raw][1..] == [raw] && [raw][1..] == none;
    assert Forward([raw]) && Numbered(2, [raw]);
    assert Forward([raw, raw]) && Numbered(1, [raw, raw]);
    assert Hwm([Seg(0, [])]) == 0;
  }

  lemma {:induction false} NumbersOf(raw: bytes, x: Batch, y: Batch, z: Batch)
    requires x == Read(Stamp(raw, 0)) && y == Read(Stamp(raw, 1)) && z == Read(Stamp(raw, 2))
    requires x.last == 0 && y.last == 1
    ensures LogRuns.Numbers([Seg(0, [])], [raw, raw, raw]) == [x, y, z]
  {
    var none: seq<bytes> := [];
    assert [raw, raw, raw][1..] == [raw, raw] && [raw, raw][1..] == [raw] && [raw][1..] == none;
    StampedHead(0, [raw, raw, raw], x);
    StampedHead(1, [raw, raw], y);
    StampedHead(2, [raw], z);
    assert [x] + ([y] + [z]) == [x, y, z];
  }

  lemma {:induction false} PutOne(segs: seq<Seg>, i: int, b: Batch)
    ensures Put(segs + [Seg(i, [])], b) == segs + [Seg(i, [b])]
  {
    assert [] + [b] == [b];
    assert (segs + [Seg(i, [])])[..|segs|] == segs;
  }

  /** An aged segment rolls before the next batch. */
  lemma {:induction false} AppendAged(segs: seq<Seg>, s: Seg, b: Batch, maxBytes: int)
    requires |s.File()| > 0 && s.Next() != s.base
    ensures AppendOne(segs + [s], maxBytes, b, true) == segs + [s, Seg(s.Next(), [b])]
  {
    var before := segs + [s];
    assert Hwm(before) == s.Next() && Roll(before) == before + [Seg(s.Next(), [])];
    PutOne(before, s.Next(), b);
    assert before + [Seg(s.Next(), [b])] == segs + [s, Seg(s.Next(), [b])];
  }

  lemma {:induction false} AppendFirst(x: Batch, maxBytes: int)
    ensures AppendOne([Seg(0, [])], maxBytes, x, false) == [Seg(0, [x])]
  {
    var none: seq<Seg> := [];
    PutOne(none, 0, x);
    assert none + [Seg(0, [])] == [Seg(0, [])] && none + [Seg(0, [x])] == [Seg(0, [x])];
    assert Raws([]) == [] && Seg(0, []).File() == [];
  }

  lemma {:induction false} ThreeAppended(c: A.Config, maxBytes: int)
    ensures Plan([Seg(0, [])], maxBytes, Request(c), [false, true, true]) == Three(c)
  {
    OneIs(c, 0);
    OneIs(c, 1);
    NumbersOf(Sample(c.crc, 0, 0), One(c, 0), One(c, 1), One(c, 2));
    AppendedOneByOne(One(c, 0), One(c, 1), One(c, 2), maxBytes);
  }

  lemma {:induction false} AppendedOneByOne(x: Batch, y: Batch, z: Batch, maxBytes: int)
    requires |Seg(0, [x]).File()| > 0 && Seg(0, [x]).Next() == 1 && |Seg(1, [y]).File()| > 0 && Seg(1, [y]).Next() == 2
    ensures AppendAll([Seg(0, [])], maxBytes, [x, y, z], [false, true, true]) == [Seg(0, [x]), Seg(1, [y]), Seg(2, [z])]
  {
    var none: seq<Seg> := [];
    AppendFirst(x, maxBytes);
    AppendAged(none, Seg(0, [x]), y, maxBytes);
    assert none + [Seg(0, [x])] == [Seg(0, [x])];
    assert none + [Seg(0, [x]), Seg(1, [y])] == [Seg(0, [x]), Seg(1, [y])];
    AppendAged([Seg(0, [x])], Seg(1, [y]), z, maxBytes);
    assert [Seg(0, [x])] + [Seg(1, [y])] == [Seg(0, [x]), Seg(1, [y])];
    assert [Seg(0, [x])] + [Seg(1, [y]), Seg(2, [z])] == [Seg(0, [x]), Seg(1, [y]), Seg(2, [z])];
    AppendThree(x, y, z, [Seg(0, [])], [Seg(0, [x])], [Seg(0, [x]), Seg(1, [y])],
                [Seg(0, [x]), Seg(1, [y]), Seg(2, [z])], maxBytes);
  }

  lemma {:induction false} AppendThree(x: Batch, y: Batch, z: Batch, s0: seq<Seg>, s1: seq<Seg>, s2: seq<Seg>,
                                       s3: seq<Seg>, maxBytes: int)
    requires s0 != [] && s1 == AppendOne(s0, maxBytes, x, false) && s2 == AppendOne(s1, maxBytes, y, true)
    requires s3 == AppendOne(s2, maxBytes, z, true)
    ensures AppendAll(s0, maxBytes, [x, y, z], [false, true, true]) == s3
  {
    assert [x, y, z][1..] == [y, z] && [y, z][1..] == [z] && [z][1..] == [];
    assert [false, true, true][1..] == [true, true] && [true, true][1..] == [true] && [true][1..] == [];
    assert AppendAll(s2, maxBytes, [z], [true]) == AppendAll(s3, maxBytes, [], []) == s3;
    assert AppendAll(s1, maxBytes, [y, z], [true, true]) == AppendAll(s2, maxBytes, [z], [true]);
  }

  lemma {:induction false} ThreeIntact(c: A.Config)
    ensures SegsIntact(CrcTest(c.crc), Three(c))
  {
    var bs := LogRuns.Numbers([Seg(0, [])], Request(c));
    Accepted(c);
    LogRuns.NumbersAre(c.crc, [Seg(0, [])], Request(c));
    AppendIntact(CrcTest(c.crc), [Seg(0, [])], 0, bs, [false, true, true]);
    ThreeAppended(c, 0);
  }

  // ---- one upload ------------------------------------------------------------------------------------

  function Empty(objects: map<Key, Object>): A.State {
    A.State([], [], map[], map[], objects, map[], map[], {}, false)
  }

  function Sum(c: A.Config, f: bytes): Option<Digest> {
    Some(c.sha(f))
  }

  /** The first n parts of a file. */
  function PartsOf(f: bytes, size: nat, n: nat): map<nat, bytes> {
    map i | 1 <= i <= n :: Chunk(f, size, i)
  }

  /** The upload of segment k with file f, sent up to its n-th part. */
  function Underway(c: A.Config, objects: map<Key, Object>, k: Key, f: bytes, saved: bool, phase: A.Phase,
                    n: nat): A.State
  {
    var p := Pending(1, Sum(c, f), 1);
    A.State([], [], map[k := p], if saved then map[k := p] else map[], objects,
            map[1 := Upload(k, c.sha(f), PartsOf(f, c.partSize, n))], map[k := A.Flight(phase, 1, n)], {}, false)
  }

  /** The object labelled, the entry not yet noted. */
  function Uploaded(c: A.Config, objects: map<Key, Object>, k: Key, f: bytes, n: nat): A.State {
    var p := Pending(1, Sum(c, f), 1);
    A.State([], [], map[k := p], map[k := p], objects[k := Object(f, Sum(c, f))], map[],
            map[k := A.Flight(A.Stored, 1, n)], {}, false)
  }

  lemma {:induction false} Opens(c: A.Config, all: A.Pieces, objects: map<Key, Object>, k: Key, f: bytes)
    requires k in all && all[k] == A.Piece(1, f) && c.limit >= 1
    ensures A.Enabled(c, all, {}, Empty(objects), k, A.Start(1, true))
    ensures A.Step(c, all, {}, Empty(objects), k, A.Start(1, true)) == Underway(c, objects, k, f, false, A.Opened, 0)
  {
    assert PartsOf(f, c.partSize, 0) == map[];
  }

  lemma {:induction false} Checkpoints(c: A.Config, all: A.Pieces, objects: map<Key, Object>, k: Key, f: bytes)
    ensures var a := Underway(c, objects, k, f, false, A.Opened, 0);
            && A.Enabled(c, all, {}, a, k, A.FlushPending)
            && A.Step(c, all, {}, a, k, A.FlushPending) == Underway(c, objects, k, f, true, A.Sending, 0)
  {
  }

  lemma {:induction false} Sends(c: A.Config, all: A.Pieces, objects: map<Key, Object>, k: Key, f: bytes, n: nat)
    requires k in all && all[k] == A.Piece(1, f) && n < MAX_PARTS && PartStart(f, c.partSize, n) < |f|
    ensures var a := Underway(c, objects, k, f, true, A.Sending, n);
            && A.Enabled(c, all, {}, a, k, A.SendPart)
            && A.Step(c, all, {}, a, k, A.SendPart) == Underway(c, objects, k, f, true, A.Sending, n + 1)
  {
    var parts := PartsOf(f, c.partSize, n);
    assert parts[n + 1 := Chunk(f, c.partSize, n + 1)] == PartsOf(f, c.partSize, n + 1);
  }

  lemma {:induction false} Renames(c: A.Config, all: A.Pieces, objects: map<Key, Object>, k: Key, f: bytes, n: nat)
    requires k in all && all[k] == A.Piece(1, f) && PartStart(f, c.partSize, n) == |f|
    requires HasUpTo(PartsOf(f, c.partSize, n), n) && Assemble(PartsOf(f, c.partSize, n), n) == f
    ensures var a := Underway(c, objects, k, f, true, A.Sending, n);
            var stamp := if k in objects then objects[k].stamp else None;
            && A.Enabled(c, all, {}, a, k, A.Rename)
            && A.Step(c, all, {}, a, k, A.Rename)
               == Underway(c, objects[k := Object(f, stamp)], k, f, true, A.Renamed, n)
  {
    var a := Underway(c, objects, k, f, true, A.Sending, n);
    assert a.uploads[1].parts == PartsOf(f, c.partSize, n);
  }

  lemma {:induction false} AllParts(f: bytes, size: nat, n: nat)
    requires PartStart(f, size, n) == |f| && Faithful(PartsOf(f, size, n), f, size)
    ensures HasUpTo(PartsOf(f, size, n), n) && Assemble(PartsOf(f, size, n), n) == f
  {
    AssembledPrefix(PartsOf(f, size, n), f, size, n);
    assert f[..|f|] == f;
  }

  lemma {:induction false} OneMorePart(f: bytes, size: nat, m: nat)
    requires size > 0 && m < MAX_PARTS && m <= PartStart(f, size, m) < |f| && Faithful(PartsOf(f, size, m), f, size)
    ensures Faithful(PartsOf(f, size, m + 1), f, size)
    ensures PartStart(f, size, m) < PartStart(f, size, m + 1) && m + 1 <= PartStart(f, size, m + 1)
  {
    var parts, more := PartsOf(f, size, m), PartsOf(f, size, m + 1);
    forall n | n in more
      ensures 1 <= n <= MAX_PARTS && PartStart(f, size, n - 1) < |f| && more[n] == Chunk(f, size, n)
    {
      if n <= m {
        assert n in parts;
      }
    }
  }

  lemma {:induction false} Labels(c: A.Config, all: A.Pieces, objects: map<Key, Object>, k: Key, f: bytes, n: nat,
                                  stamp: Option<Digest>)
    ensures var a := Underway(c, objects[k := Object(f, stamp)], k, f, true, A.Renamed, n);
            && A.Enabled(c, all, {}, a, k, A.Label)
            && A.Step(c, all, {}, a, k, A.Label) == Uploaded(c, objects, k, f, n)
  {
  }

  // ---- the entry in memory only ------------------------------------------------------------------------

  function EntryOf(c: A.Config, k: Key, f: bytes): Entry {
    Entry(k, 1, |f|, Sum(c, f))
  }

  /** Nothing of the segment is left in the files. */
  ghost predicate Forgettable(c: A.Config, a: A.State, k: Key, f: bytes) {
    a.mem == [EntryOf(c, k, f)] && a.disk == [] && k !in a.diskPending
  }

  /** Another upload opened beside. */
  function Both(c: A.Config, objects: map<Key, Object>, k: Key, f: bytes, n: nat, l: Key, g: bytes): A.State {
    var a := Uploaded(c, objects, k, f, n);
    a.(uploads := map[2 := Upload(l, c.sha(g), map[])],
       memPending := a.memPending[l := Pending(2, Sum(c, g), 2)],
       flights := a.flights[l := A.Flight(A.Opened, 2, 0)])
  }

  lemma {:induction false} OpensBeside(c: A.Config, all: A.Pieces, objects: map<Key, Object>, k: Key, f: bytes, n: nat,
                                       l: Key, g: bytes)
    requires l in all && all[l] == A.Piece(2, g) && k != l && c.limit >= 2
    ensures var a := Uploaded(c, objects, k, f, n);
            && A.Enabled(c, all, {}, a, l, A.Start(2, true))
            && A.Step(c, all, {}, a, l, A.Start(2, true)) == Both(c, objects, k, f, n, l, g)
  {
    var a := Uploaded(c, objects, k, f, n);
    assert |a.flights| == 1;
  }

  /** Noting an upload that is done. */
  lemma {:induction false} Notes(c: A.Config, all: A.Pieces, a: A.State, k: Key, f: bytes) returns (b: A.State)
    requires k in all && all[k] == A.Piece(1, f) && A.InPhase(a, k, A.Stored) && a.mem == []
    ensures A.Enabled(c, all, {}, a, k, A.Note(|f|)) && b == A.Step(c, all, {}, a, k, A.Note(|f|))
    ensures b.mem == [EntryOf(c, k, f)] && b.disk == a.disk && b.memPending == a.memPending - {k}
    ensures b.forgetting == a.forgetting && b.diskPending == a.diskPending
    ensures forall l :: l != k ==> (A.InPhase(b, l, A.Opened) <==> A.InPhase(a, l, A.Opened))
  {
    b := A.Step(c, all, {}, a, k, A.Note(|f|));
    assert Added([], EntryOf(c, k, f)) == [EntryOf(c, k, f)];
  }

  // ---- the whole run --------------------------------------------------------------------------------

  function With(c: A.Config, home: Key, cold: A.State): Tier {
    Tier(home, Three(c), 0, -1, cold)
  }

  lemma {:induction false} ThreeSealed(c: A.Config, home: Key)
    ensures var all := SealedPieces(home, Three(c));
            && At(home, 0) in all && all[At(home, 0)] == A.Piece(1, One(c, 0).raw)
            && At(home, 1) in all && all[At(home, 1)] == A.Piece(2, One(c, 1).raw)
    ensures Keys(home, Three(c)[..0]) == {}
  {
    OneIs(c, 0);
    OneIs(c, 1);
    var two, one := [Single(c, 1), Single(c, 2)], [Single(c, 2)];
    assert Three(c)[1..] == two && two[1..] == one;
    assert SealedPieces(home, one) == map[];
    assert SealedPieces(home, two) == map[At(home, 1) := A.Piece(2, One(c, 1).raw)];
  }

  /** One step of an upload. */
  lemma {:induction false} Go(c: A.Config, start: Tier, maxBytes: int, home: Key, a: A.State, base: int,
                              ev: A.Event, b: A.State)
    requires Reached(c, start, maxBytes, With(c, home, a))
    requires A.Enabled(c, SealedPieces(home, Three(c)), {}, a, At(home, base), ev)
    requires A.Step(c, SealedPieces(home, Three(c)), {}, a, At(home, base), ev) == b
    ensures Reached(c, start, maxBytes, With(c, home, b))
  {
    ThreeSealed(c, home);
    ReachStep(c, start, maxBytes, With(c, home, a), Archive(base, ev), With(c, home, b));
  }

  lemma {:induction false} ReachThree(c: A.Config, home: Key, objects: map<Key, Object>, maxBytes: int)
    ensures Reached(c, Fresh(home, objects), maxBytes, With(c, home, Empty(objects)))
  {
    var start := Fresh(home, objects);
    assert CanRun(c, start, [], maxBytes) && Run(c, start, [], maxBytes) == start;
    assert start.segs[0..] == start.segs;
    Accepted(c);
    ThreeAppended(c, maxBytes);
    assert start.segs[..0] + Three(c) == Three(c);
    ReachStep(c, start, maxBytes, start, Produce(Request(c), [false, true, true]), With(c, home, Empty(objects)));
  }

  ghost predicate FirstSealed(c: A.Config, home: Key, f: bytes) {
    At(home, 0) in SealedPieces(home, Three(c)) && SealedPieces(home, Three(c))[At(home, 0)] == A.Piece(1, f)
  }

  /** The upload of segment 0, with n parts in the store that end at pos. */
  ghost predicate Sending(c: A.Config, start: Tier, maxBytes: int, home: Key, objects: map<Key, Object>, f: bytes,
                          n: nat, pos: nat)
  {
    && Reached(c, start, maxBytes, With(c, home, Underway(c, objects, At(home, 0), f, true, A.Sending, n)))
    && n <= pos == PartStart(f, c.partSize, n) && Faithful(PartsOf(f, c.partSize, n), f, c.partSize)
  }

  lemma {:induction false} ReachPart(c: A.Config, start: Tier, maxBytes: int, home: Key, objects: map<Key, Object>,
                                     f: bytes, m: nat, pos: nat) returns (next: nat)
    requires FirstSealed(c, home, f) && Sending(c, start, maxBytes, home, objects, f, m, pos)
    requires c.partSize > 0 && pos < |f| <= MAX_PARTS
    ensures Sending(c, start, maxBytes, home, objects, f, m + 1, next) && pos < next <= |f|
  {
    var k := At(home, 0);
    Sends(c, SealedPieces(home, Three(c)), objects, k, f, m);
    Go(c, start, maxBytes, home, Underway(c, objects, k, f, true, A.Sending, m), 0, A.SendPart,
       Underway(c, objects, k, f, true, A.Sending, m + 1));
    OneMorePart(f, c.partSize, m);
    next := PartStart(f, c.partSize, m + 1);
  }

  /** The remaining parts go out one by one. */
  lemma {:induction false} ReachSent(c: A.Config, start: Tier, maxBytes: int, home: Key, objects: map<Key, Object>,
                                     f: bytes, m: nat, pos: nat) returns (n: nat)
    requires FirstSealed(c, home, f) && Sending(c, start, maxBytes, home, objects, f, m, pos)
    requires c.partSize > 0 && pos <= |f| <= MAX_PARTS
    ensures Sending(c, start, maxBytes, home, objects, f, n, |f|)
    decreases |f| - pos
  {
    if pos == |f| {
      return m;
    }
    var next := ReachPart(c, start, maxBytes, home, objects, f, m, pos);
    n := ReachSent(c, start, maxBytes, home, objects, f, m + 1, next);
  }

  lemma {:induction false} ReachUploaded(c: A.Config, home: Key, objects: map<Key, Object>, maxBytes: int)
    returns (n: nat)
    requires c.limit >= 1 && c.partSize > 0
    ensures Reached(c, Fresh(home, objects), maxBytes,
                    With(c, home, Uploaded(c, objects, At(home, 0), One(c, 0).raw, n)))
  {
    var start, all, k, f := Fresh(home, objects), SealedPieces(home, Three(c)), At(home, 0), One(c, 0).raw;
    var stamp := if k in objects then objects[k].stamp else None;
    var a1, a2 := Underway(c, objects, k, f, false, A.Opened, 0), Underway(c, objects, k, f, true, A.Sending, 0);
    OneIs(c, 0);
    ThreeSealed(c, home);
    ReachThree(c, home, objects, maxBytes);
    Opens(c, all, objects, k, f);
    Go(c, start, maxBytes, home, Empty(objects), 0, A.Start(1, true), a1);
    Checkpoints(c, all, objects, k, f);
    Go(c, start, maxBytes, home, a1, 0, A.FlushPending, a2);
    n := ReachSent(c, start, maxBytes, home, objects, f, 0, 0);
    var a3 := Underway(c, objects, k, f, true, A.Sending, n);
    AllParts(f, c.partSize, n);
    var a4 := Underway(c, objects[k := Object(f, stamp)], k, f, true, A.Renamed, n);
    Renames(c, all, objects, k, f, n);
    Go(c, start, maxBytes, home, a3, 0, A.Rename, a4);
    Labels(c, all, objects, k, f, n, stamp);
    Go(c, start, maxBytes, home, a4, 0, A.Label, Uploaded(c, objects, k, f, n));
  }

  /** Two uploads at a time: the other's checkpoint flush comes between. */
  lemma {:induction false} ReachRaced(c: A.Config, home: Key, objects: map<Key, Object>, maxBytes: int)
    returns (d: A.State)
    requires c.limit >= 2 && c.partSize > 0
    ensures Reached(c, Fresh(home, objects), maxBytes, With(c, home, d))
    ensures Forgettable(c, d, At(home, 0), One(c, 0).raw)
  {
    var start, all, k, l := Fresh(home, objects), SealedPieces(home, Three(c)), At(home, 0), At(home, 1);
    var f, g := One(c, 0).raw, One(c, 1).raw;
    ThreeSealed(c, home);
    var n := ReachUploaded(c, home, objects, maxBytes);
    var a := Both(c, objects, k, f, n, l, g);
    OpensBeside(c, all, objects, k, f, n, l, g);
    Go(c, start, maxBytes, home, Uploaded(c, objects, k, f, n), 1, A.Start(2, true), a);
    var b := Notes(c, all, a, k, f);
    Go(c, start, maxBytes, home, a, 0, A.Note(|f|), b);
    d := A.Step(c, all, {}, b, l, A.FlushPending);
    Go(c, start, maxBytes, home, b, 1, A.FlushPending, d);
  }

  /** One upload, and another topic deleted: the deletion's two flushes fall on either side of
      the note. */
  lemma {:induction false} ReachForgotten(c: A.Config, home: Key, objects: map<Key, Object>, maxBytes: int)
    returns (d: A.State)
    requires c.limit >= 1 && c.deletions && c.partSize > 0
    ensures Reached(c, Fresh(home, objects), maxBytes, With(c, home, d))
    ensures Forgettable(c, d, At(home, 0), One(c, 0).raw)
  {
    var start, all, k, f := Fresh(home, objects), SealedPieces(home, Three(c)), At(home, 0), One(c, 0).raw;
    ThreeSealed(c, home);
    var n := ReachUploaded(c, home, objects, maxBytes);
    var a := Uploaded(c, objects, k, f, n);
    Go(c, start, maxBytes, home, a, 0, A.ForgetCompleted, a.(forgetting := true));
    a := a.(forgetting := true);
    var b := Notes(c, all, a, k, f);
    Go(c, start, maxBytes, home, a, 0, A.Note(|f|), b);
    d := A.Step(c, all, {}, b, k, A.ForgetPending);
    Go(c, start, maxBytes, home, b, 0, A.ForgetPending, d);
  }

  /** Retention deletes segment 0, which the manifest holds. */
  lemma {:induction false} ReachDeleted(c: A.Config, start: Tier, maxBytes: int, home: Key, a: A.State)
    requires Reached(c, start, maxBytes, With(c, home, a)) && a.mem == [EntryOf(c, At(home, 0), One(c, 0).raw)]
    ensures Reached(c, start, maxBytes, With(c, home, a).(gone := 1))
  {
    var t := With(c, home, a);
    OneIs(c, 0);
    OneIs(c, 1);
    Sweep(c, t, Single(c, 0), Single(c, 1), Single(c, 2), maxBytes);
    ReachStep(c, start, maxBytes, t, Decide(1), t.(cutoff := 1));
    ReachStep(c, start, maxBytes, t.(cutoff := 1), Delete, t.(gone := 1));
  }

  lemma {:induction false} Sweep(c: A.Config, t: Tier, p: Seg, q: Seg, r: Seg, maxBytes: int)
    requires t.segs == [p, q, r] && t.gone == 0 && t.cutoff == -1 && p.base == 0 && p.Next() == 1
    requires q.base == 1 && q.Next() == 2 && r.base == 2
    requires |t.cold.mem| == 1 && t.cold.mem[0].key == At(t.home, 0) && t.cold.mem[0].next == 1
    requires t.cold.mem[0].size == |p.File()|
    ensures Enabled(c, t, Decide(1)) && Step(c, t, Decide(1), maxBytes) == t.(cutoff := 1)
    ensures Step(c, t.(cutoff := 1), Delete, maxBytes) == t.(gone := 1)
  {
    assert Local(t) == t.segs;
    assert [p, q, r][1..] == [q, r];
    assert DeleteCount([q, r], 1) == 0;
    assert DeleteCount([p, q, r], 1) == 1;
  }

  /** Then the process dies. */
  lemma {:induction false} ReachLost(c: A.Config, start: Tier, maxBytes: int, t: Tier) returns (u: Tier)
    requires Reached(c, start, maxBytes, t) && t.segs == Three(c) && t.gone == 1
    requires t.cold.disk == [] && At(t.home, 0) !in t.cold.diskPending
    ensures Reached(c, start, maxBytes, u) && !NothingLost(c, u)
  {
    OneIs(c, 0);
    OneIs(c, 2);
    ThreeIntact(c);
    u := CrashWith(c, t, Single(c, 0), Single(c, 1), Single(c, 2), maxBytes);
    ReachStep(c, start, maxBytes, t, Crash(0), u);
    ZeroIsLost(c, u);
  }

  lemma {:induction false} CrashWith(c: A.Config, t: Tier, p: Seg, q: Seg, r: Seg, maxBytes: int) returns (u: Tier)
    requires t.segs == [p, q, r] && t.gone == 1 && SegsIntact(CrcTest(c.crc), t.segs)
    requires r.batches != [] && |r.batches[0].raw| > 0
    ensures Enabled(c, t, Crash(0)) && u == Step(c, t, Crash(0), maxBytes)
    ensures u == Tier(t.home, [p, q, Seg(r.base, [])], 1, -1, A.Crashed(t.cold))
  {
    var local := [q, r];
    assert Local(t) == local;
    assert forall i :: 0 <= i < 2 ==> local[i] == t.segs[i + 1];
    LogRuns.ReopenIsCut(c.crc, local, 0, LogRuns.Torn(local, 0));
    u := Step(c, t, Crash(0), maxBytes);
    assert Fit(Raws(r.batches), 0) == 0;
    assert u.segs == [p, q, Seg(r.base, [])];
  }

  lemma {:induction false} ZeroIsLost(c: A.Config, u: Tier)
    requires |u.segs| == 3 && u.gone == 1 && u.segs[0].base == 0 && u.segs[0].Next() == 1
    requires u.segs[1].base == 1 && u.segs[2].base == 2 && Hwm(u.segs) > 0
    requires u.cold.mem == [] && At(u.home, 0) !in u.cold.memPending
    ensures !NothingLost(c, u)
  {
    assert !Archived(c, u, 0);
    assert !Somewhere(c, u, 0);
  }

  /** Some run of accepted requests loses a segment as soon as two uploads may overlap, or
      another topic may be deleted, whatever the digest, the checksum, the part size and the
      segment size limit. */
  lemma {:induction false} OverlapCanLose(c: A.Config, home: Key, objects: map<Key, Object>, maxBytes: int)
    returns (u: Tier)
    requires c.limit >= 2 || (c.limit == 1 && c.deletions)
    requires c.partSize > 0
    ensures Reached(c, Fresh(home, objects), maxBytes, u) && !NothingLost(c, u)
  {
    var start := Fresh(home, objects);
    var a;
    if c.limit >= 2 {
      a := ReachRaced(c, home, objects, maxBytes);
    } else {
      a := ReachForgotten(c, home, objects, maxBytes);
    }
    ReachDeleted(c, start, maxBytes, home, a);
    u := ReachLost(c, start, maxBytes, With(c, home, a).(gone := 1));
  }

  /** No run loses an offset if and only if uploads run one at a time and no other topic is
      deleted meanwhile. At least one upload always may run. */
  lemma {:induction false} SafeExactlyWhenSequential(c: A.Config, home: Key, objects: map<Key, Object>, maxBytes: int)
    requires Injective(c.sha) && Honest(c, objects) && c.partSize > 0 && c.limit >= 1
    ensures (forall t :: Reached(c, Fresh(home, objects), maxBytes, t) ==> NothingLost(c, t))
            <==> c.limit == 1 && !c.deletions
  {
    var start := Fresh(home, objects);
    if c.limit == 1 && !c.deletions {
      forall t | Reached(c, start, maxBytes, t)
        ensures NothingLost(c, t)
      {
        var acts :| CanRun(c, start, acts, maxBytes) && Run(c, start, acts, maxBytes) == t;
        RunsLoseNothing(c, home, objects, acts, maxBytes);
      }
    } else {
      var u := OverlapCanLose(c, home, objects, maxBytes);
    }
  }
}
