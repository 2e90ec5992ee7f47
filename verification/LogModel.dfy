/** A partition log as a value: a list of segments, read as one flat run of batches. */
module LogModel {
  import opened Framing
  import opened Offsets
  import opened Layout
  import opened Segments

  function Flat(segs: seq<Seg>): seq<Batch> {
    if segs == [] then [] else segs[0].batches + Flat(segs[1..])
  }

  /** Gap-free: every segment but the last holds something, and each one ends
      where the next begins. */
  predicate Chain(segs: seq<Seg>) {
    && segs != []
    && Dense(segs[0].base, segs[0].batches)
    && (|segs| > 1 ==> segs[0].batches != [] && segs[1].base == segs[0].Next() && Chain(segs[1..]))
  }

  function Last(segs: seq<Seg>): Seg
    requires segs != []
  {
    segs[|segs| - 1]
  }

  /** The high watermark. */
  function Hwm(segs: seq<Seg>): int
    requires segs != []
  {
    Last(segs).Next()
  }

  predicate ShouldRoll(s: Seg, maxBytes: int, aged: bool) {
    |s.File()| != 0 && ((maxBytes > 0 && |s.File()| >= maxBytes) || aged)
  }

  function Roll(segs: seq<Seg>): (r: seq<Seg>)
    requires segs != []
    ensures r != []
  {
    if Hwm(segs) == Last(segs).base then segs else segs + [Seg(Hwm(segs), [])]
  }

  function MaybeRoll(segs: seq<Seg>, maxBytes: int, aged: bool): (r: seq<Seg>)
    requires segs != []
    ensures r != []
  {
    if ShouldRoll(Last(segs), maxBytes, aged) then Roll(segs) else segs
  }

  /** Stores one more batch in the active segment. */
  function Put(segs: seq<Seg>, b: Batch): (r: seq<Seg>)
    requires segs != []
    ensures r != []
  {
    segs[..|segs| - 1] + [Seg(Last(segs).base, Last(segs).batches + [b])]
  }

  function AppendOne(segs: seq<Seg>, maxBytes: int, b: Batch, aged: bool): (r: seq<Seg>)
    requires segs != []
    ensures r != []
  {
    Put(MaybeRoll(segs, maxBytes, aged), b)
  }

  /** A request's stamped batches stored one by one, rolling before any of them when due. */
  function AppendAll(segs: seq<Seg>, maxBytes: int, bs: seq<Batch>, aged: seq<bool>): (r: seq<Seg>)
    requires segs != [] && |aged| == |bs|
    ensures r != []
    decreases |bs|
  {
    if bs == [] then segs
    else AppendAll(AppendOne(segs, maxBytes, bs[0], aged[0]), maxBytes, bs[1..], aged[1..])
  }

  // ---- the flat view -----------------------------------------------------------

  lemma {:induction false} FlatConcat(a: seq<Seg>, b: seq<Seg>)
    ensures Flat(a + b) == Flat(a) + Flat(b)
  {
    if a == [] {
      assert a + b == b;
    } else {
      calc {
        Flat(a + b);
        { assert (a + b)[0] == a[0] && (a + b)[1..] == a[1..] + b; }
        a[0].batches + Flat(a[1..] + b);
        { FlatConcat(a[1..], b); }
        a[0].batches + (Flat(a[1..]) + Flat(b));
        a[0].batches + Flat(a[1..]) + Flat(b);
      }
    }
  }

  lemma {:induction false} FlatLast(segs: seq<Seg>)
    requires segs != []
    ensures Flat(segs) == Flat(segs[..|segs| - 1]) + Last(segs).batches
  {
    var n := |segs| - 1;
    assert segs[..n] + segs[n..] == segs;
    FlatConcat(segs[..n], segs[n..]);
    assert Flat(segs[n..]) == segs[n].batches + Flat([]) == segs[n].batches;
  }

  /** Read flat, a gap-free log is one dense run from its first base to its high watermark. */
  lemma {:induction false} ChainIsDense(segs: seq<Seg>)
    requires Chain(segs)
    ensures Dense(segs[0].base, Flat(segs))
    ensures Next(segs[0].base, Flat(segs)) == Hwm(segs)
  {
    if |segs| == 1 {
      assert Flat(segs) == segs[0].batches + Flat(segs[1..]) == segs[0].batches;
    } else {
      ChainIsDense(segs[1..]);
      DenseConcat(segs[0].base, segs[0].batches, Flat(segs[1..]));
    }
  }

  lemma ChainSingle(s: Seg)
    requires Dense(s.base, s.batches)
    ensures Chain([s]) && Flat([s]) == s.batches
  {
    assert [s][1..] == [];
    assert Flat([s]) == s.batches + Flat([]);
  }

  lemma ChainPair(a: Seg, b: Seg)
    requires Dense(a.base, a.batches) && Dense(b.base, b.batches) && a.batches != [] && b.base == a.Next()
    ensures Chain([a, b]) && Flat([a, b]) == a.batches + b.batches
  {
    assert [a, b][1..] == [b];
    ChainSingle(b);
  }

  /** Putting a chain in the place of the last segment keeps the chain. */
  lemma {:induction false} ChainReplaceLast(segs: seq<Seg>, tail: seq<Seg>)
    requires Chain(segs) && Chain(tail) && tail[0].base == Last(segs).base
    ensures Chain(segs[..|segs| - 1] + tail)
    ensures (segs[..|segs| - 1] + tail)[0].base == segs[0].base
    decreases |segs|
  {
    var n := |segs| - 1;
    var r := segs[..n] + tail;
    if n == 0 {
      assert r == tail;
    } else {
      ChainReplaceLast(segs[1..], tail);
      assert r[1..] == segs[1..][..n - 1] + tail;
    }
  }

  lemma {:induction false} ChainLast(segs: seq<Seg>)
    requires Chain(segs)
    ensures Dense(Last(segs).base, Last(segs).batches) && segs[0].base <= Last(segs).base <= Hwm(segs)
    decreases |segs|
  {
    DenseNext(segs[0].base, segs[0].batches);
    if |segs| > 1 {
      ChainLast(segs[1..]);
    }
  }

  // ---- what appending does ----------------------------------------------------------

  /** `after` is the log `before` with `added` appended: sealed segments untouched,
      still gap-free, and flat exactly that much longer. */
  predicate Extends(before: seq<Seg>, after: seq<Seg>, added: seq<Batch>)
    requires before != []
  {
    && Chain(after) && after[0].base == before[0].base
    && |before| <= |after| && before[..|before| - 1] == after[..|before| - 1]
    && Flat(after) == Flat(before) + added
  }

  lemma ExtendsTwice(a: seq<Seg>, b: seq<Seg>, c: seq<Seg>, x: seq<Batch>, y: seq<Batch>)
    requires a != [] && b != [] && Extends(a, b, x) && Extends(b, c, y)
    ensures Extends(a, c, x + y)
  {
    var n := |a| - 1;
    assert a[..n] == b[..|b| - 1][..n] == c[..|b| - 1][..n] == c[..n];
    Associate(Flat(a), x, y);
  }

  lemma Associate(a: seq<Batch>, b: seq<Batch>, c: seq<Batch>)
    ensures (a + b) + c == a + (b + c)
  {
  }

  lemma {:induction false} ReplaceLastExtends(segs: seq<Seg>, tail: seq<Seg>, added: seq<Batch>)
    requires Chain(segs) && Chain(tail) && tail[0].base == Last(segs).base
    requires Flat(tail) == Last(segs).batches + added
    ensures Extends(segs, segs[..|segs| - 1] + tail, added)
  {
    var n := |segs| - 1;
    var r := segs[..n] + tail;
    ChainReplaceLast(segs, tail);
    FlatConcat(segs[..n], tail);
    FlatLast(segs);
    Associate(Flat(segs[..n]), Last(segs).batches, added);
    assert r[..n] == segs[..n];
  }

  lemma SplitLast(segs: seq<Seg>, next: Seg)
    requires segs != []
    ensures segs + [next] == segs[..|segs| - 1] + [Last(segs), next]
  {
  }

  lemma {:induction false} RollEffect(segs: seq<Seg>)
    requires Chain(segs)
    ensures Extends(segs, Roll(segs), []) && Hwm(Roll(segs)) == Hwm(segs)
  {
    ChainLast(segs);
    var last, next := Last(segs), Seg(Hwm(segs), []);
    if Hwm(segs) == last.base {
      assert Flat(segs) + [] == Flat(segs);
    } else {
      ChainPair(last, next);
      assert last.batches + [] == last.batches;
      ReplaceLastExtends(segs, [last, next], []);
      SplitLast(segs, next);
    }
  }

  lemma {:induction false} DenseSnoc(base: int, bs: seq<Batch>, b: Batch)
    requires Dense(base, bs) && b.base == Next(base, bs) <= b.last
    ensures Dense(base, bs + [b])
  {
    assert Dense(b.base, [b]);
    DenseConcat(base, bs, [b]);
  }

  lemma {:induction false} PutEffect(segs: seq<Seg>, b: Batch)
    requires Chain(segs) && b.base == Hwm(segs) <= b.last
    ensures Extends(segs, Put(segs, b), [b]) && Hwm(Put(segs, b)) == b.last + 1
  {
    var last := Last(segs);
    ChainLast(segs);
    DenseSnoc(last.base, last.batches, b);
    var grown := Seg(last.base, last.batches + [b]);
    ChainSingle(grown);
    ReplaceLastExtends(segs, [grown], [b]);
  }

  lemma {:induction false} AppendOneEffect(segs: seq<Seg>, maxBytes: int, b: Batch, aged: bool)
    requires Chain(segs) && b.base == Hwm(segs) <= b.last
    ensures Extends(segs, AppendOne(segs, maxBytes, b, aged), [b])
    ensures Hwm(AppendOne(segs, maxBytes, b, aged)) == b.last + 1
  {
    if ShouldRoll(Last(segs), maxBytes, aged) {
      RollThenPut(segs, Roll(segs), b);
    } else {
      PutEffect(segs, b);
    }
  }

  lemma {:induction false} RollThenPut(segs: seq<Seg>, rolled: seq<Seg>, b: Batch)
    requires Chain(segs) && b.base == Hwm(segs) <= b.last && rolled == Roll(segs)
    ensures Extends(segs, Put(rolled, b), [b]) && Hwm(Put(rolled, b)) == b.last + 1
  {
    RollEffect(segs);
    PutEffect(rolled, b);
    ExtendsTwice(segs, rolled, Put(rolled, b), [], [b]);
    assert [] + [b] == [b];
  }

  /** Whatever the roll decisions, a request extends the flat log by exactly its
      own stamped batches, and keeps the chain. */
  lemma {:induction false} AppendAllEffect(segs: seq<Seg>, maxBytes: int, bs: seq<Batch>, aged: seq<bool>)
    requires Chain(segs) && |aged| == |bs| && Dense(Hwm(segs), bs)
    ensures Extends(segs, AppendAll(segs, maxBytes, bs, aged), bs)
    ensures Hwm(AppendAll(segs, maxBytes, bs, aged)) == Next(Hwm(segs), bs)
    decreases |bs|
  {
    if bs == [] {
      assert Flat(segs) + [] == Flat(segs);
    } else {
      var b, rest := bs[0], bs[1..];
      var mid := AppendOne(segs, maxBytes, b, aged[0]);
      NextTail(Hwm(segs), bs);
      AppendOneEffect(segs, maxBytes, b, aged[0]);
      AppendAllEffect(mid, maxBytes, rest, aged[1..]);
      ExtendsMore(segs, mid, AppendAll(mid, maxBytes, rest, aged[1..]), b, bs);
    }
  }

  lemma {:induction false} ExtendsMore(segs: seq<Seg>, mid: seq<Seg>, after: seq<Seg>, b: Batch, bs: seq<Batch>)
    requires bs != [] && b == bs[0] && segs != [] && mid != []
    requires Extends(segs, mid, [b]) && Extends(mid, after, bs[1..])
    ensures Extends(segs, after, bs)
  {
    ExtendsTwice(segs, mid, after, [b], bs[1..]);
    assert [b] + bs[1..] == bs;
  }

  // ---- deleting -----------------------------------------------------------------------

  /** How many leading segments DeleteSegmentsBefore removes. */
  function DeleteCount(segs: seq<Seg>, cutoff: int): (n: nat)
    ensures segs != [] ==> n < |segs|
    ensures segs == [] ==> n == 0
  {
    if |segs| <= 1 || segs[1].base > cutoff then 0 else 1 + DeleteCount(segs[1..], cutoff)
  }

  lemma {:induction false} ChainDrop(segs: seq<Seg>, n: nat)
    requires Chain(segs) && n < |segs|
    ensures Chain(segs[n..]) && Hwm(segs[n..]) == Hwm(segs)
    ensures Flat(segs) == Flat(segs[..n]) + Flat(segs[n..])
    ensures segs[n].base == Next(segs[0].base, Flat(segs[..n]))
  {
    assert segs == segs[..n] + segs[n..];
    FlatConcat(segs[..n], segs[n..]);
    if n == 0 {
      assert segs[0..] == segs;
    } else {
      ChainDrop(segs[1..], n - 1);
      assert segs[1..][n - 1..] == segs[n..];
      assert segs[..n][1..] == segs[1..][..n - 1];
      DenseConcat(segs[0].base, segs[0].batches, Flat(segs[1..][..n - 1]));
    }
  }

  /** On a gap-free log the segments removed are those that end by the cutoff,
      the active one never. */
  lemma {:induction false} DeletesWhatEnds(segs: seq<Seg>, cutoff: int, i: nat)
    requires Chain(segs) && i < |segs|
    ensures i < DeleteCount(segs, cutoff) <==> i < |segs| - 1 && segs[i].Next() <= cutoff
    decreases |segs|
  {
    if |segs| > 1 {
      if i > 0 {
        DeletesWhatEnds(segs[1..], cutoff, i - 1);
        ChainOrder(segs, 0, i);
      }
    }
  }

  /** Bases strictly increase along a chain, and each segment ends by the base of any later one. */
  lemma {:induction false} ChainOrder(segs: seq<Seg>, i: nat, j: nat)
    requires Chain(segs) && i < j < |segs|
    ensures segs[i].base < segs[i].Next() <= segs[j].base <= segs[j].Next()
    decreases |segs|
  {
    DenseNext(segs[0].base, segs[0].batches);
    if i > 0 {
      ChainOrder(segs[1..], i - 1, j - 1);
    } else if j > 1 {
      ChainOrder(segs[1..], 0, j - 1);
    } else if |segs| > 1 {
      DenseNext(segs[1].base, segs[1].batches);
    }
  }

  /** Segments in order, each gap-free in itself; recovery may have left gaps between them. */
  ghost predicate Ordered(segs: seq<Seg>) {
    && segs != []
    && (forall i :: 0 <= i < |segs| ==> Dense(segs[i].base, segs[i].batches))
    && (forall i :: 0 <= i < |segs| - 1 ==> segs[i].Next() <= segs[i + 1].base && segs[i].base < segs[i + 1].base)
  }

  lemma {:induction false} OrderedAscends(segs: seq<Seg>, i: nat, j: nat)
    requires Ordered(segs) && i < j < |segs|
    ensures segs[i].base <= segs[i].Next() <= segs[j].base <= segs[j].Next()
    ensures segs[i].base < segs[j].base
    decreases j
  {
    DenseNext(segs[j].base, segs[j].batches);
    DenseNext(segs[i].base, segs[i].batches);
    DenseNext(segs[j - 1].base, segs[j - 1].batches);
    if i + 1 < j {
      OrderedAscends(segs, i, j - 1);
    }
  }

  lemma {:induction false} ChainOrdered(segs: seq<Seg>)
    requires Chain(segs)
    ensures Ordered(segs)
  {
    DenseNext(segs[0].base, segs[0].batches);
    if |segs| > 1 {
      ChainOrdered(segs[1..]);
      ChainOrder(segs, 0, 1);
      assert forall i :: 1 <= i < |segs| ==> segs[i] == segs[1..][i - 1];
    }
  }

  // ---- intact batches ------------------------------------------------------------------

  /** Every stored batch is whole, passes the test and reads as recorded. */
  ghost predicate SegsIntact(ok: Test, segs: seq<Seg>) {
    forall i :: 0 <= i < |segs| ==> AllIntact(ok, segs[i].batches)
  }

  lemma {:induction false} PutIntact(ok: Test, segs: seq<Seg>, b: Batch)
    requires segs != [] && SegsIntact(ok, segs) && Intact(ok, b)
    ensures SegsIntact(ok, Put(segs, b))
  {
    assert AllIntact(ok, [b]) by { assert [b][1..] == []; }
    IntactConcat(ok, Last(segs).batches, [b]);
  }

  lemma {:induction false} RollIntact(ok: Test, segs: seq<Seg>, maxBytes: int, aged: bool)
    requires segs != [] && SegsIntact(ok, segs)
    ensures SegsIntact(ok, MaybeRoll(segs, maxBytes, aged))
  {
  }

  lemma {:induction false} AppendIntact(ok: Test, segs: seq<Seg>, maxBytes: int, bs: seq<Batch>, aged: seq<bool>)
    requires segs != [] && SegsIntact(ok, segs) && |aged| == |bs| && AllIntact(ok, bs)
    ensures SegsIntact(ok, AppendAll(segs, maxBytes, bs, aged))
    decreases |bs|
  {
    if bs != [] {
      RollIntact(ok, segs, maxBytes, aged[0]);
      PutIntact(ok, MaybeRoll(segs, maxBytes, aged[0]), bs[0]);
      AppendIntact(ok, AppendOne(segs, maxBytes, bs[0], aged[0]), maxBytes, bs[1..], aged[1..]);
    }
  }
}
