/** The sparse offset index of a segment and its timestamp sibling. */
module Index {

  const UINT32 := 0x1_0000_0000

  /** What one stored batch offers to the indexes. */
  datatype Mark = Mark(rel: int, pos: int, ts: int) {
    predicate Fits() { 0 <= rel < UINT32 && 0 <= pos < UINT32 }
  }

  datatype Entry = Entry(rel: int, pos: int)

  datatype State = State(entries: seq<Entry>, lastPos: int)

  const EMPTY := State([], 0)

  /** MaybeAppend: skip while the last entry is near; refuse what 32 bits cannot hold. */
  function Offer(ix: State, interval: int, rel: int, pos: int): State {
    if pos - ix.lastPos < interval && |ix.entries| > 0 then ix
    else if !(0 <= rel < UINT32) || !(0 <= pos < UINT32) then ix
    else State(ix.entries + [Entry(rel, pos)], pos)
  }

  /** The index after offering every mark in turn to an empty one. */
  function Build(interval: int, ms: seq<Mark>): State {
    if ms == [] then EMPTY
    else
      var m := ms[|ms| - 1];
      Offer(Build(interval, ms[..|ms| - 1]), interval, m.rel, m.pos)
  }

  ghost predicate Sorted(entries: seq<Entry>) {
    forall i, j :: 0 <= i < j < |entries| ==> entries[i].rel < entries[j].rel
  }

  /** Reference lookup: walk back from the last entry to the first that does not exceed t. */
  function HitPos(entries: seq<Entry>, t: int): int {
    if entries == [] then 0
    else if entries[|entries| - 1].rel <= t then entries[|entries| - 1].pos
    else HitPos(entries[..|entries| - 1], t)
  }

  lemma {:induction false} HitPosAt(entries: seq<Entry>, t: int, k: nat)
    requires k <= |entries|
    requires k > 0 ==> entries[k - 1].rel <= t
    requires forall i :: k <= i < |entries| ==> entries[i].rel > t
    ensures HitPos(entries, t) == if k == 0 then 0 else entries[k - 1].pos
  {
    if k < |entries| {
      HitPosAt(entries[..|entries| - 1], t, k);
    }
  }

  class OffsetIndex {
    var entries: seq<Entry>
    var lastIndexedPos: int
    const interval: int

    ghost function View(): State
      reads this
    {
      State(entries, lastIndexedPos)
    }

    /** OpenIndex: entries already in the index file are loaded as they are. */
    constructor (interval: int, loaded: seq<Entry>)
      ensures this.interval == interval && entries == loaded
      ensures lastIndexedPos == if loaded == [] then 0 else loaded[|loaded| - 1].pos
    {
      this.interval := interval;
      entries := loaded;
      lastIndexedPos := if loaded == [] then 0 else loaded[|loaded| - 1].pos;
    }

    method MaybeAppend(relOffset: int, position: int)
      modifies this
      ensures View() == Offer(old(View()), interval, relOffset, position)
    {
      if position - lastIndexedPos < interval && |entries| > 0 {
        return;
      }
      if relOffset < 0 || relOffset > 0xFFFF_FFFF {
        return;
      }
      if position < 0 || position > 0xFFFF_FFFF {
        return;
      }
      entries := entries + [Entry(relOffset, position)];
      lastIndexedPos := position;
    }

    method Reset()
      modifies this
      ensures View() == EMPTY
    {
      entries := [];
      lastIndexedPos := 0;
    }
  }

  /** Binary search on the target truncated to 32 bits; agrees with the walk
      of HitPos whenever the entries are in order. */
  method LookupPosition(entries: seq<Entry>, relOffset: int) returns (pos: int, ok: bool)
    requires Sorted(entries)
    ensures ok <==> entries != []
    ensures !ok ==> pos == 0
    ensures pos == HitPos(entries, relOffset % UINT32)
  {
    if |entries| == 0 {
      return 0, false;
    }
    var target := relOffset % UINT32;
    var lo, hi := 0, |entries|;
    while lo < hi
      invariant 0 <= lo <= hi <= |entries|
      invariant forall i :: 0 <= i < lo ==> entries[i].rel <= target
      invariant forall i :: hi <= i < |entries| ==> entries[i].rel > target
    {
      var mid := (lo + hi) / 2;
      if !(entries[mid].rel > target) {
        lo := mid + 1;
      } else {
        hi := mid;
      }
    }
    HitPosAt(entries, target, lo);
    if lo == 0 {
      return 0, true;
    }
    return entries[lo - 1].pos, true;
  }

  // ---- what the index guarantees ---------------------------------------------

  /** Which marks became entries. */
  ghost function Picked(interval: int, ms: seq<Mark>): seq<nat> {
    if ms == [] then []
    else
      var init := ms[..|ms| - 1];
      if |Build(interval, ms).entries| == |Build(interval, init).entries| then Picked(interval, init)
      else Picked(interval, init) + [|ms| - 1]
  }

  /** Offsets and positions both move forward from one batch to the next. */
  ghost predicate Increasing(ms: seq<Mark>) {
    && (forall i :: 0 <= i < |ms| ==> 0 <= ms[i].rel && 0 <= ms[i].pos)
    && (forall i, j :: 0 <= i < j < |ms| ==> ms[i].rel < ms[j].rel && ms[i].pos < ms[j].pos)
  }

  /** The entries are, in order, the marks that were picked. */
  ghost predicate Mirrors(ix: State, picks: seq<nat>, ms: seq<Mark>) {
    && |ix.entries| == |picks|
    && (forall i :: 0 <= i < |picks| ==>
          picks[i] < |ms| && ix.entries[i] == Entry(ms[picks[i]].rel, ms[picks[i]].pos))
    && (forall i, j :: 0 <= i < j < |picks| ==> picks[i] < picks[j])
    && ix.lastPos == if picks == [] then 0 else ms[picks[|picks| - 1]].pos
  }

  lemma {:induction false} BuildMirrors(interval: int, ms: seq<Mark>)
    ensures Mirrors(Build(interval, ms), Picked(interval, ms), ms)
  {
    if ms != [] {
      BuildMirrors(interval, ms[..|ms| - 1]);
    }
  }

  lemma {:induction false} BuildSorted(interval: int, ms: seq<Mark>)
    requires Increasing(ms)
    ensures Sorted(Build(interval, ms).entries)
  {
    BuildMirrors(interval, ms);
  }

  /** A mark that fits 32 bits is picked, or lies near an earlier picked one
      after which nothing up to it was picked. */
  lemma {:induction false} PickedNear(interval: int, ms: seq<Mark>, j: nat) returns (i: nat)
    requires Increasing(ms) && j < |ms| && interval > 0 && ms[j].Fits()
    ensures i < |Picked(interval, ms)| && Picked(interval, ms)[i] <= j
    ensures ms[j].pos - ms[Picked(interval, ms)[i]].pos < interval
    ensures forall k :: i < k < |Picked(interval, ms)| ==> Picked(interval, ms)[k] > j
  {
    var init := ms[..|ms| - 1];
    BuildMirrors(interval, ms);
    BuildMirrors(interval, init);
    if j < |init| {
      i := PickedNear(interval, init, j);
    } else {
      i := |Picked(interval, ms)| - 1;
    }
  }

  /** The index is sparse: entries are at least one interval of bytes apart. */
  lemma {:induction false} EntriesApart(interval: int, ms: seq<Mark>, i: nat)
    requires i + 1 < |Build(interval, ms).entries|
    ensures Build(interval, ms).entries[i + 1].pos - Build(interval, ms).entries[i].pos >= interval
  {
    var init := ms[..|ms| - 1];
    BuildMirrors(interval, init);
    if i + 1 < |Build(interval, init).entries| {
      EntriesApart(interval, init, i);
    }
  }

  /** Looking up any relative offset that a batch j covers lands on the start
      of batch j or an earlier one, even after truncation to 32 bits; and when
      nothing is truncated, fewer than `interval` bytes before batch j. */
  lemma LookupIsSafe(interval: int, ms: seq<Mark>, target: int, j: nat) returns (k: nat)
    requires Increasing(ms) && j < |ms|
    requires ms[0].rel == 0 && ms[0].pos == 0
    requires ms[j].rel <= target && (j + 1 < |ms| ==> target < ms[j + 1].rel)
    ensures k <= j
    ensures HitPos(Build(interval, ms).entries, target % UINT32) == ms[k].pos
    ensures interval > 0 && target < UINT32 && ms[j].pos < UINT32 ==> ms[j].pos - ms[k].pos < interval
  {
    BuildMirrors(interval, ms);
    var i := 0;
    if interval > 0 && target < UINT32 && ms[j].pos < UINT32 {
      i := PickedNear(interval, ms, j);
    }
    k := MirrorLookup(interval, Build(interval, ms), Picked(interval, ms), ms, target, j, i);
  }

  lemma MirrorLookup(interval: int, ix: State, picks: seq<nat>, ms: seq<Mark>, target: int, j: nat, i: nat)
    returns (k: nat)
    requires Increasing(ms) && j < |ms| && Mirrors(ix, picks, ms)
    requires ms[0].rel == 0 && ms[0].pos == 0
    requires ms[j].rel <= target && (j + 1 < |ms| ==> target < ms[j + 1].rel)
    requires interval > 0 && target < UINT32 && ms[j].pos < UINT32 ==>
               && i < |picks| && picks[i] <= j && ms[j].pos - ms[picks[i]].pos < interval
               && forall l :: i < l < |picks| ==> picks[l] > j
    ensures k <= j && HitPos(ix.entries, target % UINT32) == ms[k].pos
    ensures interval > 0 && target < UINT32 && ms[j].pos < UINT32 ==> ms[j].pos - ms[k].pos < interval
  {
    var n;
    n, k := LookupLands(ix, picks, ms, target, j);
    if interval > 0 && target < UINT32 && ms[j].pos < UINT32 {
      NearIsHit(ix, picks, ms, target, j, i, n);
    }
  }

  lemma LookupLands(ix: State, picks: seq<nat>, ms: seq<Mark>, target: int, j: nat) returns (n: nat, k: nat)
    requires Increasing(ms) && j < |ms| && Mirrors(ix, picks, ms)
    requires ms[0].rel == 0 && ms[0].pos == 0
    requires ms[j].rel <= target && (j + 1 < |ms| ==> target < ms[j + 1].rel)
    ensures k <= j && HitPos(ix.entries, target % UINT32) == ms[k].pos
    ensures n <= |picks| && k == if n == 0 then 0 else picks[n - 1]
    ensures n > 0 ==> ix.entries[n - 1].rel <= target % UINT32
    ensures forall l :: n <= l < |picks| ==> ix.entries[l].rel > target % UINT32
  {
    n := HitCount(ix.entries, target % UINT32);
    k := if n == 0 then 0 else picks[n - 1];
    assert target % UINT32 <= target;
  }

  lemma HitCount(entries: seq<Entry>, t: int) returns (n: nat)
    ensures n <= |entries|
    ensures HitPos(entries, t) == if n == 0 then 0 else entries[n - 1].pos
    ensures n > 0 ==> entries[n - 1].rel <= t
    ensures forall i :: n <= i < |entries| ==> entries[i].rel > t
  {
    n := |entries|;
    while n > 0 && entries[n - 1].rel > t
      invariant 0 <= n <= |entries|
      invariant forall i :: n <= i < |entries| ==> entries[i].rel > t
    {
      n := n - 1;
    }
    HitPosAt(entries, t, n);
  }

  /** The last pick up to batch j is the entry an untruncated lookup finds. */
  lemma NearIsHit(ix: State, picks: seq<nat>, ms: seq<Mark>, t: int, j: nat, i: nat, n: nat)
    requires Increasing(ms) && j < |ms| && Mirrors(ix, picks, ms)
    requires ms[j].rel <= t && (j + 1 < |ms| ==> t < ms[j + 1].rel)
    requires i < |picks| && picks[i] <= j && forall l :: i < l < |picks| ==> picks[l] > j
    requires n <= |picks| && (n > 0 ==> ix.entries[n - 1].rel <= t)
    requires forall l :: n <= l < |picks| ==> ix.entries[l].rel > t
    ensures n == i + 1
  {
    assert ix.entries[i].rel == ms[picks[i]].rel <= t;
  }

  // ---- the timestamp index ----------------------------------------------------

  datatype TimeEntry = TimeEntry(ts: int, rel: int)
  datatype TimeState = TimeState(entries: seq<TimeEntry>, lastPos: int, lastTS: int)

  const TIME_EMPTY := TimeState([], 0, 0)

  function TimeOffer(tx: TimeState, interval: int, m: Mark): TimeState {
    if m.pos - tx.lastPos < interval && |tx.entries| > 0 then tx
    else
      var ts := if m.ts <= tx.lastTS && |tx.entries| > 0 then tx.lastTS + 1 else m.ts;
      if !(0 <= m.rel < UINT32) then tx
      else TimeState(tx.entries + [TimeEntry(ts, m.rel)], m.pos, ts)
  }

  function TimeBuild(interval: int, ms: seq<Mark>): TimeState {
    if ms == [] then TIME_EMPTY
    else TimeOffer(TimeBuild(interval, ms[..|ms| - 1]), interval, ms[|ms| - 1])
  }

  /** The timestamp of an entry is that of its batch or, if the entry before has reached that, one
      more than the one before. */
  ghost predicate Timed(tx: TimeState, ms: seq<Mark>, i: nat)
    requires i < |tx.entries|
  {
    exists m :: m in ms && m.rel == tx.entries[i].rel &&
      tx.entries[i].ts == if i > 0 && m.ts <= tx.entries[i - 1].ts then tx.entries[i - 1].ts + 1 else m.ts
  }

  /** So they strictly increase, whatever those of the batches do. */
  lemma {:induction false} TimesIncrease(interval: int, ms: seq<Mark>)
    ensures var tx := TimeBuild(interval, ms);
            && (forall i, j :: 0 <= i < j < |tx.entries| ==> tx.entries[i].ts < tx.entries[j].ts)
            && (tx.entries != [] ==> tx.lastTS == tx.entries[|tx.entries| - 1].ts)
            && (forall i :: 0 <= i < |tx.entries| ==> Timed(tx, ms, i))
  {
    if ms != [] {
      var init, m := ms[..|ms| - 1], ms[|ms| - 1];
      TimesIncrease(interval, init);
      var was, tx := TimeBuild(interval, init), TimeBuild(interval, ms);
      forall i | 0 <= i < |tx.entries|
        ensures Timed(tx, ms, i)
      {
        if i < |was.entries| {
          assert Timed(was, init, i);
          var x :| x in init && x.rel == was.entries[i].rel && was.entries[i].ts
            == if i > 0 && x.ts <= was.entries[i - 1].ts then was.entries[i - 1].ts + 1 else x.ts;
          assert x in ms;
        } else {
          assert m in ms;
        }
      }
    }
  }

  lemma {:induction false} LastTimed(interval: int, ms: seq<Mark>) returns (k: nat)
    requires TimeBuild(interval, ms).entries != []
    ensures var tx := TimeBuild(interval, ms);
            && k < |ms| && tx.lastPos == ms[k].pos
            && tx.entries[|tx.entries| - 1].rel == ms[k].rel && ms[k].ts <= tx.entries[|tx.entries| - 1].ts
  {
    var init := ms[..|ms| - 1];
    if TimeBuild(interval, ms).entries == TimeBuild(interval, init).entries {
      k := LastTimed(interval, init);
    } else {
      k := |ms| - 1;
    }
  }

  /** Every batch whose relative offset fits 32 bits has an entry, or lies less than one interval
      behind one that has. */
  lemma {:induction false} TimesNear(interval: int, ms: seq<Mark>, j: nat) returns (i: nat, k: nat)
    requires j < |ms| && interval > 0 && 0 <= ms[j].rel < UINT32
    ensures var tx := TimeBuild(interval, ms);
            && i < |tx.entries| && k <= j && ms[j].pos - ms[k].pos < interval
            && tx.entries[i].rel == ms[k].rel && ms[k].ts <= tx.entries[i].ts
  {
    var init := ms[..|ms| - 1];
    var was, tx := TimeBuild(interval, init), TimeBuild(interval, ms);
    if j < |init| {
      i, k := TimesNear(interval, init, j);
    } else if tx.entries == was.entries {
      i := |was.entries| - 1;
      k := LastTimed(interval, init);
    } else {
      i, k := |was.entries|, j;
    }
  }

  /** This index is as sparse: the batches of successive entries are an interval of bytes apart. */
  lemma {:induction false} TimesApart(interval: int, ms: seq<Mark>, i: nat) returns (k: nat, l: nat)
    requires i + 1 < |TimeBuild(interval, ms).entries|
    ensures var tx := TimeBuild(interval, ms);
            && k < l < |ms| && ms[l].pos - ms[k].pos >= interval
            && tx.entries[i].rel == ms[k].rel && tx.entries[i + 1].rel == ms[l].rel
  {
    var init := ms[..|ms| - 1];
    if i + 1 < |TimeBuild(interval, init).entries| {
      k, l := TimesApart(interval, init, i);
    } else {
      k := LastTimed(interval, init);
      l := |ms| - 1;
    }
  }

  class TimeIndex {
    var entries: seq<TimeEntry>
    var lastIndexedPos: int
    var lastTS: int
    const interval: int

    ghost function View(): TimeState
      reads this
    {
      TimeState(entries, lastIndexedPos, lastTS)
    }

    /** OpenTimeIndex: unlike the offset index, loading leaves lastIndexedPos at zero. */
    constructor (interval: int, loaded: seq<TimeEntry>)
      ensures this.interval == interval
      ensures View() == TimeState(loaded, 0, if loaded == [] then 0 else loaded[|loaded| - 1].ts)
    {
      this.interval := interval;
      entries, lastIndexedPos := loaded, 0;
      lastTS := if loaded == [] then 0 else loaded[|loaded| - 1].ts;
    }

    method MaybeAppend(ts: int, relOffset: int, position: int)
      modifies this
      ensures View() == TimeOffer(old(View()), interval, Mark(relOffset, position, ts))
    {
      if position - lastIndexedPos < interval && |entries| > 0 {
        return;
      }
      var t := ts;
      if t <= lastTS && |entries| > 0 {
        t := lastTS + 1;
      }
      if relOffset < 0 || relOffset > 0xFFFF_FFFF {
        return;
      }
      entries := entries + [TimeEntry(t, relOffset)];
      lastIndexedPos := position;
      lastTS := t;
    }

    method Reset()
      modifies this
      ensures View() == TIME_EMPTY
    {
      entries, lastIndexedPos, lastTS := [], 0, 0;
    }
  }
}
