/** Reading through the broker: the local log first, the archive for what it no longer has. */
module TieredFetch {
  import opened Record
  import opened Framing
  import opened Offsets
  import opened Layout
  import opened Segments
  import opened LogModel
  import opened Fetching
  import opened Options
  import opened ObjectStore
  import opened Manifests
  import opened Consumer
  import opened ColdTier
  import A = Archive

  /** What the archive has for an offset: the first entry that covers it leads to an object,
      which is served only if its bytes have the recorded digest. */
  function FromArchive(sha: Hash, list: seq<Entry>, objects: map<Key, Object>, home: Key, offset: int,
                       maxBytes: nat): FetchOutcome {
    match Hit(list, home.topic, home.partition, offset)
    case None => OutOfRange
    case Some(e) =>
      if e.key !in objects || e.sha != Some(sha(objects[e.key].data)) then OutOfRange
      else ArchiveOutcome(Seg(e.key.base, ReadAll(Scan(Any, objects[e.key].data))), offset, maxBytes)
  }

  /** A fetch: whatever goes wrong in the archive, the answer is that of the local log. */
  function BrokerFetch(c: A.Config, t: Tier, offset: int, maxBytes: nat): FetchOutcome
    requires t.gone < |t.segs|
  {
    var answer := LogFetch(Local(t), offset, maxBytes);
    if answer != OutOfRange then answer
    else
      var archived := FromArchive(c.sha, t.cold.mem, t.cold.objects, t.home, offset, maxBytes);
      if archived.Fetched? then archived else OutOfRange
  }

  /** Whatever is in the manifest and in the store, only an object with the digest recorded for it
      is served. */
  lemma {:induction false} ServesOnlyVerified(sha: Hash, list: seq<Entry>, objects: map<Key, Object>, home: Key,
                                              offset: int, maxBytes: nat)
    requires FromArchive(sha, list, objects, home, offset, maxBytes).Fetched?
    ensures exists e :: e in list && e.key.topic == home.topic && e.key.partition == home.partition
                        && e.key.base <= offset < e.next
                        && e.key in objects && e.sha == Some(sha(objects[e.key].data))
  {
    var e := Hit(list, home.topic, home.partition, offset).value;
    assert Covers(e, home.topic, home.partition, offset);
  }

  // ---- what is stored reads back ---------------------------------------------------------------

  /** A segment's file scans back to the segment. */
  lemma {:induction false} FileReads(ok: Test, s: Seg)
    requires AllIntact(ok, s.batches)
    ensures Seg(s.base, ReadAll(Scan(Any, s.File()))) == s
  {
    IntactAny(ok, s.batches);
    IntactReads(Any, s.batches);
    ScanOfJoin(Any, Raws(s.batches));
  }

  // ---- finding the archived segment ---------------------------------------------------------------

  /** The entry found for an offset of an archived segment is that segment's. */
  lemma {:induction false} HitIsRight(c: A.Config, all: A.Pieces, a: A.State, k: Key, offset: int)
    requires A.Apart(all) && A.EntriesRight(c, all, a.objects, a.mem) && k in all
    requires Lookup(a.mem, k).Some? && k.base <= offset < all[k].next
    ensures var r := Hit(a.mem, k.topic, k.partition, offset);
            r.Some? && r.value.key == k && A.EntryRight(c, all, a.objects, r.value)
  {
    var own := Lookup(a.mem, k).value;
    assert A.EntryRight(c, all, a.objects, own);
    var r := Hit(a.mem, k.topic, k.partition, offset);
    assert Covers(own, k.topic, k.partition, offset);
    assert A.EntryRight(c, all, a.objects, r.value);
  }

  /** The segments on local disk answer for the offsets they have as the whole log would. */
  lemma {:induction false} LocalAgrees(segs: seq<Seg>, n: nat, offset: int, maxBytes: nat)
    requires Chain(segs) && n < |segs| && segs[n].base <= offset
    ensures LogFetch(segs[n..], offset, maxBytes) == LogFetch(segs, offset, maxBytes)
  {
    ChainTail(segs, n);
    if n > 0 {
      ChainOrder(segs, 0, n);
    }
    assert Last(segs[n..]) == Last(segs);
    if offset < Hwm(segs) {
      SegAtLocal(segs, n, offset);
    }
  }

  lemma {:induction false} SegAtLocal(segs: seq<Seg>, n: nat, offset: int)
    requires Chain(segs) && n < |segs| && segs[0].base <= segs[n].base <= offset < Hwm(segs)
    ensures SegAt(segs, offset) == n + SegAt(segs[n..], offset)
    decreases n
  {
    if n > 0 {
      if n > 1 {
        ChainOrder(segs, 1, n);
      }
      SegAtLocal(segs[1..], n - 1, offset);
      assert segs[1..][n - 1..] == segs[n..];
    } else {
      assert segs[0..] == segs;
    }
  }

  lemma {:induction false} WholeLogAt(segs: seq<Seg>, i: nat, offset: int, maxBytes: nat)
    requires Chain(segs) && i < |segs| - 1 && segs[i].base <= offset < segs[i].Next()
    ensures BatchAt(segs[i].batches, offset) < |segs[i].batches|
    ensures LogFetch(segs, offset, maxBytes) == SegFetch(segs[i], offset, maxBytes)
  {
    ChainOrder(segs, i, |segs| - 1);
    if i > 0 {
      ChainOrder(segs, 0, i);
    }
    ChainNext(segs, i);
    ChainOrdered(segs);
    SegAtIs(segs, offset, i);
    SegAtHolds(segs, offset);
  }

  // ---- what the archive answers --------------------------------------------------------------------

  /** The manifest has an entry for segment i. */
  predicate InManifest(t: Tier, i: nat)
    requires i < |t.segs|
  {
    Lookup(t.cold.mem, At(t.home, t.segs[i].base)).Some?
  }

  /** An entry found for an offset is that of the sealed segment which holds it. */
  lemma {:induction false} HitMeans(c: A.Config, t: Tier, offset: int) returns (i: nat)
    requires Inv(c, t) && Hit(t.cold.mem, t.home.topic, t.home.partition, offset).Some?
    ensures i < |t.segs| - 1 && t.segs[i].base <= offset < t.segs[i].Next() && InManifest(t, i)
  {
    var all, e := SealedPieces(t.home, t.segs), Hit(t.cold.mem, t.home.topic, t.home.partition, offset).value;
    assert A.EntryRight(c, all, t.cold.objects, e);
    i := SealedFrom(t.home, t.segs, e.key);
    A.KeysAre(t.cold.mem, e.key);
  }

  lemma {:induction false} FromArchiveIs(c: A.Config, t: Tier, i: nat, offset: int, maxBytes: nat)
    requires Inv(c, t) && SegsIntact(CrcTest(c.crc), t.segs)
    requires i < |t.segs| - 1 && t.segs[i].base <= offset < t.segs[i].Next()
    ensures FromArchive(c.sha, t.cold.mem, t.cold.objects, t.home, offset, maxBytes)
            == if InManifest(t, i) then ArchiveOutcome(t.segs[i], offset, maxBytes) else OutOfRange
  {
    var all, k := SealedPieces(t.home, t.segs), At(t.home, t.segs[i].base);
    if InManifest(t, i) {
      SealedAt(t.home, t.segs, i);
      HitIsRight(c, all, t.cold, k, offset);
      FileReads(CrcTest(c.crc), t.segs[i]);
    } else if Hit(t.cold.mem, t.home.topic, t.home.partition, offset).Some? {
      var j := HitMeans(c, t, offset);
      OneHolder(t.segs, i, j, offset);
    }
  }

  /** No two segments of a chain hold an offset. */
  lemma {:induction false} OneHolder(segs: seq<Seg>, i: nat, j: nat, offset: int)
    requires Chain(segs) && i < |segs| && j < |segs|
    requires segs[i].base <= offset < segs[i].Next() && segs[j].base <= offset < segs[j].Next()
    ensures i == j
  {
    if i < j {
      ChainOrder(segs, i, j);
    } else if j < i {
      ChainOrder(segs, j, i);
    }
  }

  /** A segment deleted locally: a fetch answers just as if the log had kept it exactly when
      the manifest lists it and the byte budget can hold a batch header, and is out of range
      otherwise. */
  lemma {:induction false} ArchivedFetch(c: A.Config, t: Tier, i: nat, offset: int, maxBytes: nat)
    requires Inv(c, t) && SegsIntact(CrcTest(c.crc), t.segs)
    requires i < t.gone && t.segs[i].base <= offset < t.segs[i].Next()
    ensures var read := InManifest(t, i) && maxBytes >= HEADER_SIZE;
            && (BrokerFetch(c, t, offset, maxBytes) == LogFetch(t.segs, offset, maxBytes) <==> read)
            && (!read ==> BrokerFetch(c, t, offset, maxBytes) == OutOfRange)
  {
    ChainOrder(t.segs, i, t.gone);
    LocalMisses(t.segs, t.gone, offset, maxBytes);
    WholeLogAt(t.segs, i, offset, maxBytes);
    FromArchiveIs(c, t, i, offset, maxBytes);
    ServedWhen(t.segs[i], offset, maxBytes);
  }

  /** Offsets before the first local segment are not the local log's to answer. */
  lemma {:induction false} LocalMisses(segs: seq<Seg>, n: nat, offset: int, maxBytes: nat)
    requires Chain(segs) && n < |segs| && offset < segs[n].base
    ensures LogFetch(segs[n..], offset, maxBytes) == OutOfRange
  {
    ChainLast(segs);
    if n < |segs| - 1 {
      ChainOrder(segs, n, |segs| - 1);
    }
    assert Last(segs[n..]) == Last(segs);
  }

  lemma {:induction false} ServedWhen(s: Seg, offset: int, maxBytes: nat)
    requires BatchAt(s.batches, offset) < |s.batches|
    ensures ArchiveOutcome(s, offset, maxBytes).Fetched? <==> maxBytes >= HEADER_SIZE
    ensures maxBytes >= HEADER_SIZE ==> ArchiveOutcome(s, offset, maxBytes) == SegFetch(s, offset, maxBytes)
    ensures SegFetch(s, offset, maxBytes) != OutOfRange
  {
  }

  // ---- tiering is transparent ------------------------------------------------------------------------

  /** If the segment that holds the offset was deleted locally, the manifest lists it and the
      byte budget can hold a batch header. */
  ghost predicate Reads(t: Tier, offset: int, maxBytes: nat)
    requires t.gone <= |t.segs|
  {
    forall i :: 0 <= i < t.gone && t.segs[i].base <= offset < t.segs[i].Next() ==>
      InManifest(t, i) && maxBytes >= HEADER_SIZE
  }

  /** That is exactly when fetching from the tiers is fetching from a log that never deleted
      anything; otherwise the offset is out of range. */
  lemma {:induction false} TieringIsTransparent(c: A.Config, t: Tier, offset: int, maxBytes: nat)
    requires Inv(c, t) && SegsIntact(CrcTest(c.crc), t.segs)
    ensures BrokerFetch(c, t, offset, maxBytes) == LogFetch(t.segs, offset, maxBytes) <==> Reads(t, offset, maxBytes)
    ensures !Reads(t, offset, maxBytes) ==> BrokerFetch(c, t, offset, maxBytes) == OutOfRange
  {
    if offset >= t.segs[t.gone].base {
      LocalReads(c, t, offset, maxBytes);
    } else if offset >= 0 {
      var i := LocateGone(t, offset);
      ArchivedFetch(c, t, i, offset, maxBytes);
      OnlyOneRead(t, i, offset, maxBytes);
    } else {
      NegativeOffset(c, t, offset, maxBytes);
    }
  }

  lemma {:induction false} LocalReads(c: A.Config, t: Tier, offset: int, maxBytes: nat)
    requires Logged(t) && t.segs[t.gone].base <= offset
    ensures BrokerFetch(c, t, offset, maxBytes) == LogFetch(t.segs, offset, maxBytes) && Reads(t, offset, maxBytes)
  {
    LocalAgrees(t.segs, t.gone, offset, maxBytes);
    NoneBefore(t.segs, t.gone, offset);
  }

  lemma {:induction false} OnlyOneRead(t: Tier, i: nat, offset: int, maxBytes: nat)
    requires Logged(t) && i < t.gone && t.segs[i].base <= offset < t.segs[i].Next()
    ensures Reads(t, offset, maxBytes) <==> InManifest(t, i) && maxBytes >= HEADER_SIZE
  {
    forall j | 0 <= j < t.gone && t.segs[j].base <= offset < t.segs[j].Next()
      ensures j == i
    {
      OneHolder(t.segs, i, j, offset);
    }
  }

  lemma {:induction false} NoneBefore(segs: seq<Seg>, n: nat, offset: int)
    requires Chain(segs) && n < |segs| && segs[n].base <= offset
    ensures forall i :: 0 <= i < n ==> segs[i].Next() <= offset
  {
    forall i | 0 <= i < n
      ensures segs[i].Next() <= offset
    {
      ChainOrder(segs, i, n);
    }
  }

  lemma {:induction false} LocateGone(t: Tier, offset: int) returns (i: nat)
    requires Logged(t) && 0 <= offset < t.segs[t.gone].base
    ensures i < t.gone && t.segs[i].base <= offset < t.segs[i].Next()
  {
    ChainLast(t.segs);
    if t.gone < |t.segs| - 1 {
      ChainOrder(t.segs, t.gone, |t.segs| - 1);
    }
    i := Locate(t.segs, offset);
    if t.gone < i {
      ChainOrder(t.segs, t.gone, i);
    }
  }

  lemma {:induction false} NegativeOffset(c: A.Config, t: Tier, offset: int, maxBytes: nat)
    requires Inv(c, t) && offset < 0
    ensures BrokerFetch(c, t, offset, maxBytes) == LogFetch(t.segs, offset, maxBytes) == OutOfRange
    ensures Reads(t, offset, maxBytes)
  {
    assert forall i :: 0 < i < |t.segs| ==> t.segs[i].base >= 0 by {
      forall i | 0 < i < |t.segs|
        ensures t.segs[i].base >= 0
      {
        ChainOrder(t.segs, 0, i);
      }
    }
    LocalMisses(t.segs, t.gone, offset, maxBytes);
    LocalMisses(t.segs, 0, offset, maxBytes);
    assert t.segs[0..] == t.segs;
    if Hit(t.cold.mem, t.home.topic, t.home.partition, offset).Some? {
      var i := HitMeans(c, t, offset);
    }
  }

  // ---- in every run ----------------------------------------------------------------------------------

  /** A deleted segment that is not checkpointed is listed. */
  lemma {:induction false} SettledIsListed(c: A.Config, t: Tier, i: nat)
    requires Inv(c, t) && i < t.gone && At(t.home, t.segs[i].base) !in t.cold.memPending
    ensures InManifest(t, i)
  {
    SealedAt(t.home, t.segs, i);
    KeysAt(t.home, t.segs[..t.gone], i);
    CoveredMeans(c, SealedPieces(t.home, t.segs), Keys(t.home, t.segs[..t.gone]), t.cold, At(t.home, t.segs[i].base));
  }

  /** After any run with uploads one at a time and no other topic deleted, a fetch answers as a
      log would that never deleted a segment if and only if the segment that holds the offset
      is local, or listed with a budget for a batch header. With every checkpoint settled, that
      is at every offset. */
  lemma {:induction false} RunsReadThrough(c: A.Config, home: Key, objects: map<Key, Object>, acts: seq<Act>,
                                           maxBytes: int, offset: int, budget: nat)
    requires Sequential(c) && Honest(c, objects) && CanRun(c, Fresh(home, objects), acts, maxBytes)
    ensures var t := Run(c, Fresh(home, objects), acts, maxBytes);
            && t.gone < |t.segs|
            && (BrokerFetch(c, t, offset, budget) == LogFetch(t.segs, offset, budget) <==> Reads(t, offset, budget))
            && (!Reads(t, offset, budget) ==> BrokerFetch(c, t, offset, budget) == OutOfRange)
            && (t.cold.memPending == map[] && budget >= HEADER_SIZE ==> Reads(t, offset, budget))
  {
    var start := Fresh(home, objects);
    var t := Run(c, start, acts, maxBytes);
    FreshInv(c, home, objects);
    RunKeeps(c, start, acts, maxBytes);
    TieringIsTransparent(c, t, offset, budget);
    if t.cold.memPending == map[] {
      forall i | 0 <= i < t.gone
        ensures InManifest(t, i)
      {
        SettledIsListed(c, t, i);
      }
    }
  }
}
