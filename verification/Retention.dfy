/** The retention reaper: which sealed segments one sweep removes. */
module Retention {
  import opened Segments
  import opened LogModel
  import opened Logs

  /** A sealed segment as the sweep sees it: end offset, size, age in milliseconds,
      and whether the archive holds it (always true with cold storage off). */
  datatype Item = Item(next: int, size: nat, age: int, archived: bool)

  datatype Config = Config(retentionMs: int, retentionBytes: int)

  // ---- the three prefixes --------------------------------------------------------

  /** Leading segments the archive holds. */
  function ArchivedPrefix(items: seq<Item>): (n: nat)
    ensures n <= |items|
    ensures forall i :: 0 <= i < n ==> items[i].archived
    ensures n < |items| ==> !items[n].archived
  {
    if items == [] || !items[0].archived then 0 else 1 + ArchivedPrefix(items[1..])
  }

  /** Leading segments past the age cap. */
  function ExpiredPrefix(items: seq<Item>, ms: int): (n: nat)
    ensures n <= |items|
  {
    if items == [] || ms <= 0 || items[0].age <= ms then 0 else 1 + ExpiredPrefix(items[1..], ms)
  }

  /** All before the end of that prefix are older than the cap, the one at its end is not; without
      a cap it is empty. */
  lemma {:induction false} ExpiredAre(items: seq<Item>, ms: int)
    ensures ms <= 0 ==> ExpiredPrefix(items, ms) == 0
    ensures forall k :: 0 <= k < ExpiredPrefix(items, ms) ==> items[k].age > ms
    ensures ms > 0 && ExpiredPrefix(items, ms) < |items| ==> items[ExpiredPrefix(items, ms)].age <= ms
  {
    if items != [] && ms > 0 && items[0].age > ms {
      ExpiredAre(items[1..], ms);
    }
  }

  /** The fewest leading segments whose removal brings `total` down to the cap. */
  function OversizePrefix(items: seq<Item>, total: int, cap: int): (n: nat)
    ensures n <= |items|
  {
    if items == [] || cap <= 0 || total <= cap then 0
    else 1 + OversizePrefix(items[1..], total - items[0].size, cap)
  }

  function TotalSize(items: seq<Item>): nat {
    if items == [] then 0 else items[0].size + TotalSize(items[1..])
  }

  lemma {:induction false} OversizeIsFewest(items: seq<Item>, total: int, cap: int, k: nat)
    requires cap > 0 && k <= |items|
    ensures k < OversizePrefix(items, total, cap) ==> total - TotalSize(items[..k]) > cap
    ensures k == OversizePrefix(items, total, cap) < |items| ==> total - TotalSize(items[..k]) <= cap
  {
    if k == 0 {
      assert items[..0] == [];
    } else {
      assert items[..k][1..] == items[1..][..k - 1];
      if total > cap {
        OversizeIsFewest(items[1..], total - items[0].size, cap, k - 1);
      }
    }
  }

  /** How many leading segments a sweep is after: the longer of the expired and the
      oversize prefix, both cut at the first segment the archive does not hold. */
  function Due(items: seq<Item>, active: nat, cfg: Config): (n: nat)
    ensures n <= ArchivedPrefix(items)
  {
    var held := items[..ArchivedPrefix(items)];
    var expired := ExpiredPrefix(held, cfg.retentionMs);
    var oversize := OversizePrefix(held, TotalSize(items) + active, cfg.retentionBytes);
    if expired >= oversize then expired else oversize
  }

  // ---- who goes --------------------------------------------------------------------------

  function Sum(sizes: seq<nat>): nat {
    if sizes == [] then 0 else sizes[0] + Sum(sizes[1..])
  }

  /** Segment i goes: it and all before it are archived, and either all of them are older than
      the age cap, or what is left after those before it is more than the size cap. */
  ghost predicate Goes(ages: seq<int>, archived: seq<bool>, sizes: seq<nat>, active: nat, cfg: Config, i: nat)
    requires |ages| == |archived| == |sizes| && i < |sizes|
  {
    && (forall k :: 0 <= k <= i ==> archived[k])
    && (|| (cfg.retentionMs > 0 && forall k :: 0 <= k <= i ==> ages[k] > cfg.retentionMs)
        || (cfg.retentionBytes > 0 && Sum(sizes) + active - Sum(sizes[..i]) > cfg.retentionBytes))
  }

  /** The items are these segments. */
  ghost predicate Lists(items: seq<Item>, ages: seq<int>, archived: seq<bool>, sizes: seq<nat>) {
    && |items| == |ages| == |archived| == |sizes|
    && forall i :: 0 <= i < |items| ==>
         items[i].age == ages[i] && items[i].archived == archived[i] && items[i].size == sizes[i]
  }

  lemma {:induction false} TotalIsSum(items: seq<Item>, sizes: seq<nat>)
    requires |items| == |sizes| && forall i :: 0 <= i < |items| ==> items[i].size == sizes[i]
    ensures TotalSize(items) == Sum(sizes)
  {
    if items != [] {
      TotalIsSum(items[1..], sizes[1..]);
    }
  }

  /** A sweep is after exactly those. */
  lemma {:induction false} DueAre(items: seq<Item>, active: nat, cfg: Config, ages: seq<int>, archived: seq<bool>,
                                  sizes: seq<nat>, i: nat)
    requires Lists(items, ages, archived, sizes) && i < |items|
    ensures i < Due(items, active, cfg) <==> Goes(ages, archived, sizes, active, cfg, i)
  {
    var n := ArchivedPrefix(items);
    var held := items[..n];
    if i >= n {
      assert !archived[n];
    } else {
      ExpiredAre(held, cfg.retentionMs);
      AllOlder(held, cfg.retentionMs, ages, i);
      TotalIsSum(items, sizes);
      assert held[..i] == items[..i];
      TotalIsSum(items[..i], sizes[..i]);
      OversizeAre(held, TotalSize(items) + active, cfg.retentionBytes, i);
    }
  }

  lemma {:induction false} AllOlder(held: seq<Item>, ms: int, ages: seq<int>, i: nat)
    requires |held| <= |ages| && i < |held| && forall k :: 0 <= k < |held| ==> held[k].age == ages[k]
    ensures i < ExpiredPrefix(held, ms) <==> ms > 0 && forall k :: 0 <= k <= i ==> ages[k] > ms
  {
    ExpiredAre(held, ms);
  }

  /** The fewest segments: what is left before each of them is over the cap, and no more so
      from the first that stays on. */
  lemma {:induction false} OversizeAre(items: seq<Item>, total: int, cap: int, i: nat)
    requires i < |items|
    ensures i < OversizePrefix(items, total, cap) <==> cap > 0 && total - TotalSize(items[..i]) > cap
  {
    if cap > 0 && total > cap {
      if i == 0 {
        assert items[..0] == [];
      } else {
        OversizeAre(items[1..], total - items[0].size, cap, i - 1);
        assert items[..i][1..] == items[1..][..i - 1];
      }
    }
  }

  /** End offsets do not decrease from one segment to the next, and none is negative. */
  ghost predicate InOrder(items: seq<Item>) {
    && (forall i :: 0 <= i < |items| ==> 0 <= items[i].next)
    && (forall i, j :: 0 <= i < j < |items| ==> items[i].next <= items[j].next)
  }

  // ---- the sweep's own loops ---------------------------------------------------------

  /** The offset a sweep deletes up to: the end of the last segment due, or -1. */
  method Cutoff(items: seq<Item>, active: nat, cfg: Config) returns (cutoff: int)
    requires InOrder(items)
    ensures cutoff == if Due(items, active, cfg) == 0 then -1 else items[Due(items, active, cfg) - 1].next
  {
    var deletable := CountArchived(items);
    ghost var held := items[..deletable];
    cutoff := -1;
    ghost var expired := ExpiredPrefix(held, cfg.retentionMs);
    var i := 0;
    assert held[0..] == held;
    while i < deletable
      invariant 0 <= i <= deletable
      invariant i + ExpiredPrefix(held[i..], cfg.retentionMs) == expired
      invariant cutoff == if i == 0 then -1 else items[i - 1].next
    {
      if cfg.retentionMs <= 0 || items[i].age <= cfg.retentionMs {
        break;
      }
      cutoff := items[i].next;
      i := i + 1;
    }
    if cfg.retentionBytes > 0 {
      var total := SumSizes(items);
      cutoff := ExtendBySize(items, deletable, total + active, cfg.retentionBytes, cutoff, expired);
    }
  }

  method CountArchived(items: seq<Item>) returns (n: nat)
    ensures n == ArchivedPrefix(items)
  {
    n := 0;
    assert items[0..] == items;
    while n < |items|
      invariant n <= |items| && n + ArchivedPrefix(items[n..]) == ArchivedPrefix(items)
    {
      if !items[n].archived {
        return;
      }
      n := n + 1;
    }
  }

  method SumSizes(items: seq<Item>) returns (total: nat)
    ensures total == TotalSize(items)
  {
    total := 0;
    assert items[0..] == items;
    for i := 0 to |items|
      invariant total + TotalSize(items[i..]) == TotalSize(items)
    {
      total := total + items[i].size;
    }
  }

  /** Either rule may delete a segment, so the cutoff that reaches further stands. */
  method ExtendBySize(items: seq<Item>, deletable: nat, total: int, cap: int, start: int, ghost expired: nat)
    returns (cutoff: int)
    requires InOrder(items) && expired <= deletable <= |items| && cap > 0
    requires start == if expired == 0 then -1 else items[expired - 1].next
    ensures var n := OversizePrefix(items[..deletable], total, cap); var k := if expired >= n then expired else n;
            cutoff == if k == 0 then -1 else items[k - 1].next
  {
    ghost var held := items[..deletable];
    var rest := total;
    cutoff := start;
    var i := 0;
    assert held[0..] == held;
    while rest > cap && i < deletable
      invariant 0 <= i <= deletable
      invariant i + OversizePrefix(held[i..], rest, cap) == OversizePrefix(held, total, cap)
      invariant var k := if expired >= i then expired else i; cutoff == if k == 0 then -1 else items[k - 1].next
    {
      rest := rest - items[i].size;
      if items[i].next > cutoff {
        cutoff := items[i].next;
      }
      i := i + 1;
    }
  }

  // ---- the sweep on a log -----------------------------------------------------------

  lemma {:induction false} DeletedBegins(segs: seq<Seg>, cutoff: int, i: nat)
    requires segs != [] && i < DeleteCount(segs, cutoff)
    ensures segs[i + 1].base <= cutoff
  {
    if i > 0 {
      DeletedBegins(segs[1..], cutoff, i - 1);
    }
  }

  /** Deleting up to the end of segment k - 1 never reaches segment k, whatever
      gaps there are; without gaps it removes exactly the first k. */
  lemma {:induction false} DeleteUpTo(segs: seq<Seg>, k: nat)
    requires Ordered(segs) && 0 < k < |segs|
    ensures DeleteCount(segs, segs[k - 1].Next()) <= k
    ensures Chain(segs) ==> DeleteCount(segs, segs[k - 1].Next()) == k
  {
    var cutoff := segs[k - 1].Next();
    var n := DeleteCount(segs, cutoff);
    if n > k {
      DeletedBegins(segs, cutoff, k);
      OrderedAscends(segs, k, k + 1);
    }
    if Chain(segs) {
      DeletesWhatEnds(segs, cutoff, k - 1);
    }
  }

  function Items(sealed: seq<Image>, ages: seq<int>, archived: seq<bool>): (items: seq<Item>)
    requires |ages| == |archived| == |sealed|
    ensures |items| == |sealed|
    ensures forall i :: 0 <= i < |items| ==> items[i] == Item(sealed[i].next, |sealed[i].file|, ages[i], archived[i])
  {
    seq(|sealed|, i requires 0 <= i < |sealed| => Item(sealed[i].next, |sealed[i].file|, ages[i], archived[i]))
  }

  function Sizes(sealed: seq<Image>): (sizes: seq<nat>)
    ensures |sizes| == |sealed|
    ensures forall i :: 0 <= i < |sealed| ==> sizes[i] == |sealed[i].file|
  {
    seq(|sealed|, i requires 0 <= i < |sealed| => |sealed[i].file|)
  }

  lemma ItemsInOrder(log: Log, indexed: bool, ages: seq<int>, archived: seq<bool>)
    requires log.Keeps(indexed) && Ordered(log.View()) && 0 <= log.View()[0].base
    requires |ages| == |archived| == |log.sealed|
    ensures InOrder(Items(log.sealed, ages, archived))
    ensures forall i :: 0 <= i < |log.sealed| ==> log.sealed[i].next == log.View()[i].Next()
  {
    var v := log.View();
    forall i | 0 <= i < |log.sealed|
      ensures log.sealed[i].next == v[i].Next() >= 0
    {
      assert Depicts(indexed, log.sealed[i], log.history[i]);
      OrderedAscends(v, i, i + 1);
      if i > 0 {
        OrderedAscends(v, 0, i);
      }
    }
    forall i, j | 0 <= i < j < |log.sealed|
      ensures v[i].Next() <= v[j].Next()
    {
      OrderedAscends(v, i, j);
    }
  }

  /** One sweep of one partition. It removes leading segments only, never one the
      archive does not hold and never the active one; on a gap-free log it removes
      exactly the segments that are due. */
  method SweepOnce(log: Log, cfg: Config, ages: seq<int>, archived: seq<bool>, ghost indexed: bool)
    returns (deleted: nat)
    requires log.Keeps(indexed) && Ordered(log.View()) && 0 <= log.View()[0].base
    requires |ages| == |archived| == |log.sealed|
    modifies log`sealed, log`history, log`logStart
    ensures log.Keeps(indexed)
    ensures deleted <= old(|log.sealed|) && log.View() == old(log.View())[deleted..]
    ensures forall i :: 0 <= i < deleted ==>
              Goes(ages, archived, Sizes(old(log.sealed)), old(|log.active.file|), cfg, i)
    ensures Chain(old(log.View())) ==>
              forall i :: deleted <= i < old(|log.sealed|) ==>
                !Goes(ages, archived, Sizes(old(log.sealed)), old(|log.active.file|), cfg, i)
  {
    ghost var sizes, active := Sizes(log.sealed), |log.active.file|;
    deleted := Sweep(log, cfg, ages, archived, indexed);
    forall i | 0 <= i < |sizes|
      ensures i < Due(Items(old(log.sealed), ages, archived), active, cfg)
              <==> Goes(ages, archived, sizes, active, cfg, i)
    {
      DueAre(Items(old(log.sealed), ages, archived), active, cfg, ages, archived, sizes, i);
    }
  }

  method Sweep(log: Log, cfg: Config, ages: seq<int>, archived: seq<bool>, ghost indexed: bool)
    returns (deleted: nat)
    requires log.Keeps(indexed) && Ordered(log.View()) && 0 <= log.View()[0].base
    requires |ages| == |archived| == |log.sealed|
    modifies log`sealed, log`history, log`logStart
    ensures log.Keeps(indexed)
    ensures deleted <= Due(Items(old(log.sealed), ages, archived), old(|log.active.file|), cfg)
    ensures log.View() == old(log.View())[deleted..]
    ensures Chain(old(log.View())) ==>
              deleted == Due(Items(old(log.sealed), ages, archived), old(|log.active.file|), cfg)
  {
    var items := Items(log.sealed, ages, archived);
    ItemsInOrder(log, indexed, ages, archived);
    var cutoff := Cutoff(items, |log.active.file|, cfg);
    if cutoff < 0 {
      return 0;
    }
    DeleteUpTo(log.View(), Due(items, |log.active.file|, cfg));
    deleted := log.DeleteSegmentsBefore(cutoff, indexed);
  }
}
