/** Runs of batches as consecutive offset ranges. A batch is kept here with its
    header fields read out, so that nothing in this module looks at bytes. */
module Offsets {
  import opened Bytes

  datatype Batch = Batch(base: int, last: int, time: int, raw: bytes) {
    predicate Contains(offset: int) { base <= offset <= last }
  }

  /** The offset after the run, or `base` when it is empty. */
  function Next(base: int, bs: seq<Batch>): int {
    if bs == [] then base else bs[|bs| - 1].last + 1
  }

  /** Every batch begins where the one before it ended, and none is empty. */
  predicate Dense(base: int, bs: seq<Batch>)
    decreases |bs|
  {
    bs == [] || (bs[0].base == base <= bs[0].last && Dense(bs[0].last + 1, bs[1..]))
  }

  lemma NextTail(base: int, bs: seq<Batch>)
    requires bs != []
    ensures Next(base, bs) == Next(bs[0].last + 1, bs[1..])
  {
  }

  lemma {:induction false} DenseConcat(base: int, a: seq<Batch>, b: seq<Batch>)
    ensures Dense(base, a + b) <==> Dense(base, a) && Dense(Next(base, a), b)
    ensures Next(base, a + b) == Next(Next(base, a), b)
    decreases |a|
  {
    if a == [] {
      assert a + b == b;
    } else {
      assert (a + b)[1..] == a[1..] + b;
      DenseConcat(a[0].last + 1, a[1..], b);
      NextTail(base, a);
      NextTail(base, a + b);
    }
  }

  lemma {:induction false} DenseSplit(base: int, bs: seq<Batch>, k: nat)
    requires k <= |bs| && Dense(base, bs)
    ensures Dense(base, bs[..k]) && Dense(Next(base, bs[..k]), bs[k..])
    ensures Next(base, bs) == Next(Next(base, bs[..k]), bs[k..])
  {
    assert bs[..k] + bs[k..] == bs;
    DenseConcat(base, bs[..k], bs[k..]);
  }

  lemma {:induction false} DenseNext(base: int, bs: seq<Batch>)
    requires Dense(base, bs)
    ensures base <= Next(base, bs)
    ensures bs != [] ==> base < Next(base, bs)
    decreases |bs|
  {
    if bs != [] {
      NextTail(base, bs);
      DenseNext(bs[0].last + 1, bs[1..]);
    }
  }

  /** Batch i of a dense run begins where the batches before it end. */
  lemma {:induction false} DenseAt(base: int, bs: seq<Batch>, i: nat)
    requires i < |bs| && Dense(base, bs)
    ensures base <= bs[i].base == Next(base, bs[..i]) <= bs[i].last < Next(base, bs)
  {
    DenseSplit(base, bs, i);
    DenseNext(base, bs[..i]);
    DenseSplit(base, bs, i + 1);
    DenseNext(bs[i].last + 1, bs[i + 1..]);
  }

  /** Offsets only move forward along a dense run. */
  lemma {:induction false} DenseOrder(base: int, bs: seq<Batch>, i: nat, j: nat)
    requires Dense(base, bs) && i < j < |bs|
    ensures bs[i].last < bs[j].base
  {
    DenseSplit(base, bs, i + 1);
    DenseAt(bs[i].last + 1, bs[i + 1..], j - i - 1);
  }

  /** The index of the batch holding an offset: the first that reaches it. */
  function BatchAt(bs: seq<Batch>, offset: int): (j: nat)
    ensures j <= |bs|
  {
    if bs == [] || offset <= bs[0].last then 0 else 1 + BatchAt(bs[1..], offset)
  }

  lemma {:induction false} BatchAtBefore(bs: seq<Batch>, offset: int, i: nat)
    requires i < BatchAt(bs, offset)
    ensures bs[i].last < offset
  {
    if i > 0 {
      BatchAtBefore(bs[1..], offset, i - 1);
    }
  }

  /** On a dense run the first batch that reaches an offset holds it, and there
      is one exactly for the offsets the run covers. */
  lemma {:induction false} BatchAtHolds(base: int, bs: seq<Batch>, offset: int)
    requires Dense(base, bs) && base <= offset
    ensures BatchAt(bs, offset) < |bs| <==> offset < Next(base, bs)
    ensures BatchAt(bs, offset) < |bs| ==> bs[BatchAt(bs, offset)].Contains(offset)
    decreases |bs|
  {
    if bs != [] {
      NextTail(base, bs);
      DenseNext(bs[0].last + 1, bs[1..]);
      if offset > bs[0].last {
        BatchAtHolds(bs[0].last + 1, bs[1..], offset);
      }
    }
  }

  /** ... and no other batch of the run holds it. */
  lemma {:induction false} BatchAtUnique(base: int, bs: seq<Batch>, offset: int, i: nat)
    requires Dense(base, bs) && i < |bs| && bs[i].Contains(offset)
    ensures BatchAt(bs, offset) == i
  {
    DenseAt(base, bs, i);
    BatchAtHolds(base, bs, offset);
    var j := BatchAt(bs, offset);
    if i < j {
      DenseOrder(base, bs, i, j);
    } else if j < i {
      DenseOrder(base, bs, j, i);
    }
  }
}
