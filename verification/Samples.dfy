/** Batches that pass every check the broker makes, under any checksum: inputs for the
    statements that say a run or a fault can really happen. */
module Samples {
  import opened Bytes
  import opened Record

  function Zeros(n: nat): (s: bytes)
    ensures |s| == n
  {
    seq(n, i => 0)
  }

  /** What the checksum covers: no attributes, a last offset delta, and zeros. */
  function Body(delta: int, padding: nat): (s: bytes)
    ensures |s| == 40 + padding
  {
    Zeros(2) + ToBE(delta % TWO32, 4) + Zeros(34 + padding)
  }

  function Sample(crc: Checksum, delta: int, padding: nat): (s: bytes)
    ensures |s| == HEADER_SIZE + padding
  {
    var body := Body(delta, padding);
    Zeros(8) + ToBE(49 + padding, 4) + Zeros(4) + [2] + ToBE(crc(body), 4) + body
  }

  lemma {:induction false} ZeroReads(s: bytes, at: nat, n: nat)
    requires at + n <= |s| && forall i :: at <= i < at + n ==> s[i] == 0
    ensures FromBE(s, at, n) == 0
  {
    if n > 0 {
      ZeroReads(s, at, n - 1);
    }
  }

  lemma {:induction false} FieldReads(s: bytes, at: nat, v: nat)
    requires at + 4 <= |s| && s[at..at + 4] == ToBE(v, 4) && v < TWO32
    ensures FromBE(s, at, 4) == v
  {
    FromBEShift(s, at, ToBE(v, 4));
    assert Pow256(4) == TWO32;
    ReadBackBE(v, 4);
  }

  lemma BodyReads(s: bytes, delta: int, padding: nat)
    requires |s| == HEADER_SIZE + padding && s[21..] == Body(delta, padding)
    requires -(TWO32 / 2) <= delta < TWO32 / 2
    ensures Header(s).attributes == 0 && Header(s).lastOffsetDelta == delta && Header(s).maxTimestamp == 0
  {
    var body := Body(delta, padding);
    assert forall i :: 21 <= i < |s| ==> s[i] == body[i - 21];
    ZeroReads(s, 21, 2);
    ZeroReads(s, 35, 8);
    assert s[23..27] == ToBE(delta % TWO32, 4);
    FromBEShift(s, 23, ToBE(delta % TWO32, 4));
    Int32RoundTrip(delta);
  }

  lemma PrefixReads(s: bytes, crc: uint32, body: bytes, padding: nat)
    requires |body| == 40 + padding && padding <= MAX_BATCH_SIZE
    requires s == Zeros(8) + ToBE(49 + padding, 4) + Zeros(4) + [2] + ToBE(crc, 4) + body
    ensures |s| == HEADER_SIZE + padding && s[21..] == body
    ensures Header(s).baseOffset == 0 && Header(s).batchLength == 49 + padding && Header(s).magic == MAGIC
    ensures Header(s).crc == crc
  {
    ZeroReads(s, 0, 8);
    assert s[8..12] == ToBE(49 + padding, 4);
    FieldReads(s, 8, 49 + padding);
    assert Pow256(4) == TWO32;
    assert s[17..21] == ToBE(crc, 4);
    FieldReads(s, 17, crc);
    assert s[16] == 2;
    assert FromBE(s, 16, 1) == FromBE(s, 16, 0) * 256 + s[16];
  }

  /** A sample passes the validation made before an append, with the delta it was given. */
  lemma SampleIsValid(crc: Checksum, delta: int, padding: nat)
    requires -(TWO32 / 2) <= delta < TWO32 / 2 && padding <= MAX_BATCH_SIZE - HEADER_SIZE
    ensures ValidateBatchForAppend(crc, Sample(crc, delta, padding)).Ok? && Framed(Sample(crc, delta, padding))
    ensures Header(Sample(crc, delta, padding)).lastOffsetDelta == delta
    ensures Header(Sample(crc, delta, padding)).baseOffset == 0
  {
    var s, body := Sample(crc, delta, padding), Body(delta, padding);
    PrefixReads(s, crc(body), body, padding);
    BodyReads(s, delta, padding);
  }
}
