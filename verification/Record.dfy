/** The Kafka v2 record-batch header: parsing, checksum, the two in-place
    patches the broker makes, and the checks a batch passes before a write. */
module Record {
  import opened Bytes

  const HEADER_SIZE := 61
  const MAGIC := 2
  const MAX_BATCH_SIZE := 4 * 1024 * 1024
  const INT64_LIMIT: int := 0x8000_0000_0000_0000

  datatype Error =
    | ShortHeader | BadMagic | LengthTooSmall | LengthTooLarge
    | BadCrc | TooSmall | TooLarge
    | UnknownCodec | ControlBatch | Transactional

  datatype Result<+T> = Ok(value: T) | Err(error: Error)

  type uint32 = x: int | 0 <= x < TWO32

  /** Any 32-bit checksum: nothing below depends on which polynomial CRC32C uses. */
  type Checksum = bytes -> uint32

  /** The header fields the storage layer reads. */
  datatype BatchHeader = BatchHeader(
    baseOffset: int, batchLength: int, magic: int, crc: nat,
    attributes: int, lastOffsetDelta: int, maxTimestamp: int)
  {
    function LastOffset(): int { baseOffset + lastOffsetDelta }
    function TotalSize(): int { 12 + batchLength }
  }

  function Header(b: bytes): BatchHeader
    requires |b| >= HEADER_SIZE
  {
    BatchHeader(
      Signed(FromBE(b, 0, 8), 8),
      Signed(FromBE(b, 8, 4), 4),
      Signed(FromBE(b, 16, 1), 1),
      FromBE(b, 17, 4),
      Signed(FromBE(b, 21, 2), 2),
      Signed(FromBE(b, 23, 4), 4),
      Signed(FromBE(b, 35, 8), 8))
  }

  function ParseBatchHeader(buf: bytes): (r: Result<BatchHeader>)
    ensures r.Ok? <==> Parses(buf)
    ensures r.Ok? ==> r.value.TotalSize() >= HEADER_SIZE
  {
    if |buf| < HEADER_SIZE then Err(ShortHeader)
    else
      var h := Header(buf);
      if h.magic != MAGIC then Err(BadMagic)
      else if h.batchLength < HEADER_SIZE - 12 then Err(LengthTooSmall)
      else if h.batchLength > MAX_BATCH_SIZE then Err(LengthTooLarge)
      else Ok(h)
  }

  /** A readable v2 header starts the buffer. */
  predicate Parses(buf: bytes) {
    && |buf| >= HEADER_SIZE
    && Header(buf).magic == MAGIC
    && HEADER_SIZE - 12 <= Header(buf).batchLength <= MAX_BATCH_SIZE
  }

  function TotalSize(buf: bytes): (n: nat)
    requires Parses(buf)
    ensures n >= HEADER_SIZE
  {
    Header(buf).TotalSize()
  }

  /** The buffer is exactly one batch: header, and as many bytes as it claims. */
  predicate Framed(b: bytes) {
    Parses(b) && |b| == TotalSize(b)
  }

  predicate CrcMatches(crc: Checksum, b: bytes) {
    |b| >= HEADER_SIZE && crc(b[21..]) == Header(b).crc
  }

  /** The header of a buffer is decided by its first 61 bytes. */
  lemma HeaderIsLocal(a: bytes, b: bytes)
    requires |a| >= HEADER_SIZE && |b| >= HEADER_SIZE
    requires forall i :: 0 <= i < HEADER_SIZE ==> a[i] == b[i]
    ensures Header(a) == Header(b)
  {
    FromBESame(a, b, 0, 8);
    FieldsFrom8(a, b);
    FieldsFrom16(a, b);
  }

  lemma FieldsFrom8(a: bytes, b: bytes)
    requires |a| >= HEADER_SIZE && |b| >= HEADER_SIZE
    requires forall i :: 8 <= i < 12 ==> a[i] == b[i]
    ensures Header(a).batchLength == Header(b).batchLength
  {
    FromBESame(a, b, 8, 4);
  }

  lemma FieldsFrom16(a: bytes, b: bytes)
    requires |a| >= HEADER_SIZE && |b| >= HEADER_SIZE
    requires forall i :: 16 <= i < HEADER_SIZE ==> a[i] == b[i]
    ensures Header(a) == Header(b).(baseOffset := Header(a).baseOffset, batchLength := Header(a).batchLength)
  {
    FromBESame(a, b, 16, 1);
    FromBESame(a, b, 17, 4);
    FromBESame(a, b, 21, 2);
    FromBESame(a, b, 23, 4);
    FromBESame(a, b, 35, 8);
  }

  // ---- the v2 layout --------------------------------------------------------

  /** The fields of the format that the storage layer does not read, as bytes. */
  datatype Unread = Unread(epoch: bytes, firstTimestamp: bytes, producerId: bytes, producerEpoch: bytes,
                           baseSequence: bytes, recordCount: bytes)
  {
    predicate Sized() {
      && |epoch| == 4 && |firstTimestamp| == 8 && |producerId| == 8 && |producerEpoch| == 2
      && |baseSequence| == 4 && |recordCount| == 4
    }
  }

  /** Every field is in the range of its type. */
  predicate InRange(h: BatchHeader) {
    && -INT64_LIMIT <= h.baseOffset < INT64_LIMIT && -INT64_LIMIT <= h.maxTimestamp < INT64_LIMIT
    && -(TWO32 / 2) <= h.batchLength < TWO32 / 2 && -(TWO32 / 2) <= h.lastOffsetDelta < TWO32 / 2
    && -128 <= h.magic < 128 && -(TWO16 / 2) <= h.attributes < TWO16 / 2 && h.crc < TWO32
  }

  /** What the checksum covers: from the attributes to the last record. */
  function Covered(h: BatchHeader, u: Unread, records: bytes): bytes {
    ToBE(h.attributes % TWO16, 2) + ToBE(h.lastOffsetDelta % TWO32, 4) + u.firstTimestamp
    + ToBE(h.maxTimestamp % TWO64, 8) + u.producerId + u.producerEpoch + u.baseSequence + u.recordCount + records
  }

  /** A batch as the format lays it out. */
  function LaidOut(h: BatchHeader, u: Unread, records: bytes): bytes {
    ToBE(h.baseOffset % TWO64, 8) + ToBE(h.batchLength % TWO32, 4) + u.epoch + ToBE(h.magic % 256, 1)
    + ToBE(h.crc, 4) + Covered(h, u, records)
  }

  lemma {:induction false} Slices(h: BatchHeader, u: Unread, records: bytes)
    requires u.Sized()
    ensures var b := LaidOut(h, u, records);
            && |b| == HEADER_SIZE + |records| && b[21..] == Covered(h, u, records)
            && b[0..8] == ToBE(h.baseOffset % TWO64, 8) && b[8..12] == ToBE(h.batchLength % TWO32, 4)
            && b[16..17] == ToBE(h.magic % 256, 1) && b[17..21] == ToBE(h.crc, 4)
  {
  }

  lemma {:induction false} CoveredSlices(h: BatchHeader, u: Unread, records: bytes, b: bytes)
    requires u.Sized() && |b| >= HEADER_SIZE && b[21..] == Covered(h, u, records)
    ensures b[21..23] == ToBE(h.attributes % TWO16, 2) && b[23..27] == ToBE(h.lastOffsetDelta % TWO32, 4)
    ensures b[35..43] == ToBE(h.maxTimestamp % TWO64, 8)
  {
    var c := Covered(h, u, records);
    assert b[21..23] == c[..2] && b[23..27] == c[2..6] && b[35..43] == c[14..22];
  }

  lemma Int8RoundTrip(x: int)
    requires -128 <= x < 128
    ensures Signed(FromBE(ToBE(x % 256, 1), 0, 1), 1) == x
  {
    ReadBackBE(x % 256, 1);
  }

  /** Whatever values the fields have and whatever stands in the others, a batch laid out as
      the format says reads back as exactly those values. */
  lemma {:induction false} LayoutReadsBack(h: BatchHeader, u: Unread, records: bytes)
    requires InRange(h) && u.Sized()
    ensures |LaidOut(h, u, records)| == HEADER_SIZE + |records| && Header(LaidOut(h, u, records)) == h
  {
    var b := LaidOut(h, u, records);
    Slices(h, u, records);
    CoveredSlices(h, u, records, b);
    PrefixReadsBack(h, b);
    CoveredReadsBack(h, b);
  }

  lemma {:induction false} PrefixReadsBack(h: BatchHeader, b: bytes)
    requires InRange(h) && |b| >= HEADER_SIZE
    requires b[0..8] == ToBE(h.baseOffset % TWO64, 8) && b[8..12] == ToBE(h.batchLength % TWO32, 4)
    requires b[16..17] == ToBE(h.magic % 256, 1) && b[17..21] == ToBE(h.crc, 4)
    ensures Header(b).baseOffset == h.baseOffset && Header(b).batchLength == h.batchLength
    ensures Header(b).magic == h.magic && Header(b).crc == h.crc
  {
    FromBEShift(b, 0, ToBE(h.baseOffset % TWO64, 8));
    FromBEShift(b, 8, ToBE(h.batchLength % TWO32, 4));
    FromBEShift(b, 16, ToBE(h.magic % 256, 1));
    FromBEShift(b, 17, ToBE(h.crc, 4));
    Int64RoundTrip(h.baseOffset);
    Int32RoundTrip(h.batchLength);
    Int8RoundTrip(h.magic);
    assert Pow256(4) == TWO32;
    ReadBackBE(h.crc, 4);
  }

  lemma {:induction false} CoveredReadsBack(h: BatchHeader, b: bytes)
    requires InRange(h) && |b| >= HEADER_SIZE
    requires b[21..23] == ToBE(h.attributes % TWO16, 2) && b[23..27] == ToBE(h.lastOffsetDelta % TWO32, 4)
    requires b[35..43] == ToBE(h.maxTimestamp % TWO64, 8)
    ensures Header(b).attributes == h.attributes && Header(b).lastOffsetDelta == h.lastOffsetDelta
    ensures Header(b).maxTimestamp == h.maxTimestamp
  {
    FromBEShift(b, 21, ToBE(h.attributes % TWO16, 2));
    FromBEShift(b, 23, ToBE(h.lastOffsetDelta % TWO32, 4));
    FromBEShift(b, 35, ToBE(h.maxTimestamp % TWO64, 8));
    Int16RoundTrip(h.attributes);
    Int32RoundTrip(h.lastOffsetDelta);
    Int64RoundTrip(h.maxTimestamp);
  }

  /** The checksum test compares the CRC field with the checksum of everything from the
      attributes on. */
  lemma {:induction false} LayoutChecks(crc: Checksum, h: BatchHeader, u: Unread, records: bytes)
    requires InRange(h) && u.Sized()
    ensures CrcMatches(crc, LaidOut(h, u, records)) <==> crc(Covered(h, u, records)) == h.crc
  {
    Slices(h, u, records);
    LayoutReadsBack(h, u, records);
  }

  // ---- the two in-place patches -------------------------------------------

  function WithBaseOffset(b: bytes, offset: int): (r: bytes)
    requires |b| >= HEADER_SIZE
    ensures |r| == |b|
  {
    ToBE(offset % TWO64, 8) + b[8..]
  }

  function WithLeaderEpoch(b: bytes, epoch: int): (r: bytes)
    requires |b| >= HEADER_SIZE
    ensures |r| == |b|
  {
    b[..12] + ToBE(epoch % TWO32, 4) + b[16..]
  }

  method PutBE(a: array<byte>, at: nat, v: nat, n: nat)
    requires at + n <= a.Length
    modifies a
    ensures a[..] == old(a[..at]) + ToBE(v, n) + old(a[at + n..])
  {
    var enc := ToBE(v, n);
    forall i | 0 <= i < n {
      a[at + i] := enc[i];
    }
  }

  method RewriteBaseOffset(batch: array<byte>, baseOffset: int)
    requires batch.Length >= HEADER_SIZE
    modifies batch
    ensures batch[..] == WithBaseOffset(old(batch[..]), baseOffset)
  {
    PutBE(batch, 0, baseOffset % TWO64, 8);
  }

  method SetPartitionLeaderEpoch(batch: array<byte>, epoch: int)
    requires batch.Length >= HEADER_SIZE
    modifies batch
    ensures batch[..] == WithLeaderEpoch(old(batch[..]), epoch)
  {
    PutBE(batch, 12, epoch % TWO32, 4);
  }

  /** A batch as it is stored: its base offset assigned, its leader epoch zero. */
  function Stamp(b: bytes, offset: int): (r: bytes)
    ensures |r| == |b|
  {
    if |b| < HEADER_SIZE then b else WithLeaderEpoch(WithBaseOffset(b, offset), 0)
  }

  /** Stamping assigns the base offset, zeroes the epoch, and nothing else: every other header
      field, everything the CRC covers and the CRC itself are untouched. */
  lemma StampKeepsTheRest(b: bytes, offset: int)
    requires |b| >= HEADER_SIZE
    requires -INT64_LIMIT <= offset < INT64_LIMIT
    ensures Header(Stamp(b, offset)) == Header(b).(baseOffset := offset)
    ensures Stamp(b, offset)[16..] == b[16..] && Stamp(b, offset)[8..12] == b[8..12]
    ensures Stamp(b, offset)[..8] == ToBE(offset % TWO64, 8) && Stamp(b, offset)[12..16] == [0, 0, 0, 0]
  {
    var s := Stamp(b, offset);
    assert 0 % TWO32 == 0 && ToBE(0, 4) == [Digit(0, 3), Digit(0, 2), Digit(0, 1), Digit(0, 0)];
    FromBESame(s, ToBE(offset % TWO64, 8), 0, 8);
    Int64RoundTrip(offset);
    FieldsFrom8(s, b);
    FieldsFrom16(s, b);
    assert s[16..] == b[16..];
  }

  // ---- the checks before a write ------------------------------------------

  /** Bit k of a two's-complement integer; division by a positive number
      rounds down in Dafny, so this is the arithmetic shift. */
  predicate AttributeBit(attributes: int, weight: int)
    requires weight > 0
  {
    (attributes / weight) % 2 == 1
  }

  function ValidateCompressionCodec(attributes: int): (r: Result<()>)
    ensures r.Ok? <==> attributes % 8 <= 4
  {
    match attributes % 8
    case 0 => Ok(()) case 1 => Ok(()) case 2 => Ok(()) case 4 => Ok(())
    case 3 => Ok(())
    case _ => Err(UnknownCodec)
  }

  function ValidateBatchAttributes(attributes: int): (r: Result<()>)
    ensures r.Ok? <==> attributes % 8 <= 4 && !AttributeBit(attributes, 32) && !AttributeBit(attributes, 16)
  {
    var codec := ValidateCompressionCodec(attributes);
    if codec.Err? then codec
    else if AttributeBit(attributes, 32) then Err(ControlBatch)
    else if AttributeBit(attributes, 16) then Err(Transactional)
    else Ok(())
  }

  function ValidateBatchForAppend(crc: Checksum, b: bytes): (r: Result<()>)
    ensures r.Ok? <==> |b| <= MAX_BATCH_SIZE && Appendable(crc, b)
  {
    if |b| < HEADER_SIZE then Err(TooSmall)
    else if |b| > MAX_BATCH_SIZE then Err(TooLarge)
    else match ParseBatchHeader(b)
      case Err(e) => Err(e)
      case Ok(h) =>
        if !CrcMatches(crc, b) then Err(BadCrc)
        else ValidateBatchAttributes(h.attributes)
  }

  /** What Segment.Append itself insists on. */
  predicate Appendable(crc: Checksum, b: bytes) {
    Parses(b) && CrcMatches(crc, b) && ValidateBatchAttributes(Header(b).attributes).Ok?
  }

  /** A batch that passed the up-front validation still passes the segment's
      own checks after its offset and epoch are rewritten, and keeps its frame. */
  lemma StampKeepsAppendable(crc: Checksum, b: bytes, offset: int)
    requires Appendable(crc, b)
    requires -INT64_LIMIT <= offset < INT64_LIMIT
    ensures Appendable(crc, Stamp(b, offset))
    ensures Framed(b) <==> Framed(Stamp(b, offset))
  {
    StampKeepsTheRest(b, offset);
    assert Stamp(b, offset)[21..] == Stamp(b, offset)[16..][5..];
    assert b[21..] == b[16..][5..];
  }

  /** What the validation makes of a batch of the format, field by field. */
  lemma {:induction false} LayoutValidates(crc: Checksum, h: BatchHeader, u: Unread, records: bytes)
    requires InRange(h) && u.Sized()
    ensures ValidateBatchForAppend(crc, LaidOut(h, u, records)).Ok? <==>
              && HEADER_SIZE + |records| <= MAX_BATCH_SIZE && h.magic == 2 && 49 <= h.batchLength <= MAX_BATCH_SIZE
              && h.crc == crc(Covered(h, u, records))
              && h.attributes % 8 <= 4 && (h.attributes / 16) % 2 == 0 && (h.attributes / 32) % 2 == 0
    ensures Framed(LaidOut(h, u, records)) <==>
              h.magic == 2 && 49 <= h.batchLength <= MAX_BATCH_SIZE && h.batchLength == 49 + |records|
  {
    LayoutReadsBack(h, u, records);
    LayoutChecks(crc, h, u, records);
  }
}
