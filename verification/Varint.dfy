/** Unsigned varints and the KIP-482 tagged-fields section of a request header. */
module Varint {
  import opened Bytes

  datatype Uint = Ok(value: nat, n: nat) | Overflow | Truncated

  function Pow128(n: nat): (p: nat)
    ensures p >= 1
  {
    if n == 0 then 1 else 128 * Pow128(n - 1)
  }

  /** The standard encoding: seven bits a byte, least significant first. */
  function Encode(x: nat): (b: bytes)
    ensures b != []
  {
    if x < 128 then [x] else [x % 128 + 128] + Encode(x / 128)
  }

  /** What decoding makes of the bytes from index i on: the value of the rest and
      the index after it. The tenth byte may only carry the last of 64 bits. */
  function Decode(b: bytes, i: nat): Uint
    decreases |b| - i
  {
    if i >= |b| then Truncated
    else if i == 9 && b[i] > 1 then Overflow
    else if b[i] < 128 then Ok(b[i], i + 1)
    else match Decode(b, i + 1)
      case Ok(v, n) => Ok(b[i] - 128 + 128 * v, n)
      case other => other
  }

  function Times(p: nat, c: nat): nat { p * c }

  /** The accumulator of the loop: everything before index i, and a shift of 7 i. */
  function Accumulate(x: nat, i: nat, rest: Uint): Uint {
    match rest
    case Ok(v, n) => Ok(x + Times(Pow128(i), v), n)
    case other => other
  }

  // ---- the machine's operators ---------------------------------------------------------

  function Pow2(n: nat): (p: nat)
    ensures p >= 1
  {
    if n == 0 then 1 else 2 * Pow2(n - 1)
  }

  /** Bitwise or. */
  function Or(a: nat, b: nat): nat {
    if a == 0 then b
    else if b == 0 then a
    else (if a % 2 == 1 || b % 2 == 1 then 1 else 0) + 2 * Or(a / 2, b / 2)
  }

  /** A left shift of a 64-bit word. */
  function Shl(c: nat, s: nat): nat {
    Times(Pow2(s), c) % TWO64
  }

  /** Or-ing in something shifted above all bits of a word adds it. */
  lemma {:induction false} OrAbove(a: nat, c: nat, s: nat)
    requires a < Pow2(s)
    ensures Or(a, Times(Pow2(s), c)) == a + Times(Pow2(s), c)
  {
    if s > 0 {
      var half := Times(Pow2(s - 1), c);
      assert Times(Pow2(s), c) == 2 * half by { assert (2 * Pow2(s - 1)) * c == 2 * (Pow2(s - 1) * c); }
      OrAbove(a / 2, c, s - 1);
    }
  }

  lemma {:induction false} Pow2Is128(i: nat)
    ensures Pow2(7 * i) == Pow128(i)
  {
    if i > 0 {
      Pow2Is128(i - 1);
      var n := 7 * (i - 1);
      assert Pow2(n + 2) == 4 * Pow2(n);
      assert Pow2(n + 4) == 4 * Pow2(n + 2);
      assert Pow2(n + 6) == 4 * Pow2(n + 4);
    }
  }

  /** One group of the loop, the shift losing nothing. */
  method OrGroup(x: nat, c: nat, s: nat, ghost i: nat) returns (y: nat)
    requires s == 7 * i && i <= 9 && x < Pow128(i) && c < 128 && (i == 9 ==> c <= 1)
    ensures y == x + Times(Pow128(i), c)
  {
    Pow2Is128(i);
    GroupFits(c, i);
    OrAbove(x, c, s);
    y := Or(x, Shl(c, s));
  }

  lemma {:induction false} GroupFits(c: nat, i: nat)
    requires i <= 9 && c < 128 && (i == 9 ==> c <= 1)
    ensures Times(Pow128(i), c) < TWO64
  {
    Uint64Limit();
    if i == 9 {
      assert Times(Pow128(9), c) <= Pow128(9);
    } else {
      Pow128Grows(i + 1, 9);
      assert Times(Pow128(i), c) <= 127 * Pow128(i);
    }
  }

  lemma {:induction false} Pow128Grows(a: nat, b: nat)
    requires a <= b
    ensures Pow128(a) <= Pow128(b)
    decreases b - a
  {
    if a < b {
      Pow128Grows(a, b - 1);
    }
  }

  /** Shifts and ORs the seven-bit groups together, least significant first. */
  method Uvarint(b: bytes) returns (r: Uint)
    ensures r == Decode(b, 0)
  {
    var x: nat := 0;
    var s: nat := 0;
    var i := 0;
    AccumulateStart(b);
    while i < |b|
      invariant 0 <= i <= |b| && i <= 9 && s == 7 * i && x < Pow128(i)
      invariant Decode(b, 0) == Accumulate(x, i, Decode(b, i))
    {
      var c := b[i];
      if i == 9 && c > 1 {
        return Overflow;
      }
      if c < 0x80 {
        x := OrGroup(x, c, s, i);
        return Ok(x, i + 1);
      }
      AccumulateStep(b, x, i);
      x := OrGroup(x, c - 0x80, s, i);
      s := s + 7;
      i := i + 1;
    }
    return Truncated;
  }

  lemma {:induction false} AccumulateStart(b: bytes)
    ensures Decode(b, 0) == Accumulate(0, 0, Decode(b, 0))
  {
  }

  lemma AccumulateStep(b: bytes, x: nat, i: nat)
    requires i < |b| && i != 9 && b[i] >= 128 && x < Pow128(i)
    ensures x + Times(Pow128(i), b[i] - 128) < Pow128(i + 1)
    ensures Accumulate(x, i, Decode(b, i)) == Accumulate(x + Times(Pow128(i), b[i] - 128), i + 1, Decode(b, i + 1))
  {
    var p, c := Pow128(i), b[i] - 128;
    assert Times(p, c) <= 127 * p;
    var rest := Decode(b, i + 1);
    if rest.Ok? {
      Distribute(p, c, rest.value);
    }
  }

  lemma Distribute(p: nat, c: nat, v: nat)
    ensures Times(p, c + 128 * v) == Times(p, c) + Times(128 * p, v)
  {
    assert p * (c + 128 * v) == p * c + p * (128 * v);
  }

  // ---- what decoding accepts --------------------------------------------------------

  /** A decoded number took at most ten bytes and fits 64 bits. */
  lemma {:induction false} DecodeFits(b: bytes, i: nat)
    requires i <= 9 && Decode(b, i).Ok?
    ensures i < Decode(b, i).n <= 10 && Decode(b, i).n <= |b|
    ensures Decode(b, i).value < 2 * Pow128(9 - i)
    decreases 9 - i
  {
    if b[i] >= 128 {
      DecodeFits(b, i + 1);
    }
  }

  lemma Uint64Limit()
    ensures 2 * Pow128(9) == TWO64
  {
    assert Pow128(4) == 0x1000_0000;
    assert Pow128(8) == 0x100_0000_0000_0000;
  }

  /** Decoding inverts encoding for every 64-bit number, whatever follows it. */
  lemma {:induction false} DecodeEncode(pre: bytes, x: nat, rest: bytes)
    requires |pre| <= 9 && x < 2 * Pow128(9 - |pre|)
    ensures Decode(pre + Encode(x) + rest, |pre|) == Ok(x, |pre| + |Encode(x)|)
    decreases x
  {
    var b := pre + Encode(x) + rest;
    assert b[|pre|] == Encode(x)[0];
    if x >= 128 {
      var pre' := pre + [x % 128 + 128];
      assert b == pre' + Encode(x / 128) + rest;
      DecodeEncode(pre', x / 128, rest);
    }
  }

  lemma {:induction false} RoundTrip(x: nat, rest: bytes)
    requires x < TWO64
    ensures Decode(Encode(x) + rest, 0) == Ok(x, |Encode(x)|)
  {
    Uint64Limit();
    DecodeEncode([], x, rest);
    assert [] + Encode(x) + rest == Encode(x) + rest;
  }

  /** The bytes that were read are the standard encoding of the number exactly when
      the last of them is not a superfluous zero: longer encodings are accepted. */
  lemma {:induction false} CanonicalWhen(b: bytes, i: nat)
    requires i <= 9 && Decode(b, i).Ok?
    ensures var r := Decode(b, i);
            && i < r.n <= |b|
            && (b[i..r.n] == Encode(r.value) <==> r.n == i + 1 || b[r.n - 1] != 0)
            && (b[r.n - 1] != 0 ==> r.value > 0)
    decreases 9 - i
  {
    var r := Decode(b, i);
    if b[i] < 128 {
      assert b[i..r.n] == [b[i]];
    } else {
      CanonicalWhen(b, i + 1);
      assert b[i..r.n] == [b[i]] + b[i + 1..r.n];
      var v := Decode(b, i + 1).value;
      if v > 0 {
        assert r.value / 128 == v && r.value % 128 == b[i] - 128;
        assert Encode(r.value) == [b[i]] + Encode(v);
        assert ([b[i]] + Encode(v))[1..] == Encode(v) && b[i..r.n][1..] == b[i + 1..r.n];
      } else {
        assert Encode(r.value)[0] < 128;
      }
    }
  }

  /** An encoding one byte longer than need be. */
  function Pad(b: bytes): bytes
    requires b != [] && b[|b| - 1] < 128
  {
    b[..|b| - 1] + [b[|b| - 1] + 128, 0]
  }

  lemma {:induction false} EncodeEnds(x: nat)
    ensures Encode(x)[|Encode(x)| - 1] < 128
  {
    if x >= 128 {
      EncodeEnds(x / 128);
    }
  }

  lemma {:induction false} PaddedFrom(pre: bytes, x: nat, rest: bytes)
    requires |pre| <= 8 && x < Pow128(9 - |pre|)
    ensures Encode(x)[|Encode(x)| - 1] < 128
    ensures Decode(pre + Pad(Encode(x)) + rest, |pre|) == Ok(x, |pre| + |Encode(x)| + 1)
    decreases x
  {
    EncodeEnds(x);
    var b := pre + Pad(Encode(x)) + rest;
    if x < 128 {
      assert Pad(Encode(x)) == [x + 128, 0];
      assert b[|pre|] == x + 128 && b[|pre| + 1] == 0;
    } else {
      var pre', tail := pre + [x % 128 + 128], Encode(x / 128);
      EncodeEnds(x / 128);
      assert Pad(Encode(x)) == [x % 128 + 128] + Pad(tail);
      assert b[|pre|] == x % 128 + 128;
      assert b == pre' + Pad(tail) + rest;
      PaddedFrom(pre', x / 128, rest);
    }
  }

  /** Every number below 2 to the 63 has a longer encoding that is accepted too. */
  lemma {:induction false} PaddedIsAccepted(x: nat, rest: bytes)
    requires x < TWO64 / 2
    ensures Encode(x)[|Encode(x)| - 1] < 128
    ensures Decode(Pad(Encode(x)) + rest, 0) == Ok(x, |Encode(x)| + 1)
  {
    Uint64Limit();
    PaddedFrom([], x, rest);
    assert [] + Pad(Encode(x)) + rest == Pad(Encode(x)) + rest;
  }

  // ---- tagged fields -------------------------------------------------------------------

  datatype Tag = Tag(id: nat, data: bytes)

  predicate Sendable(t: Tag) { t.id < TWO64 && |t.data| < TWO64 }

  function EncodeTag(t: Tag): bytes {
    Encode(t.id) + Encode(|t.data|) + t.data
  }

  function EncodeTags(ts: seq<Tag>): bytes {
    if ts == [] then [] else EncodeTag(ts[0]) + EncodeTags(ts[1..])
  }

  /** The section: a count, then that many (tag, length, bytes) triples. */
  function EncodeSection(ts: seq<Tag>): bytes {
    Encode(|ts|) + EncodeTags(ts)
  }

  datatype Skip = Skipped(n: int) | Malformed | OutOfBounds

  /** uint64(off) + size > uint64(len(b)), as the 64-bit machine evaluates it. */
  predicate RunsPast(b: bytes, off: nat, size: nat) {
    (off + size) % TWO64 > |b|
  }

  /** One triple: two varints, the bound check, and a step of int(size). */
  method SkipField(b: bytes, off: nat) returns (r: Skip)
    requires off <= |b|
    ensures r == FieldEnd(b, off)
  {
    var tag := Uvarint(b[off..]);
    if !tag.Ok? {
      return Malformed;
    }
    UvarintBounds(b[off..]);
    var at := off + tag.n;
    var size := Uvarint(b[at..]);
    if !size.Ok? {
      return Malformed;
    }
    UvarintBounds(b[at..]);
    at := at + size.n;
    if RunsPast(b, at, size.value) {
      return Malformed;
    }
    return Skipped(at + ToInt64(size.value));
  }

  /** Go's int(x) of a 64-bit unsigned value. */
  function ToInt64(x: nat): int { if x < TWO64 / 2 then x else x - TWO64 }

  function FieldEnd(b: bytes, off: nat): Skip
    requires off <= |b|
  {
    var tag := Decode(b[off..], 0);
    if !tag.Ok? then Malformed
    else
      UvarintBounds(b[off..]);
      var size := Decode(b[off + tag.n..], 0);
      if !size.Ok? then Malformed
      else
        var at := off + tag.n + size.n;
        if RunsPast(b, at, size.value) then Malformed else Skipped(at + ToInt64(size.value))
  }

  lemma {:induction false} UvarintBounds(b: bytes)
    ensures Decode(b, 0).Ok? ==> 0 < Decode(b, 0).n <= |b| && Decode(b, 0).n <= 10 && Decode(b, 0).value < TWO64
  {
    if Decode(b, 0).Ok? {
      DecodeFits(b, 0);
      Uint64Limit();
    }
  }

  /** Skips `count` triples from off on; a position outside the buffer would make
      the next slice expression panic. */
  function FieldsEnd(b: bytes, off: int, count: nat): Skip
    decreases count
  {
    if count == 0 then Skipped(off)
    else if !(0 <= off <= |b|) then OutOfBounds
    else match FieldEnd(b, off)
      case Skipped(at) => FieldsEnd(b, at, count - 1)
      case other => other
  }

  /** How often the loop turns, a turn that refuses its field included. */
  function Turns(b: bytes, off: int, count: nat): nat
    decreases count
  {
    if count == 0 || !(0 <= off <= |b|) then 0
    else match FieldEnd(b, off)
      case Skipped(at) => 1 + Turns(b, at, count - 1)
      case _ => 1
  }

  function SectionTurns(b: bytes): nat {
    var count := Decode(b, 0);
    if !count.Ok? then 0 else Turns(b, count.n, count.value)
  }

  method SkipTaggedFields(b: bytes) returns (r: Skip, ghost turns: nat)
    ensures r == SectionEnd(b) && turns == SectionTurns(b)
  {
    turns := 0;
    var count := Uvarint(b);
    if !count.Ok? {
      return Malformed, turns;
    }
    var off: int := count.n;
    var i := 0;
    while i < count.value
      invariant 0 <= i <= count.value
      invariant FieldsEnd(b, off, count.value - i) == SectionEnd(b)
      invariant turns + Turns(b, off, count.value - i) == SectionTurns(b)
    {
      if !(0 <= off <= |b|) {
        return OutOfBounds, turns;
      }
      var field := SkipField(b, off);
      turns := turns + 1;
      if !field.Skipped? {
        return field, turns;
      }
      off := field.n;
      i := i + 1;
    }
    return Skipped(off), turns;
  }

  function SectionEnd(b: bytes): Skip {
    var count := Decode(b, 0);
    if !count.Ok? then Malformed else FieldsEnd(b, count.n, count.value)
  }

  /** A field that was sent whole is skipped whole. */
  lemma SkipsField(pre: bytes, t: Tag, rest: bytes)
    requires Sendable(t) && |pre + EncodeTag(t) + rest| < TWO64 / 2
    ensures FieldEnd(pre + EncodeTag(t) + rest, |pre|) == Skipped(|pre| + |EncodeTag(t)|)
  {
    var b := pre + EncodeTag(t) + rest;
    var tail := Encode(|t.data|) + t.data + rest;
    assert b[|pre|..] == Encode(t.id) + tail;
    RoundTrip(t.id, tail);
    var at := |pre| + |Encode(t.id)|;
    assert b[at..] == Encode(|t.data|) + (t.data + rest);
    RoundTrip(|t.data|, t.data + rest);
  }

  lemma {:induction false} SkipsFields(pre: bytes, ts: seq<Tag>, rest: bytes)
    requires forall t :: t in ts ==> Sendable(t)
    requires |pre + EncodeTags(ts) + rest| < TWO64 / 2
    ensures FieldsEnd(pre + EncodeTags(ts) + rest, |pre|, |ts|) == Skipped(|pre| + |EncodeTags(ts)|)
    decreases |ts|
  {
    if ts != [] {
      var b := pre + EncodeTags(ts) + rest;
      var tail := EncodeTags(ts[1..]) + rest;
      assert b == pre + EncodeTag(ts[0]) + tail;
      SkipsField(pre, ts[0], tail);
      var pre' := pre + EncodeTag(ts[0]);
      assert b == pre' + EncodeTags(ts[1..]) + rest;
      SkipsFields(pre', ts[1..], rest);
    }
  }

  /** Over the encoding of any list of tags followed by any body, the section and
      nothing else is skipped. */
  lemma SkipsSection(ts: seq<Tag>, body: bytes)
    requires forall t :: t in ts ==> Sendable(t)
    requires |EncodeSection(ts) + body| < TWO64 / 2
    ensures SectionEnd(EncodeSection(ts) + body) == Skipped(|EncodeSection(ts)|)
  {
    var b := EncodeSection(ts) + body;
    assert b == Encode(|ts|) + (EncodeTags(ts) + body);
    TagsAreLong(ts);
    RoundTrip(|ts|, EncodeTags(ts) + body);
    SkipsFields(Encode(|ts|), ts, body);
    assert b == Encode(|ts|) + EncodeTags(ts) + body;
  }

  lemma {:induction false} TagsAreLong(ts: seq<Tag>)
    ensures |ts| <= |EncodeTags(ts)|
  {
    if ts != [] {
      TagsAreLong(ts[1..]);
    }
  }

  // ---- sizes that wrap ------------------------------------------------------------------

  /** Where a field's bytes start, and how many there should be. */
  predicate SizeAt(b: bytes, off: nat, at: nat, size: nat) {
    && off <= |b| && Decode(b[off..], 0).Ok?
    && var tag := Decode(b[off..], 0);
       && off + tag.n <= |b| && Decode(b[off + tag.n..], 0).Ok?
       && var len := Decode(b[off + tag.n..], 0); at == off + tag.n + len.n && size == len.value
  }

  /** A field is refused when its bytes run past the buffer and skipped when they do not, unless
      the sum of position and size wraps: then it is accepted and the position goes back,
      though not before the buffer. */
  lemma FieldEndIs(b: bytes, off: nat, at: nat, size: nat)
    requires SizeAt(b, off, at, size) && |b| < TWO64 / 2
    ensures at <= |b| && size < TWO64
    ensures FieldEnd(b, off) ==
            if at + size >= TWO64 then Skipped(at + size - TWO64)
            else if at + size > |b| then Malformed else Skipped(at + size)
  {
    UvarintBounds(b[off..]);
    UvarintBounds(b[off + Decode(b[off..], 0).n..]);
    if at + size >= TWO64 {
      assert (at + size) % TWO64 == at + size - TWO64;
    }
  }

  /** The bound check says what it means, and no skip goes back, exactly while the addition
      does not wrap. */
  lemma BoundCheckWhen(b: bytes, off: nat, at: nat, size: nat)
    requires SizeAt(b, off, at, size) && |b| < TWO64 / 2
    ensures (FieldEnd(b, off) == Malformed <==> at + size > |b|) <==> at + size < TWO64
    ensures (FieldEnd(b, off).Skipped? && FieldEnd(b, off).n < at) <==> at + size >= TWO64
  {
    FieldEndIs(b, off, at, size);
  }

  /** No buffer makes a slice expression panic, and what is skipped lies inside it. */
  lemma {:induction false} FieldsEndInside(b: bytes, off: nat, count: nat)
    requires off <= |b| < TWO64 / 2
    ensures var r := FieldsEnd(b, off, count); r == Malformed || (r.Skipped? && 0 <= r.n <= |b|)
    decreases count
  {
    if count > 0 && FieldEnd(b, off).Skipped? {
      UvarintBounds(b[off..]);
      var tag := Decode(b[off..], 0);
      UvarintBounds(b[off + tag.n..]);
      var len := Decode(b[off + tag.n..], 0);
      FieldEndIs(b, off, off + tag.n + len.n, len.value);
      FieldsEndInside(b, FieldEnd(b, off).n, count - 1);
    }
  }

  lemma {:induction false} SectionEndInside(b: bytes)
    requires |b| < TWO64 / 2
    ensures var r := SectionEnd(b); r == Malformed || (r.Skipped? && 0 <= r.n <= |b|)
  {
    UvarintBounds(b);
    if Decode(b, 0).Ok? {
      FieldsEndInside(b, Decode(b, 0).n, Decode(b, 0).value);
    }
  }

  /** One tag whose size is 2 to the 64 less `back`: the section is accepted and ends that many
      bytes before the end of its own size field. */
  lemma {:induction false} WrappedSizeGoesBack(back: nat, rest: bytes)
    requires 0 < back <= 12 && |rest| < TWO64 / 2 - 12
    ensures |Encode(TWO64 - back)| == 10
    ensures SectionEnd([1, 0] + Encode(TWO64 - back) + rest) == Skipped(12 - back)
  {
    var size := Encode(TWO64 - back);
    var b := [1, 0] + size + rest;
    TenBytes(TWO64 - back);
    assert b[1..] == [0] + (size + rest) && b[2..] == size + rest;
    RoundTrip(TWO64 - back, rest);
    assert Decode(b, 0) == Ok(1, 1) && Decode(b[1..], 0) == Ok(0, 1);
    assert SizeAt(b, 1, 12, TWO64 - back);
    FieldEndIs(b, 1, 12, TWO64 - back);
    assert FieldsEnd(b, 12 - back, 0) == Skipped(12 - back);
  }

  lemma {:induction false} EncodeLength(x: nat, n: nat)
    requires Pow128(n) <= x < Pow128(n + 1)
    ensures |Encode(x)| == n + 1
    decreases x
  {
    if n > 0 {
      Pow128Grows(1, n);
      EncodeLength(x / 128, n - 1);
    }
  }

  lemma {:induction false} TenBytes(x: nat)
    requires TWO64 / 2 <= x < TWO64
    ensures |Encode(x)| == 10
  {
    Uint64Limit();
    EncodeLength(x, 9);
  }

  // ---- how long it takes ------------------------------------------------------------------

  /** No field met on the way has a size that wraps. */
  ghost predicate NoneWraps(b: bytes, off: int, count: nat)
    decreases count
  {
    count == 0 || !(0 <= off <= |b|) ||
    (&& (forall at: nat, size: nat | SizeAt(b, off, at, size) :: at + size < TWO64)
     && (FieldEnd(b, off).Skipped? ==> NoneWraps(b, FieldEnd(b, off).n, count - 1)))
  }

  /** Then every turn but the last takes two bytes of the buffer. */
  lemma {:induction false} TurnsAreFew(b: bytes, off: nat, count: nat)
    requires off <= |b| < TWO64 / 2 && NoneWraps(b, off, count)
    ensures 2 * Turns(b, off, count) <= |b| - off + 2
    decreases count
  {
    if count > 0 && FieldEnd(b, off).Skipped? {
      var at, size := FieldSize(b, off);
      FieldEndIs(b, off, at, size);
      TurnsAreFew(b, at + size, count - 1);
    }
  }

  lemma {:induction false} FieldSize(b: bytes, off: nat) returns (at: nat, size: nat)
    requires off <= |b| && FieldEnd(b, off).Skipped?
    ensures SizeAt(b, off, at, size) && at >= off + 2
  {
    var tag := Decode(b[off..], 0);
    UvarintBounds(b[off..]);
    var len := Decode(b[off + tag.n..], 0);
    UvarintBounds(b[off + tag.n..]);
    at, size := off + tag.n + len.n, len.value;
  }

  /** While no size wraps, a section is skipped in at most as many turns as it has bytes. */
  lemma {:induction false} SectionTurnsBounded(b: bytes)
    requires |b| < TWO64 / 2 && (Decode(b, 0).Ok? ==> NoneWraps(b, Decode(b, 0).n, Decode(b, 0).value))
    ensures SectionTurns(b) <= |b|
  {
    UvarintBounds(b);
    if Decode(b, 0).Ok? {
      TurnsAreFew(b, Decode(b, 0).n, Decode(b, 0).value);
    }
  }

  /** A buffer of at most 21 bytes and whatever follows, on which the loop reads one and the
      same tag as often as the count says, up to 2 to the 64 times. */
  lemma {:induction false} OneTagManyTurns(count: nat, rest: bytes)
    requires count < TWO64 && |rest| < TWO64 / 2 - 21
    ensures var b := Encode(count) + [0] + Encode(TWO64 - 11);
            && |b| <= 21
            && SectionTurns(b + rest) == count && SectionEnd(b + rest) == Skipped(|Encode(count)|)
  {
    var head, size := Encode(count), Encode(TWO64 - 11);
    var b := head + [0] + size + rest;
    var off := |head|;
    RoundTrip(count, [0] + size + rest);
    assert b == head + ([0] + size + rest);
    UvarintBounds(b);
    TenBytes(TWO64 - 11);
    StandsStill(head, rest);
    SpinsOn(b, off, count);
  }

  lemma {:induction false} StandsStill(head: bytes, rest: bytes)
    requires |head| <= 10 && |rest| < TWO64 / 2 - 21
    ensures FieldEnd(head + [0] + Encode(TWO64 - 11) + rest, |head|) == Skipped(|head|)
  {
    var size, off := Encode(TWO64 - 11), |head|;
    var b := head + [0] + size + rest;
    TenBytes(TWO64 - 11);
    RoundTrip(TWO64 - 11, rest);
    assert b[off..] == [0] + (size + rest) && b[off + 1..] == size + rest;
    assert Decode(b[off..], 0) == Ok(0, 1);
    assert SizeAt(b, off, off + 11, TWO64 - 11);
    FieldEndIs(b, off, off + 11, TWO64 - 11);
  }

  lemma {:induction false} SpinsOn(b: bytes, off: nat, count: nat)
    requires off <= |b| && FieldEnd(b, off) == Skipped(off)
    ensures Turns(b, off, count) == count && FieldsEnd(b, off, count) == Skipped(off)
  {
    if count > 0 {
      SpinsOn(b, off, count - 1);
    }
  }
}
