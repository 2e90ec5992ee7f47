/** Byte strings made of whole record batches. Recovery, trimming a fetch and
    splitting a Produce request are one left-to-right scan with different tests. */
module Framing {
  import opened Bytes
  import opened Record

  function Join(bs: seq<bytes>): bytes {
    if bs == [] then [] else bs[0] + Join(bs[1..])
  }

  /** A per-batch test applied on top of framing. */
  type Test = bytes -> bool

  predicate Any(b: bytes) { true }

  function CrcTest(crc: Checksum): Test {
    b => CrcMatches(crc, b)
  }

  ghost predicate AllFramed(ok: Test, bs: seq<bytes>) {
    forall i :: 0 <= i < |bs| ==> Framed(bs[i]) && ok(bs[i])
  }

  /** Does an acceptable whole batch start the data? */
  predicate Starts(ok: Test, data: bytes) {
    Parses(data) && TotalSize(data) <= |data| && ok(data[..TotalSize(data)])
  }

  /** The batches a scan accepts before it stops. */
  function Scan(ok: Test, data: bytes): seq<bytes> {
    if !Starts(ok, data) then []
    else var n := TotalSize(data); [data[..n]] + Scan(ok, data[n..])
  }

  // ---- Join ----------------------------------------------------------------

  lemma {:induction false} JoinConcat(a: seq<bytes>, b: seq<bytes>)
    ensures Join(a + b) == Join(a) + Join(b)
  {
    if a == [] {
      assert a + b == b;
    } else {
      calc {
        Join(a + b);
        { assert (a + b)[1..] == a[1..] + b; }
        a[0] + Join(a[1..] + b);
        { JoinConcat(a[1..], b); }
        a[0] + (Join(a[1..]) + Join(b));
        a[0] + Join(a[1..]) + Join(b);
      }
    }
  }

  lemma {:induction false} JoinSnoc(a: seq<bytes>, b: bytes)
    ensures Join(a + [b]) == Join(a) + b
  {
    JoinConcat(a, [b]);
    assert Join([b]) == b;
  }

  lemma {:induction false} JoinSplit(bs: seq<bytes>, k: nat)
    requires k <= |bs|
    ensures Join(bs) == Join(bs[..k]) + Join(bs[k..])
    ensures |Join(bs[..k])| <= |Join(bs)|
  {
    JoinConcat(bs[..k], bs[k..]);
    assert bs[..k] + bs[k..] == bs;
  }

  // ---- Scan finds the longest run -------------------------------------------

  /** A framed batch is recognised at the head of any data it starts. */
  lemma FramedHead(b: bytes, rest: bytes)
    requires Framed(b)
    ensures Parses(b + rest) && TotalSize(b + rest) == |b|
    ensures (b + rest)[..|b|] == b && (b + rest)[|b|..] == rest
  {
    HeaderIsLocal(b, b + rest);
  }

  lemma CutHead(data: bytes)
    requires Parses(data) && TotalSize(data) <= |data|
    ensures Framed(data[..TotalSize(data)])
    ensures data == data[..TotalSize(data)] + data[TotalSize(data)..]
  {
    var n := TotalSize(data);
    HeaderIsLocal(data, data[..n]);
  }

  /** What a scan keeps is a run of acceptable batches starting the data. */
  lemma {:induction false} ScanSound(ok: Test, data: bytes)
    ensures AllFramed(ok, Scan(ok, data))
    ensures Join(Scan(ok, data)) <= data
    decreases |data|
  {
    if Starts(ok, data) {
      CutHead(data);
      var n := TotalSize(data);
      ScanSound(ok, data[n..]);
      assert Scan(ok, data)[1..] == Scan(ok, data[n..]);
    }
  }

  /** A scan runs through a leading run of acceptable batches and goes on. */
  lemma {:induction false} ScanThrough(ok: Test, bs: seq<bytes>, rest: bytes)
    requires AllFramed(ok, bs)
    ensures Scan(ok, Join(bs) + rest) == bs + Scan(ok, rest)
  {
    if bs == [] {
      assert Join(bs) + rest == rest;
    } else {
      var tail := Join(bs[1..]) + rest;
      FramedHead(bs[0], tail);
      calc {
        Scan(ok, Join(bs) + rest);
        { assert Join(bs) + rest == bs[0] + tail; }
        Scan(ok, bs[0] + tail);
        [bs[0]] + Scan(ok, tail);
        { ScanThrough(ok, bs[1..], rest); }
        [bs[0]] + (bs[1..] + Scan(ok, rest));
        { assert bs == [bs[0]] + bs[1..]; }
        bs + Scan(ok, rest);
      }
    }
  }

  /** Whatever the bytes, a scan keeps exactly the longest leading run of
      acceptable whole batches: it is one, and every other one is a prefix of it. */
  lemma {:induction false} ScanIsLongest(ok: Test, data: bytes, bs: seq<bytes>)
    ensures AllFramed(ok, Scan(ok, data)) && Join(Scan(ok, data)) <= data
    ensures AllFramed(ok, bs) && Join(bs) <= data <==> bs <= Scan(ok, data)
  {
    ScanSound(ok, data);
    if AllFramed(ok, bs) && Join(bs) <= data {
      ScanReaches(ok, data, bs);
    }
    if bs <= Scan(ok, data) {
      PrefixJoins(ok, bs, Scan(ok, data));
    }
  }

  lemma {:induction false} ScanReaches(ok: Test, data: bytes, bs: seq<bytes>)
    requires AllFramed(ok, bs) && Join(bs) <= data
    ensures bs <= Scan(ok, data)
  {
    var rest := data[|Join(bs)|..];
    ScanThrough(ok, bs, rest);
    assert Join(bs) + rest == data;
  }

  lemma {:induction false} PrefixJoins(ok: Test, bs: seq<bytes>, kept: seq<bytes>)
    requires AllFramed(ok, kept) && bs <= kept
    ensures AllFramed(ok, bs) && Join(bs) <= Join(kept)
  {
    JoinSplit(kept, |bs|);
    assert kept[..|bs|] == bs;
  }

  /** Framed batches can be read back from their concatenation in one way only. */
  lemma {:induction false} ScanOfJoin(ok: Test, bs: seq<bytes>)
    requires AllFramed(ok, bs)
    ensures Scan(ok, Join(bs)) == bs
  {
    ScanThrough(ok, bs, []);
    assert Join(bs) + [] == Join(bs);
    assert !Starts(ok, []);
    assert Scan(ok, []) == [];
  }

  /** Scanning again what a scan kept keeps all of it. */
  lemma {:induction false} ScanIdempotent(ok: Test, data: bytes)
    ensures Scan(ok, Join(Scan(ok, data))) == Scan(ok, data)
  {
    ScanSound(ok, data);
    ScanOfJoin(ok, Scan(ok, data));
  }

  // ---- cutting a run of batches at a byte -------------------------------------

  /** How many leading batches fit whole in k bytes. */
  function Fit(bs: seq<bytes>, k: int): (n: nat)
    ensures n <= |bs|
  {
    if bs == [] || |bs[0]| > k then 0 else 1 + Fit(bs[1..], k - |bs[0]|)
  }

  /** Fit is the largest count whose batches take at most k bytes. */
  lemma {:induction false} FitIsLargest(bs: seq<bytes>, k: nat, n: nat)
    requires n <= |bs|
    ensures n <= Fit(bs, k) <==> |Join(bs[..n])| <= k
  {
    if n == 0 {
      assert Join(bs[..n]) == [];
    } else {
      assert bs[..n][1..] == bs[1..][..n - 1];
      if |bs[0]| <= k {
        FitIsLargest(bs[1..], k - |bs[0]|, n - 1);
      }
    }
  }

  /** A file of whole batches, cut at any byte, scans to exactly the batches
      that survived whole. */
  lemma {:induction false} ScanOfCut(ok: Test, bs: seq<bytes>, k: nat)
    requires AllFramed(ok, bs)
    requires k <= |Join(bs)|
    ensures Scan(ok, Join(bs)[..k]) == bs[..Fit(bs, k)]
  {
    if bs == [] {
      assert Join(bs)[..k] == [];
      assert !Starts(ok, []);
    } else {
      var cut := Join(bs)[..k];
      var b := bs[0];
      if |b| <= k {
        var rest := Join(bs[1..])[..k - |b|];
        assert cut == b + rest;
        FramedHead(b, rest);
        ScanOfCut(ok, bs[1..], k - |b|);
        assert bs[..Fit(bs, k)] == [b] + bs[1..][..Fit(bs[1..], k - |b|)];
      } else if k >= HEADER_SIZE {
        HeaderIsLocal(cut, b);
      }
    }
  }

  // ---- splitBatches (internal/wire/produce.go) and trimToBatchBoundary --------

  /** A scan of data has accepted `done` and stands at byte pos. */
  ghost predicate Reached(ok: Test, data: bytes, done: seq<bytes>, pos: int) {
    0 <= pos <= |data| && data[..pos] == Join(done) && AllFramed(ok, done)
  }

  /** The header read at the scan's position decides the next step. */
  lemma ReadHeader(data: bytes, pos: nat)
    requires pos + HEADER_SIZE <= |data|
    ensures ParseBatchHeader(data[pos..pos + HEADER_SIZE]).Ok? <==> Parses(data[pos..])
    ensures Parses(data[pos..]) ==>
              ParseBatchHeader(data[pos..pos + HEADER_SIZE]).value == Header(data[pos..])
  {
    HeaderIsLocal(data[pos..pos + HEADER_SIZE], data[pos..]);
  }

  lemma DropSlice(data: bytes, pos: nat, n: nat)
    requires pos + n <= |data|
    ensures data[pos..][..n] == data[pos..pos + n]
    ensures data[pos..][n..] == data[pos + n..]
    ensures data[..pos + n] == data[..pos] + data[pos..pos + n]
  {
  }

  lemma ReachedStep(ok: Test, data: bytes, done: seq<bytes>, pos: nat, b: bytes)
    requires Reached(ok, data, done, pos)
    requires Starts(ok, data[pos..]) && b == data[pos..pos + TotalSize(data[pos..])]
    ensures Reached(ok, data, done + [b], pos + |b|)
  {
    DropSlice(data, pos, |b|);
    CutHead(data[pos..]);
    JoinSnoc(done, b);
  }

  lemma {:induction false} ReachedEnd(ok: Test, data: bytes, done: seq<bytes>, pos: nat)
    requires Reached(ok, data, done, pos)
    requires !Starts(ok, data[pos..])
    ensures Scan(ok, data) == done && Join(Scan(ok, data)) == data[..pos]
  {
    ScanThrough(ok, done, data[pos..]);
    assert data == data[..pos] + data[pos..];
    assert done + [] == done;
  }

  datatype SplitResult = Batches(batches: seq<bytes>) | Refused

  /** Is the data a concatenation of framed batches? */
  ghost predicate Splits(data: bytes) {
    exists bs :: AllFramed(Any, bs) && Join(bs) == data
  }

  /** It is exactly when the scan reaches its end. */
  lemma {:induction false} SplitsWhenScanned(data: bytes)
    ensures Splits(data) <==> Join(Scan(Any, data)) == data
    ensures forall bs :: AllFramed(Any, bs) && Join(bs) == data ==> bs == Scan(Any, data)
    ensures AllFramed(Any, Scan(Any, data))
  {
    ScanSound(Any, data);
    forall bs | AllFramed(Any, bs) && Join(bs) == data
      ensures bs == Scan(Any, data)
    {
      ScanOfJoin(Any, bs);
    }
  }

  /** Succeeds exactly on concatenations of framed batches, with the one list
      of batches that rejoins to the input. */
  method SplitBatches(data: bytes) returns (r: SplitResult)
    ensures r.Batches? <==> Splits(data)
    ensures r.Batches? ==> AllFramed(Any, r.batches) && Join(r.batches) == data
  {
    SplitsWhenScanned(data);
    var out: seq<bytes> := [];
    var pos := 0;
    while pos < |data|
      invariant Reached(Any, data, out, pos)
      decreases |data| - pos
    {
      if pos + HEADER_SIZE > |data| {
        ReachedEnd(Any, data, out, pos);
        return Refused;
      }
      ReadHeader(data, pos);
      var hdr := ParseBatchHeader(data[pos..pos + HEADER_SIZE]);
      if hdr.Err? {
        ReachedEnd(Any, data, out, pos);
        return Refused;
      }
      var end := pos + hdr.value.TotalSize();
      if end > |data| {
        ReachedEnd(Any, data, out, pos);
        return Refused;
      }
      ReachedStep(Any, data, out, pos, data[pos..end]);
      out := out + [data[pos..end]];
      pos := end;
    }
    ReachedEnd(Any, data, out, pos);
    assert data[..pos] == data;
    r := Batches(out);
  }

  /** Cuts the buffer after its last whole batch. */
  method TrimToBatchBoundary(buf: bytes) returns (trimmed: bytes)
    ensures trimmed == Join(Scan(Any, buf))
  {
    var pos := 0;
    ghost var done: seq<bytes> := [];
    while pos < |buf|
      invariant Reached(Any, buf, done, pos)
      invariant pos == |buf| ==> !Starts(Any, buf[pos..])
      decreases |buf| - pos
    {
      if pos + HEADER_SIZE > |buf| {
        break;
      }
      ReadHeader(buf, pos);
      var h := ParseBatchHeader(buf[pos..pos + HEADER_SIZE]);
      if h.Err? {
        break;
      }
      var end := pos + h.value.TotalSize();
      if end > |buf| {
        break;
      }
      ReachedStep(Any, buf, done, pos, buf[pos..end]);
      done := done + [buf[pos..end]];
      pos := end;
    }
    ReachedEnd(Any, buf, done, pos);
    trimmed := buf[..pos];
  }
}
