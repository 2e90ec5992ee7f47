/** One request frame: size prefix, header, client id, tagged fields, body. */
module Requests {
  import opened Bytes
  import opened Varint

  const MAX_FRAME := 16 * 1024 * 1024

  datatype Header = Header(apiKey: int, apiVersion: int, correlationId: int, clientId: bytes)

  datatype ReadResult = Request(header: Header, body: bytes) | Failed | Panics

  function Int16At(b: bytes, at: nat): int
    requires at + 2 <= |b|
  {
    Signed(FromBE(b, at, 2), 2)
  }

  function Int32At(b: bytes, at: nat): int
    requires at + 4 <= |b|
  {
    Signed(FromBE(b, at, 4), 4)
  }

  /** Which API versions use the flexible header is decided elsewhere. */
  type Flexible = (int, int) -> bool

  /** readRequest on what the connection delivers. */
  method ReadRequest(wire: bytes, maxBytes: int, flexible: Flexible) returns (r: ReadResult)
    ensures r == Parse(wire, maxBytes, flexible)
  {
    if |wire| < 4 {
      return Failed;
    }
    var size := Int32At(wire, 0);
    if size <= 0 || size > maxBytes || size > MAX_FRAME {
      return Failed;
    }
    if |wire| < 4 + size {
      return Failed;
    }
    var frame := wire[4..4 + size];
    if |frame| < 8 {
      return Failed;
    }
    var apiKey, apiVersion, correlationId := Int16At(frame, 0), Int16At(frame, 2), Int32At(frame, 4);
    if |frame| < 10 {
      return Failed;
    }
    var clientIdLen := Int16At(frame, 8);
    var clientId: bytes := [];
    var bodyStart: int := 10;
    if clientIdLen >= 0 {
      var end := bodyStart + clientIdLen;
      if end > |frame| {
        return Failed;
      }
      clientId := frame[bodyStart..end];
      bodyStart := end;
    }
    if flexible(apiKey, apiVersion) {
      var skip, _ := SkipTaggedFields(frame[bodyStart..]);
      match skip {
        case Malformed => return Failed;
        case OutOfBounds => return Panics;
        case Skipped(n) => bodyStart := bodyStart + n;
      }
      if !(0 <= bodyStart <= |frame|) {
        return Panics;
      }
    }
    return Request(Header(apiKey, apiVersion, correlationId, clientId), frame[bodyStart..]);
  }

  function Parse(wire: bytes, maxBytes: int, flexible: Flexible): ReadResult {
    if |wire| < 4 then Failed
    else
      var size := Int32At(wire, 0);
      if size <= 0 || size > maxBytes || size > MAX_FRAME || |wire| < 4 + size then Failed
      else ParseFrame(wire[4..4 + size], flexible)
  }

  function ParseFrame(frame: bytes, flexible: Flexible): ReadResult {
    if |frame| < 10 then Failed
    else
      var len := Int16At(frame, 8);
      var end := if len >= 0 then 10 + len else 10;
      if end > |frame| then Failed
      else
        var header := Header(Int16At(frame, 0), Int16At(frame, 2), Int32At(frame, 4), frame[10..end]);
        if flexible(header.apiKey, header.apiVersion) then
          match SectionEnd(frame[end..])
          case Malformed => Failed
          case OutOfBounds => Panics
          case Skipped(n) => if 0 <= end + n <= |frame| then Request(header, frame[end + n..]) else Panics
        else Request(header, frame[end..])
  }

  /** Whatever arrives on the connection, reading a request does not panic. */
  lemma NeverPanics(wire: bytes, maxBytes: int, flexible: Flexible)
    ensures Parse(wire, maxBytes, flexible) != Panics
  {
    if |wire| >= 4 {
      var size := Int32At(wire, 0);
      if !(size <= 0 || size > maxBytes || size > MAX_FRAME || |wire| < 4 + size) {
        FrameNeverPanics(wire[4..4 + size], flexible);
      }
    }
  }

  lemma FrameNeverPanics(frame: bytes, flexible: Flexible)
    requires |frame| <= MAX_FRAME
    ensures ParseFrame(frame, flexible) != Panics
  {
    if |frame| >= 10 {
      var len := Int16At(frame, 8);
      var end := if len >= 0 then 10 + len else 10;
      if end <= |frame| {
        SectionEndInside(frame[end..]);
      }
    }
  }

  /** A request is read only from a whole frame within both limits, and its client id and body come
      from that frame. */
  lemma FrameWithinLimits(wire: bytes, maxBytes: int, flexible: Flexible)
    requires Parse(wire, maxBytes, flexible).Request?
    ensures |wire| >= 14 && 10 <= Int32At(wire, 0) <= |wire| - 4
    ensures Int32At(wire, 0) <= maxBytes && Int32At(wire, 0) <= MAX_FRAME
    ensures var r := Parse(wire, maxBytes, flexible);
            10 + |r.header.clientId| <= Int32At(wire, 0) && |r.body| <= Int32At(wire, 0)
  {
  }

  // ---- what a client sends ------------------------------------------------------------

  datatype ClientId = Null | Named(name: bytes)

  function EncodeClientId(id: ClientId): bytes {
    match id
    case Null => ToBE(-1 % TWO16, 2)
    case Named(name) => ToBE(|name|, 2) + name
  }

  function EncodeHead(apiKey: int, apiVersion: int, correlationId: int): bytes {
    ToBE(apiKey % TWO16, 2) + ToBE(apiVersion % TWO16, 2) + ToBE(correlationId % TWO32, 4)
  }

  /** A frame as the protocol lays it out; flexible versions carry a tag section. */
  function EncodeFrame(apiKey: int, apiVersion: int, correlationId: int, id: ClientId,
                       tags: seq<Tag>, body: bytes, flexible: Flexible): bytes {
    EncodeHead(apiKey, apiVersion, correlationId) + EncodeClientId(id)
    + (if flexible(apiKey, apiVersion) then EncodeSection(tags) else []) + body
  }

  lemma HeadReads(apiKey: int, apiVersion: int, correlationId: int, rest: bytes)
    requires -(TWO16 / 2) <= apiKey < TWO16 / 2 && -(TWO16 / 2) <= apiVersion < TWO16 / 2
    requires -(TWO32 / 2) <= correlationId < TWO32 / 2
    ensures var f := EncodeHead(apiKey, apiVersion, correlationId) + rest;
            Int16At(f, 0) == apiKey && Int16At(f, 2) == apiVersion && Int32At(f, 4) == correlationId
  {
    var k, v, c := ToBE(apiKey % TWO16, 2), ToBE(apiVersion % TWO16, 2), ToBE(correlationId % TWO32, 4);
    var f := EncodeHead(apiKey, apiVersion, correlationId) + rest;
    assert f[0..2] == k && f[2..4] == v && f[4..8] == c;
    FromBEShift(f, 0, k);
    FromBEShift(f, 2, v);
    FromBEShift(f, 4, c);
    Int16RoundTrip(apiKey);
    Int16RoundTrip(apiVersion);
    Int32RoundTrip(correlationId);
  }

  lemma ClientIdReads(head: bytes, id: ClientId, rest: bytes)
    requires |head| == 8 && (id.Named? ==> |id.name| < TWO16 / 2)
    ensures var f := head + EncodeClientId(id) + rest;
            && Int16At(f, 8) == (if id.Null? then -1 else |id.name|)
            && (id.Named? ==> f[10..10 + |id.name|] == id.name)
  {
    var f := head + EncodeClientId(id) + rest;
    var len := if id.Null? then -1 else |id.name|;
    var enc := ToBE(len % TWO16, 2);
    assert f[8..10] == enc;
    FromBEShift(f, 8, enc);
    Int16RoundTrip(len);
  }

  /** Reading a request returns the header that was sent and exactly the body,
      whatever tags stand between them and whatever follows on the connection. */
  lemma RequestRoundTrip(apiKey: int, apiVersion: int, correlationId: int, id: ClientId,
                         tags: seq<Tag>, body: bytes, rest: bytes, maxBytes: int, flexible: Flexible)
    requires -(TWO16 / 2) <= apiKey < TWO16 / 2 && -(TWO16 / 2) <= apiVersion < TWO16 / 2
    requires -(TWO32 / 2) <= correlationId < TWO32 / 2
    requires id.Named? ==> |id.name| < TWO16 / 2
    requires forall t :: t in tags ==> Sendable(t)
    requires var frame := EncodeFrame(apiKey, apiVersion, correlationId, id, tags, body, flexible);
             |frame| <= maxBytes && |frame| <= MAX_FRAME
    ensures var frame := EncodeFrame(apiKey, apiVersion, correlationId, id, tags, body, flexible);
            Parse(ToBE(|frame|, 4) + frame + rest, maxBytes, flexible) ==
            Request(Header(apiKey, apiVersion, correlationId, if id.Null? then [] else id.name), body)
  {
    var frame := EncodeFrame(apiKey, apiVersion, correlationId, id, tags, body, flexible);
    FrameReads(apiKey, apiVersion, correlationId, id, tags, body, flexible);
    WireReads(frame, rest);
  }

  /** A length-prefixed frame is cut off the wire again. */
  lemma WireReads(frame: bytes, rest: bytes)
    requires |frame| <= MAX_FRAME
    ensures var wire := ToBE(|frame|, 4) + frame + rest;
            Int32At(wire, 0) == |frame| && wire[4..4 + |frame|] == frame
  {
    var prefix := ToBE(|frame|, 4);
    var wire := prefix + frame + rest;
    assert wire[0..4] == prefix && wire[4..4 + |frame|] == frame;
    FromBEShift(wire, 0, prefix);
    assert |frame| % TWO32 == |frame|;
    Int32RoundTrip(|frame|);
  }

  lemma FrameReads(apiKey: int, apiVersion: int, correlationId: int, id: ClientId,
                   tags: seq<Tag>, body: bytes, flexible: Flexible)
    requires -(TWO16 / 2) <= apiKey < TWO16 / 2 && -(TWO16 / 2) <= apiVersion < TWO16 / 2
    requires -(TWO32 / 2) <= correlationId < TWO32 / 2
    requires id.Named? ==> |id.name| < TWO16 / 2
    requires forall t :: t in tags ==> Sendable(t)
    requires |EncodeFrame(apiKey, apiVersion, correlationId, id, tags, body, flexible)| <= MAX_FRAME
    ensures ParseFrame(EncodeFrame(apiKey, apiVersion, correlationId, id, tags, body, flexible), flexible) ==
            Request(Header(apiKey, apiVersion, correlationId, if id.Null? then [] else id.name), body)
  {
    if flexible(apiKey, apiVersion) {
      SkipsSection(tags, body);
      FrameAt(apiKey, apiVersion, correlationId, id, EncodeSection(tags), body, |EncodeSection(tags)|, flexible);
    } else {
      FrameAt(apiKey, apiVersion, correlationId, id, [], body, 0, flexible);
    }
  }

  /** The body begins where the tag section is found to end. */
  lemma FrameAt(apiKey: int, apiVersion: int, correlationId: int, id: ClientId, section: bytes, body: bytes, n: nat,
                flexible: Flexible)
    requires -(TWO16 / 2) <= apiKey < TWO16 / 2 && -(TWO16 / 2) <= apiVersion < TWO16 / 2
    requires -(TWO32 / 2) <= correlationId < TWO32 / 2
    requires id.Named? ==> |id.name| < TWO16 / 2
    requires if flexible(apiKey, apiVersion) then SectionEnd(section + body) == Skipped(n) else n == 0
    requires n <= |section|
    ensures ParseFrame(EncodeHead(apiKey, apiVersion, correlationId) + EncodeClientId(id) + section + body, flexible)
            == Request(Header(apiKey, apiVersion, correlationId, if id.Null? then [] else id.name), section[n..] + body)
  {
    var head, cid := EncodeHead(apiKey, apiVersion, correlationId), EncodeClientId(id);
    Pieces(head, cid, section, body, n);
    HeadReads(apiKey, apiVersion, correlationId, cid + section + body);
    ClientIdReads(head, id, section + body);
  }

  /** A frame with one tag whose size wraps is read without complaint, its body beginning
      `back` bytes too early. */
  lemma WrappedSizeShiftsBody(apiKey: int, apiVersion: int, correlationId: int, id: ClientId, back: nat, body: bytes,
                              flexible: Flexible)
    requires -(TWO16 / 2) <= apiKey < TWO16 / 2 && -(TWO16 / 2) <= apiVersion < TWO16 / 2
    requires -(TWO32 / 2) <= correlationId < TWO32 / 2
    requires id.Named? ==> |id.name| < TWO16 / 2
    requires 0 < back <= 12 && |body| <= MAX_FRAME && flexible(apiKey, apiVersion)
    ensures var section := [1, 0] + Encode(TWO64 - back);
            var frame := EncodeHead(apiKey, apiVersion, correlationId) + EncodeClientId(id) + section + body;
            && |section| == 12
            && ParseFrame(frame, flexible)
               == Request(Header(apiKey, apiVersion, correlationId, if id.Null? then [] else id.name),
                          section[12 - back..] + body)
  {
    WrappedSizeGoesBack(back, body);
    FrameAt(apiKey, apiVersion, correlationId, id, [1, 0] + Encode(TWO64 - back), body, 12 - back, flexible);
  }

  lemma Pieces(head: bytes, cid: bytes, section: bytes, body: bytes, n: nat)
    requires n <= |section|
    ensures var frame, end := head + cid + section + body, |head| + |cid|;
            && frame == head + (cid + section + body) && frame == head + cid + (section + body)
            && frame[end..] == section + body && frame[end + n..] == section[n..] + body
  {
  }
}
