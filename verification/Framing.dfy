/** Messages on a TCP stream: a length, a version byte, the body and an
    authentication tag (TcpConnection in join.rs, seal and open in auth.rs). */
module Framing {
  import opened Types

  type Byte = n: nat | n < 256
  type Bytes = seq<Byte>

  const MAX_FRAME_LEN: nat := 4 * 1024 * 1024
  const MAX_U32: nat := 0xFFFF_FFFF
  const PROTOCOL_VERSION: Byte := 6

  /** The byte layout of bodies and the keyed tag, whatever they are. `decode` gets the
      payload with its version byte, as the serializer does. */
  datatype Codec = Codec(encode: TcpBody -> Bytes, decode: Bytes -> Option<TcpBody>, tag: Bytes -> Bytes) {

    function Payload(body: TcpBody): Bytes { [PROTOCOL_VERSION] + encode(body) }

    function Seal(message: Bytes): Bytes { message + tag(message) }

    function Open(sealed: Bytes): Option<Bytes> {
      if |sealed| < TAG_LEN then None
      else
        var split := |sealed| - TAG_LEN;
        if tag(sealed[..split]) == sealed[split..] then Some(sealed[..split]) else None
    }

    /** What a body takes on the wire, without its length prefix. */
    function Sealed(body: TcpBody): Bytes { Seal(Payload(body)) }

    /** Decoding undoes encoding, and tags have one size. */
    ghost predicate Ok() {
      && (forall body :: decode(Payload(body)) == Some(body))
      && (forall m :: |tag(m)| == TAG_LEN)
    }
  }

  // ---- One frame ------------------------------------------------------------------

  function Be32(n: nat): (b: Bytes)
    requires n <= MAX_U32
    ensures |b| == 4
  {
    [n / 0x100_0000, n / 0x1_0000 % 256, n / 256 % 256, n % 256]
  }

  function FromBe32(b: Bytes): nat
    requires |b| == 4
  {
    var b0: nat, b1: nat, b2: nat, b3: nat := b[0], b[1], b[2], b[3];
    b0 * 0x100_0000 + b1 * 0x1_0000 + b2 * 256 + b3
  }

  /** The highest byte comes first, and reading the four undoes writing them. */
  lemma Be32RoundTrip(n: nat)
    requires n <= MAX_U32
    ensures FromBe32(Be32(n)) == n
    ensures var b := Be32(n);
            n == b[0] as nat * 0x100_0000 + b[1] as nat * 0x1_0000 + b[2] as nat * 256 + b[3] as nat
  {
    assert n == n / 256 * 256 + n % 256;
    assert n / 256 == n / 256 / 256 * 256 + n / 256 % 256;
    assert n / 0x1_0000 == n / 0x1_0000 / 256 * 256 + n / 0x1_0000 % 256;
  }

  /** None for a payload whose length does not fit the prefix. */
  function Frame(codec: Codec, body: TcpBody): Option<Bytes> {
    var payload := codec.Sealed(body);
    if |payload| > MAX_U32 then None else Some(Be32(|payload|) + payload)
  }

  datatype Parsed = NeedMore | Bad | Got(body: TcpBody, rest: Bytes)

  function ParsePayload(codec: Codec, payload: Bytes): Option<TcpBody> {
    if payload == [] || payload[0] != PROTOCOL_VERSION then None
    else
      match codec.Open(payload)
      case None => None
      case Some(message) => codec.decode(message)
  }

  /** What the front of the buffer is. */
  function Parse(codec: Codec, buffer: Bytes): Parsed {
    if |buffer| < 4 then NeedMore
    else
      var len := FromBe32(buffer[..4]);
      if len > MAX_FRAME_LEN then Bad
      else if |buffer| < len + 4 then NeedMore
      else
        match ParsePayload(codec, buffer[4..4 + len])
        case None => Bad
        case Some(body) => Got(body, buffer[4 + len..])
  }

  datatype ReadResult = Body(body: TcpBody) | EndOfStream | Error

  /** Reading one frame off all the bytes that are still to come, and what is left of
      them afterwards. */
  function ReadNext(codec: Codec, stream: Bytes): (ReadResult, Bytes) {
    match Parse(codec, stream)
    case Got(body, rest) => (Body(body), rest)
    case Bad => (Error, stream)
    case NeedMore => (if stream == [] then EndOfStream else Error, stream)
  }

  /** Once the front of a buffer is settled, more bytes behind it change nothing. */
  lemma ParseIsSettled(codec: Codec, buffer: Bytes, more: Bytes)
    ensures Parse(codec, buffer) == Bad ==> Parse(codec, buffer + more) == Bad
    ensures Parse(codec, buffer).Got? ==>
      Parse(codec, buffer + more) == Got(Parse(codec, buffer).body, Parse(codec, buffer).rest + more)
  {
    if |buffer| >= 4 {
      var len := FromBe32(buffer[..4]);
      assert (buffer + more)[..4] == buffer[..4];
      if len + 4 <= |buffer| {
        assert (buffer + more)[4..4 + len] == buffer[4..4 + len];
        assert (buffer + more)[4 + len..] == buffer[4 + len..] + more;
      }
    }
  }

  // ---- The connection ---------------------------------------------------------------

  function Flatten(chunks: seq<Bytes>): Bytes {
    if chunks == [] then [] else chunks[0] + Flatten(chunks[1..])
  }

  lemma {:induction false} NothingLeft(chunks: seq<Bytes>)
    requires forall i :: 0 <= i < |chunks| ==> chunks[i] != []
    ensures Flatten(chunks) == [] <==> chunks == []
  {
  }

  class TcpConnection {
    const codec: Codec
    var buffer: Bytes
    /** What the peer's bytes will arrive as: each read takes the next piece whole. */
    var arriving: seq<Bytes>
    var sent: Bytes

    constructor (codec: Codec, arriving: seq<Bytes>)
      ensures this.codec == codec && this.arriving == arriving && buffer == [] && sent == []
    {
      this.codec, this.arriving, buffer, sent := codec, arriving, [], [];
    }

    ghost predicate Valid()
      reads this
    {
      forall i :: 0 <= i < |arriving| ==> arriving[i] != []
    }

    /** Everything not yet read as a frame. */
    function Unread(): Bytes
      reads this
    {
      buffer + Flatten(arriving)
    }

    method WriteFrame(body: TcpBody) returns (ok: bool)
      modifies this`sent
      ensures ok == Frame(codec, body).Some?
      ensures sent == if ok then old(sent) + Frame(codec, body).value else old(sent)
    {
      var payload := codec.Seal(codec.Payload(body));
      if |payload| > MAX_U32 {
        return false;
      }
      sent := sent + Be32(|payload|);
      sent := sent + payload;
      assert old(sent) + Be32(|payload|) + payload == old(sent) + (Be32(|payload|) + payload);
      return true;
    }

    /** Write until a body cannot be framed. */
    method WriteAllFrames(bodies: seq<TcpBody>) returns (ok: bool)
      modifies this`sent
      ensures sent == old(sent) + FrameAll(codec, bodies)
      ensures ok <==> forall i :: 0 <= i < |bodies| ==> Frame(codec, bodies[i]).Some?
    {
      ghost var goal := sent + FrameAll(codec, bodies);
      for i := 0 to |bodies|
        invariant sent + FrameAll(codec, bodies[i..]) == goal
        invariant forall j :: 0 <= j < i ==> Frame(codec, bodies[j]).Some?
      {
        OneMoreFrame(codec, bodies, i);
        ghost var before := sent;
        ok := WriteFrame(bodies[i]);
        if !ok {
          assert before + [] == before;
          return;
        }
        Regroup(before, Frame(codec, bodies[i]).value, FrameAll(codec, bodies[i + 1..]));
      }
      assert sent + [] == sent;
      return true;
    }

    method ParseFrame() returns (p: Parsed)
      modifies this`buffer
      ensures p == Parse(codec, old(buffer))
      ensures p.Got? ==> buffer == p.rest
      ensures p.NeedMore? ==> buffer == old(buffer)
    {
      if |buffer| < 4 {
        return NeedMore;
      }
      var len := FromBe32(buffer[..4]);
      if len > MAX_FRAME_LEN {
        return Bad;
      }
      if |buffer| < len + 4 {
        return NeedMore;
      }
      ghost var whole := buffer;
      buffer := buffer[4..];
      var payload := buffer[..len];
      buffer := buffer[len..];
      assert payload == whole[4..4 + len] && buffer == whole[4 + len..];
      if payload == [] || payload[0] != PROTOCOL_VERSION {
        return Bad;
      }
      var message := codec.Open(payload);
      if message == None {
        return Bad;
      }
      var body := codec.decode(message.value);
      return if body == None then Bad else Got(body.value, buffer);
    }

    /** However the bytes are cut into pieces, the next frame is the one at the front
        of all of them. */
    method ReadFrame() returns (r: ReadResult)
      requires Valid()
      modifies this`buffer, this`arriving
      ensures Valid()
      ensures r == ReadNext(codec, old(Unread())).0
      ensures r.Body? ==> Unread() == ReadNext(codec, old(Unread())).1
      decreases |arriving|
    {
      ghost var stream := Unread();
      while true
        invariant Valid() && Unread() == stream
        decreases |arriving|
      {
        ParseIsSettled(codec, buffer, Flatten(arriving));
        var p := ParseFrame();
        match p {
          case Got(body, _) => return Body(body);
          case Bad => return Error;
          case NeedMore =>
            NothingLeft(arriving);
            if arriving == [] {
              assert stream == buffer;
              return if buffer == [] then EndOfStream else Error;
            }
            assert buffer + Flatten(arriving) == (buffer + arriving[0]) + Flatten(arriving[1..]);
            buffer := buffer + arriving[0];
            arriving := arriving[1..];
        }
      }
    }

    /** Serve the connection until the peer hangs up or something is wrong. */
    method ReadAllFrames() returns (bodies: seq<TcpBody>, end: ReadResult)
      requires Valid()
      modifies this`buffer, this`arriving
      ensures (bodies, end) == ReadAll(codec, old(Unread()))
    {
      bodies := [];
      ghost var stream := Unread();
      assert [] + ReadAll(codec, stream).0 == ReadAll(codec, stream).0;
      while true
        invariant Valid()
        invariant ReadAll(codec, stream) == (bodies + ReadAll(codec, Unread()).0, ReadAll(codec, Unread()).1)
        decreases |Unread()|
      {
        ghost var before := Unread();
        RestIsShorter(codec, before);
        var r := ReadFrame();
        match r {
          case Body(body) =>
            var longer := bodies + [body];
            assert longer + ReadAll(codec, Unread()).0 == bodies + ReadAll(codec, before).0;
            bodies := longer;
          case _ =>
            assert bodies + [] == bodies;
            return bodies, r;
        }
      }
    }
  }

  // ---- A whole stream -----------------------------------------------------------------

  lemma RestIsShorter(codec: Codec, stream: Bytes)
    ensures ReadNext(codec, stream).0.Body? ==> |ReadNext(codec, stream).1| < |stream|
  {
  }

  function ReadAll(codec: Codec, stream: Bytes): (seq<TcpBody>, ReadResult)
    decreases |stream|
  {
    RestIsShorter(codec, stream);
    match ReadNext(codec, stream)
    case (Body(body), rest) =>
      var (bodies, end) := ReadAll(codec, rest);
      ([body] + bodies, end)
    case (end, _) => ([], end)
  }

  /** What writing the bodies one after the other puts on the stream, up to the first
      that cannot be written. */
  function FrameAll(codec: Codec, bodies: seq<TcpBody>): Bytes {
    if bodies == [] then []
    else
      match Frame(codec, bodies[0])
      case None => []
      case Some(frame) => frame + FrameAll(codec, bodies[1..])
  }

  lemma {:induction false} OneMoreFrame(codec: Codec, bodies: seq<TcpBody>, i: nat)
    requires i < |bodies|
    ensures FrameAll(codec, bodies[i..]) ==
      match Frame(codec, bodies[i])
      case None => []
      case Some(frame) => frame + FrameAll(codec, bodies[i + 1..])
  {
    assert bodies[i..][0] == bodies[i] && bodies[i..][1..] == bodies[i + 1..];
  }

  lemma Regroup<T>(a: seq<T>, b: seq<T>, c: seq<T>)
    ensures a + (b + c) == a + b + c
  {
  }

  predicate Fits(codec: Codec, body: TcpBody) { |codec.Sealed(body)| <= MAX_FRAME_LEN }

  /** The bodies before the first that is longer than the reader allows. */
  function FittingPrefix(codec: Codec, bodies: seq<TcpBody>): (r: seq<TcpBody>)
    ensures r <= bodies && forall i :: 0 <= i < |r| ==> Fits(codec, r[i])
    ensures |r| < |bodies| ==> !Fits(codec, bodies[|r|])
  {
    if bodies == [] || !Fits(codec, bodies[0]) then [] else [bodies[0]] + FittingPrefix(codec, bodies[1..])
  }

  lemma OpenUndoesSeal(codec: Codec, message: Bytes)
    requires codec.Ok()
    ensures codec.Open(codec.Seal(message)) == Some(message)
  {
    var sealed := codec.Seal(message);
    assert |codec.tag(message)| == TAG_LEN;
    assert sealed[..|sealed| - TAG_LEN] == message && sealed[|sealed| - TAG_LEN..] == codec.tag(message);
  }

  lemma PayloadRoundTrip(codec: Codec, body: TcpBody)
    requires codec.Ok()
    ensures ParsePayload(codec, codec.Sealed(body)) == Some(body)
  {
    OpenUndoesSeal(codec, codec.Payload(body));
    assert codec.Sealed(body)[0] == PROTOCOL_VERSION;
  }

  /** A written frame at the front of a stream is read back exactly when its sealed
      payload is within the reader's limit, which the writer does not check. */
  lemma FrameRoundTripExactlyWithinLimit(codec: Codec, body: TcpBody, rest: Bytes)
    requires codec.Ok()
    ensures Frame(codec, body).Some? <==> |codec.Sealed(body)| <= 0xFFFF_FFFF
    ensures Frame(codec, body).Some? ==>
            var stream := Frame(codec, body).value + rest;
            if |codec.Sealed(body)| <= 4_194_304 then ReadNext(codec, stream) == (Body(body), rest)
            else ReadNext(codec, stream).0 == Error
  {
    var sealed := codec.Sealed(body);
    if Frame(codec, body).Some? {
      var stream := Frame(codec, body).value + rest;
      Be32RoundTrip(|sealed|);
      assert stream[..4] == Be32(|sealed|);
      if |sealed| <= MAX_FRAME_LEN {
        assert stream[4..4 + |sealed|] == sealed;
        assert stream[4 + |sealed|..] == rest;
        PayloadRoundTrip(codec, body);
      }
    }
  }

  /** Reading the whole stream gives these bodies and ends this way. */
  ghost predicate Reads(codec: Codec, stream: Bytes, bodies: seq<TcpBody>, end: ReadResult) {
    ReadAll(codec, stream) == (bodies, end)
  }

  lemma OneFrameFirst(codec: Codec, frame: Bytes, body: TcpBody, tail: Bytes, bodies: seq<TcpBody>, end: ReadResult)
    requires codec.Ok() && Fits(codec, body) && Frame(codec, body) == Some(frame)
    requires Reads(codec, tail, bodies, end)
    ensures Reads(codec, frame + tail, [body] + bodies, end)
  {
    FrameRoundTripExactlyWithinLimit(codec, body, tail);
    RestIsShorter(codec, frame + tail);
  }

  /** Opening accepts exactly what sealing makes. */
  lemma OpenAcceptsOnlySealed(codec: Codec, sealed: Bytes, message: Bytes)
    requires codec.Ok()
    ensures codec.Open(sealed) == Some(message) <==> sealed == codec.Seal(message)
  {
    if sealed == codec.Seal(message) {
      OpenUndoesSeal(codec, message);
    }
  }

  /** The front of a buffer is a frame with this body exactly when it is a length within
      four megabytes, in four bytes with the highest first, and then as many bytes, which
      start with version 6 and are a message that decodes to the body and its tag. */
  ghost predicate IsFrame(codec: Codec, buffer: Bytes, message: Bytes, body: TcpBody, rest: Bytes) {
    var payload := message + codec.tag(message);
    && |payload| <= 4_194_304
    && buffer == Be32(|payload|) + payload + rest
    && payload != [] && payload[0] == 6
    && codec.decode(message) == Some(body)
  }

  lemma ParsesOnlyFrames(codec: Codec, buffer: Bytes, body: TcpBody, rest: Bytes) returns (message: Bytes)
    requires codec.Ok() && Parse(codec, buffer) == Got(body, rest)
    ensures IsFrame(codec, buffer, message, body, rest)
  {
    var len := FromBe32(buffer[..4]);
    var payload := buffer[4..4 + len];
    message := codec.Open(payload).value;
    OpenAcceptsOnlySealed(codec, payload, message);
    assert payload == codec.Seal(message);
    Be32RoundTrip(len);
    SameBytes(Be32(len), buffer[..4]);
    assert buffer == buffer[..4] + payload + rest;
  }

  lemma {:induction false} FrameIsWhatParses(codec: Codec, buffer: Bytes, body: TcpBody, rest: Bytes)
    requires codec.Ok()
    ensures Parse(codec, buffer) == Got(body, rest) <==> exists message :: IsFrame(codec, buffer, message, body, rest)
  {
    if Parse(codec, buffer) == Got(body, rest) {
      var message := ParsesOnlyFrames(codec, buffer, body, rest);
    }
    forall message | IsFrame(codec, buffer, message, body, rest) ensures Parse(codec, buffer) == Got(body, rest) {
      FrameParses(codec, buffer, message, body, rest);
    }
  }

  lemma FrameParses(codec: Codec, buffer: Bytes, message: Bytes, body: TcpBody, rest: Bytes)
    requires codec.Ok() && IsFrame(codec, buffer, message, body, rest)
    ensures Parse(codec, buffer) == Got(body, rest)
  {
    var payload := codec.Seal(message);
    Be32RoundTrip(|payload|);
    assert buffer[..4] == Be32(|payload|);
    assert buffer[4..4 + |payload|] == payload && buffer[4 + |payload|..] == rest;
    OpenAcceptsOnlySealed(codec, payload, message);
  }

  /** Four bytes are given by the number they stand for. */
  lemma SameBytes(a: Bytes, b: Bytes)
    requires |a| == |b| == 4 && FromBe32(a) == FromBe32(b)
    ensures a == b
  {
    assert a[0] == b[0] && a[1] == b[1] && a[2] == b[2] && a[3] == b[3];
  }

  /** More bytes are waited for exactly when the length, or what it announces, is not there
      yet; anything else that is not a frame is an error. */
  lemma WaitsOnlyForMissingBytes(codec: Codec, buffer: Bytes)
    ensures Parse(codec, buffer) == NeedMore <==>
      || |buffer| < 4
      || (var len := FromBe32(buffer[..4]); len <= 4_194_304 && |buffer| < 4 + len)
  {
  }

  /** Bodies that fit are read back in order, and then whatever follows is read. */
  lemma {:induction false} FramesThenRest(codec: Codec, bodies: seq<TcpBody>, rest: Bytes, more: seq<TcpBody>, end: ReadResult)
    requires codec.Ok() && Reads(codec, rest, more, end)
    requires forall i :: 0 <= i < |bodies| ==> Fits(codec, bodies[i])
    ensures Reads(codec, FrameAll(codec, bodies) + rest, bodies + more, end)
    decreases |bodies|
  {
    if bodies == [] {
      assert FrameAll(codec, bodies) + rest == rest;
      assert bodies + more == more;
    } else {
      assert Fits(codec, bodies[0]);
      var frame, others := Frame(codec, bodies[0]).value, bodies[1..];
      FramesThenRest(codec, others, rest, more, end);
      OneFrameFirst(codec, frame, bodies[0], FrameAll(codec, others) + rest, others + more, end);
      Regroup(frame, FrameAll(codec, others), rest);
      Regroup([bodies[0]], others, more);
      assert bodies == [bodies[0]] + others;
    }
  }

  lemma {:induction false} FrameAllSplits(codec: Codec, bodies: seq<TcpBody>, rest: seq<TcpBody>)
    requires forall i :: 0 <= i < |bodies| ==> Frame(codec, bodies[i]).Some?
    ensures FrameAll(codec, bodies + rest) == FrameAll(codec, bodies) + FrameAll(codec, rest)
    decreases |bodies|
  {
    if bodies == [] {
      assert bodies + rest == rest;
    } else {
      assert (bodies + rest)[1..] == bodies[1..] + rest;
      FrameAllSplits(codec, bodies[1..], rest);
    }
  }

  /** How a stream of bodies ends for its reader: in an error at a body longer than it
      allows, and otherwise where the writer stopped. */
  function EndOf(codec: Codec, bodies: seq<TcpBody>): ReadResult {
    var n := |FittingPrefix(codec, bodies)|;
    if n < |bodies| && Frame(codec, bodies[n]).Some? then Error else EndOfStream
  }

  /** Written bodies come back in order, up to the first that is too long for the
      reader, and then the stream ends or fails. `WriteAllFrames` and `ReadAllFrames`
      tie both ends to this, however the bytes are cut on the way. */
  lemma {:induction false} StreamRoundTrip(codec: Codec, bodies: seq<TcpBody>)
    requires codec.Ok()
    ensures ReadAll(codec, FrameAll(codec, bodies)) == (FittingPrefix(codec, bodies), EndOf(codec, bodies))
  {
    var fitting := FittingPrefix(codec, bodies);
    var rest := bodies[|fitting|..];
    var end := EndOf(codec, bodies);
    assert bodies == fitting + rest;
    FrameAllSplits(codec, fitting, rest);
    if end == Error {
      var tail := FrameAll(codec, rest[1..]);
      FrameRoundTripExactlyWithinLimit(codec, rest[0], tail);
      assert Reads(codec, FrameAll(codec, rest), [], end);
    } else {
      assert FrameAll(codec, rest) == [];
    }
    FramesThenRest(codec, fitting, FrameAll(codec, rest), [], end);
    assert fitting + [] == fitting;
  }

  /** Bodies written at one end and read at the other, the bytes cut in between in any
      way: the reader gets those bodies that fit, in order. */
  method SendAll(codec: Codec, bodies: seq<TcpBody>, cut: Bytes -> seq<Bytes>) returns (received: seq<TcpBody>, end: ReadResult)
    requires codec.Ok()
    requires forall s :: Flatten(cut(s)) == s && forall i :: 0 <= i < |cut(s)| ==> cut(s)[i] != []
    ensures received == FittingPrefix(codec, bodies) && end == EndOf(codec, bodies)
    ensures (forall i :: 0 <= i < |bodies| ==> Fits(codec, bodies[i])) ==> received == bodies && end == EndOfStream
  {
    var writer := new TcpConnection(codec, []);
    var ok := writer.WriteAllFrames(bodies);
    assert writer.sent == [] + FrameAll(codec, bodies) == FrameAll(codec, bodies);
    var reader := new TcpConnection(codec, cut(writer.sent));
    assert reader.Unread() == [] + writer.sent == writer.sent;
    received, end := reader.ReadAllFrames();
    StreamRoundTrip(codec, bodies);
  }

  /** A stream that ends inside a frame yields the whole frames before it and then an
      error, never the body that was cut off. */
  lemma {:induction false} CutStreamIsAnError(codec: Codec, bodies: seq<TcpBody>, last: TcpBody, n: nat)
    requires codec.Ok() && Fits(codec, last)
    requires forall i :: 0 <= i < |bodies| ==> Fits(codec, bodies[i])
    requires 0 < n < |Frame(codec, last).value|
    ensures ReadAll(codec, FrameAll(codec, bodies) + Frame(codec, last).value[..n]) == (bodies, Error)
  {
    var frame := Frame(codec, last).value;
    var cut := frame[..n];
    if n >= 4 {
      Be32RoundTrip(|codec.Sealed(last)|);
      assert cut[..4] == frame[..4] == Be32(|codec.Sealed(last)|);
    }
    assert Parse(codec, cut) == NeedMore;
    FramesThenRest(codec, bodies, cut, [], Error);
    assert bodies + [] == bodies;
  }
}
