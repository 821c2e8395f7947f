/**
 Message frames: the nine byte frame head and the three ways to build a data frame.

 Buffer chunks are byte strings with a read pointer. The space for the head is padded first
 and overwritten in place at the end. Serialisation ids are 64 bits wide, the default.
 */
module MessageFrames {
  import opened WireBytes
  import opened PathCodec

  datatype FrameType = Data | Hello | Start | Ack | Bye | Unknown

  datatype Head = Head(kind: FrameType, length: nat)

  const MAGIC_NUM: nat := 0xC0A1_BA11
  const FRAME_HEAD_LEN: nat := 9

  /** A chunk of which `read` bytes have been consumed. */
  datatype Chunk = Chunk(content: seq<Byte>, read: nat) {
    predicate Ok() { read <= |content| }

    function Remaining(): seq<Byte>
      requires Ok()
    {
      content[read..]
    }
  }

  /** How a message carries its payload; a boxed value may fail to serialise. */
  datatype Carrier =
    | Boxed(outcome: Result<seq<Byte>>)
    | Serialised(bytes: seq<Byte>)
    | Lease(chunk: Chunk)
    | Ref(chunk: Chunk)
  {
    predicate Ok() { (Lease? || Ref?) ==> chunk.Ok() }

    /** The payload a receiver of this message would deserialise. */
    function Payload(): Result<seq<Byte>>
      requires Ok()
    {
      match this
      case Boxed(outcome) => outcome
      case Serialised(bytes) => Result.Ok(bytes)
      case Lease(c) => Result.Ok(c.Remaining())
      case Ref(c) => Result.Ok(c.Remaining())
    }
  }

  datatype NetMessage = NetMessage(sender: ActorPath, receiver: ActorPath, serId: nat, data: Carrier)

  // ---------- Frame head ----------

  function TypeCode(t: FrameType): Byte {
    match t
    case Data => 2
    case Hello => 4
    case Start => 5
    case Ack => 6
    case Bye => 7
    case Unknown => 8
  }

  function TypeOf(b: nat): FrameType {
    match b
    case 2 => Data
    case 4 => Hello
    case 5 => Start
    case 6 => Ack
    case 7 => Bye
    case _ => Unknown
  }

  /** The length is cut to its low four bytes. */
  function EncodeHead(h: Head): (s: seq<Byte>)
    ensures |s| == FRAME_HEAD_LEN
  {
    Put(4, MAGIC_NUM) + Put(4, h.length) + [TypeCode(h.kind)]
  }

  function DecodeHead(buf: seq<Byte>): Result<Parsed<Head>> {
    if |buf| < FRAME_HEAD_LEN then Err(NoData)
    else if Number(buf[..4]) != MAGIC_NUM then Err(InvalidMagic)
    else Ok(Parsed(Head(TypeOf(buf[8]), Number(buf[4..8])), buf[9..]))
  }

  lemma HeadParts(h: Head, rest: seq<Byte>)
    ensures var buf := EncodeHead(h) + rest;
      buf[..4] == Put(4, MAGIC_NUM) && buf[4..8] == Put(4, h.length) && buf[8] == TypeCode(h.kind) && buf[9..] == rest
  {
  }

  lemma MagicFits()
    ensures Number(Put(4, MAGIC_NUM)) == MAGIC_NUM
  {
    WireWidths();
    NumberOfPut(4, MAGIC_NUM);
  }

  lemma MagicBytes()
    ensures Put(4, MAGIC_NUM) == [0xC0, 0xA1, 0xBA, 0x11]
  {
    assert Put(1, 0xC0) == Put(0, 0) + [0xC0];
    assert Put(2, 0xC0A1) == Put(1, 0xC0) + [0xA1];
    assert Put(3, 0xC0A1BA) == Put(2, 0xC0A1) + [0xBA];
    assert Put(4, 0xC0A1_BA11) == Put(3, 0xC0A1BA) + [0x11];
  }

  /** A frame head, byte by byte: the magic number, the length with its high byte first, and the type. */
  lemma HeadLayout(h: Head)
    ensures EncodeHead(h)[..4] == [0xC0, 0xA1, 0xBA, 0x11]
    ensures IsBigEndian(EncodeHead(h)[4..8], h.length)
    ensures EncodeHead(h)[8] == if h.kind.Data? then 2 else if h.kind.Hello? then 4 else if h.kind.Start? then 5
                                else if h.kind.Ack? then 6 else if h.kind.Bye? then 7 else 8
  {
    MagicBytes();
    HeadParts(h, []);
    assert EncodeHead(h) + [] == EncodeHead(h);
    WrittenBigEndian(4, h.length);
  }

  /** A head is read back exactly when its content length is below 2^32. */
  lemma HeadRoundTripIff(h: Head, rest: seq<Byte>)
    ensures DecodeHead(EncodeHead(h) + rest) == Ok(Parsed(h, rest)) <==> h.length < 0x1_0000_0000
    ensures DecodeHead(EncodeHead(h) + rest).Ok?
  {
    HeadParts(h, rest);
    MagicFits();
    LengthFitsIff(h.length);
  }

  lemma LengthFitsIff(n: nat)
    ensures Number(Put(4, n)) == n <==> n < 0x1_0000_0000
  {
    WireWidths();
    PutOfNumber(Put(4, n));
    if n < 0x1_0000_0000 {
      NumberOfPut(4, n);
    }
  }

  method DecodeHeadFrom(buffer: Reader) returns (r: Result<Head>)
    modifies buffer
    ensures buffer.Advanced(DecodeHead(old(buffer.bytes)), r)
  {
    if |buffer.bytes| < FRAME_HEAD_LEN {
      return Err(NoData);
    }
    ghost var start := buffer.bytes;
    var magic := buffer.GetInt(4);
    if magic.value != MAGIC_NUM {
      return Err(InvalidMagic);
    }
    var length := buffer.GetInt(4);
    assert start[4..][..4] == start[4..8] && buffer.bytes == start[8..];
    var kind := buffer.CopyOut(1);
    assert kind.value[0] == start[8] && buffer.bytes == start[9..];
    r := Ok(Head(TypeOf(kind.value[0]), length.value));
  }

  // ---------- What the frames are ----------

  function Framed(body: seq<Byte>): seq<Byte> { EncodeHead(Head(Data, |body|)) + body }

  /** Sender and receiver, in this order; the first that cannot be written decides the error. */
  function Envelope(src: ActorPath, dst: ActorPath): Result<seq<Byte>> {
    match EncodePath(src)
    case Err(e) => Err(e)
    case Ok(s) =>
      match EncodePath(dst)
      case Err(e) => Err(e)
      case Ok(d) => Ok(s + d)
  }

  function Tagged(serId: nat, payload: seq<Byte>): seq<Byte> { Put(8, serId) + payload }

  function FrameOf(src: ActorPath, dst: ActorPath, serId: nat, payload: Result<seq<Byte>>): Result<seq<Byte>> {
    match Envelope(src, dst)
    case Err(e) => Err(e)
    case Ok(envelope) =>
      match payload
      case Err(e) => Err(e)
      case Ok(data) => Ok(Framed(envelope + Tagged(serId, data)))
  }

  function DecodeMsg(body: seq<Byte>): Result<Parsed<(ActorPath, ActorPath, nat)>> {
    match DecodePath(body)
    case Err(e) => Err(e)
    case Ok(src) => DecodeReceiver(src.item, src.rest)
  }

  function DecodeReceiver(src: ActorPath, buf: seq<Byte>): Result<Parsed<(ActorPath, ActorPath, nat)>> {
    match DecodePath(buf)
    case Err(e) => Err(e)
    case Ok(dst) =>
      match Get(8, dst.rest)
      case Err(e) => Err(e)
      case Ok(id) => Ok(Parsed((src, dst.item, id.item), id.rest))
  }

  /** A data frame: the nine byte head of type 2, the sender's path, the receiver's path, the id, and the payload. */
  lemma FrameLayout(src: ActorPath, dst: ActorPath, serId: nat, payload: seq<Byte>)
    requires Envelope(src, dst).Ok?
    ensures var frame := FrameOf(src, dst, serId, Ok(payload)).value;
      var s, d := EncodePath(src).value, EncodePath(dst).value;
      && |frame| == 9 + |s| + |d| + 8 + |payload|
      && frame[..4] == [0xC0, 0xA1, 0xBA, 0x11] && frame[8] == 2
      && IsBigEndian(frame[4..8], |frame| - 9)
      && s <= frame[9..] && d <= frame[9 + |s|..]
      && IsBigEndian(frame[9 + |s| + |d|..17 + |s| + |d|], serId) && frame[17 + |s| + |d|..] == payload
  {
    var s, d := EncodePath(src).value, EncodePath(dst).value;
    var body := s + d + Tagged(serId, payload);
    var head := EncodeHead(Head(Data, |body|));
    HeadLayout(Head(Data, |body|));
    BodyBehindHead(head, body);
    BodyLayout(s, d, Put(8, serId), payload);
    WrittenBigEndian(8, serId);
    assert (head + body)[9 + |s|..] == body[|s|..];
    assert (head + body)[9 + |s| + |d|..17 + |s| + |d|] == body[|s| + |d|..8 + |s| + |d|];
    assert (head + body)[17 + |s| + |d|..] == body[8 + |s| + |d|..];
  }

  lemma BodyLayout(s: seq<Byte>, d: seq<Byte>, id: seq<Byte>, payload: seq<Byte>)
    ensures var body := s + d + (id + payload);
      && s <= body && d <= body[|s|..] && body[|s| + |d|..|id| + |s| + |d|] == id && body[|id| + |s| + |d|..] == payload
  {
  }

  lemma BodyBehindHead(head: seq<Byte>, body: seq<Byte>)
    requires |head| == 9
    ensures (head + body)[..4] == head[..4] && (head + body)[4..8] == head[4..8] && (head + body)[9..] == body
    ensures (head + body)[8] == head[8]
  {
  }

  /** The length in the head is the number of bytes after it, exactly when that is below 2^32. */
  lemma FrameLengthIff(body: seq<Byte>)
    ensures |Framed(body)| == FRAME_HEAD_LEN + |body|
    ensures DecodeHead(Framed(body)) == Ok(Parsed(Head(Data, |body|), body)) <==> |body| < 0x1_0000_0000
  {
    HeadRoundTripIff(Head(Data, |body|), body);
  }

  /** A path that is not decodable is never what decoding its bytes returns. */
  lemma OtherPath(p: ActorPath, rest: seq<Byte>)
    requires Valid(p) && EncodePath(p).Ok?
    requires var d := DecodePath(EncodePath(p).value + rest); d.Ok? && d.value.item == p
    ensures Decodable(p)
  {
    PathRewrittenIff(EncodePath(p).value + rest);
  }

  lemma ReceiverRoundTripIff(src: ActorPath, dst: ActorPath, serId: nat, payload: seq<Byte>)
    requires Valid(dst) && EncodePath(dst).Ok? && serId < Pow256(8)
    ensures DecodeReceiver(src, EncodePath(dst).value + Tagged(serId, payload)) == Ok(Parsed((src, dst, serId), payload))
      <==> Decodable(dst)
  {
    PathRoundTripIff(dst, Tagged(serId, payload));
    PutThenGet(8, serId, payload);
    if DecodeReceiver(src, EncodePath(dst).value + Tagged(serId, payload)) == Ok(Parsed((src, dst, serId), payload)) {
      OtherPath(dst, Tagged(serId, payload));
    }
  }

  /** Decoding inverts encoding exactly for decodable senders and receivers. */
  lemma MessageRoundTripIff(src: ActorPath, dst: ActorPath, serId: nat, payload: seq<Byte>)
    requires Valid(src) && Valid(dst) && serId < Pow256(8) && Envelope(src, dst).Ok?
    ensures DecodeMsg(Envelope(src, dst).value + Tagged(serId, payload)) == Ok(Parsed((src, dst, serId), payload))
      <==> Decodable(src) && Decodable(dst)
  {
    var d := EncodePath(dst).value + Tagged(serId, payload);
    Grouped(EncodePath(src).value, EncodePath(dst).value, Tagged(serId, payload));
    PathRoundTripIff(src, d);
    ReceiverRoundTripIff(src, dst, serId, payload);
    if DecodeMsg(EncodePath(src).value + d) == Ok(Parsed((src, dst, serId), payload)) {
      OtherPath(src, d);
    }
  }

  // ---------- Forwarding ----------

  /** Concatenations with equally long first parts are equal exactly when both parts are. */
  lemma SameParts(a: seq<Byte>, b: seq<Byte>, c: seq<Byte>, d: seq<Byte>)
    requires |a| == |c|
    ensures a + b == c + d <==> a == c && b == d
  {
    if a + b == c + d {
      assert a == (a + b)[..|a|] == (c + d)[..|c|] == c;
      assert b == (a + b)[|a|..] == (c + d)[|c|..] == d;
    }
  }

  lemma FramedInjective(x: seq<Byte>, y: seq<Byte>)
    ensures Framed(x) == Framed(y) <==> x == y
  {
    SameParts(EncodeHead(Head(Data, |x|)), x, EncodeHead(Head(Data, |y|)), y);
  }

  /** Writing a path and then `after` gives `buf` exactly when `after` is what followed and the spare bits were clear. */
  lemma PathPrefixIff(buf: seq<Byte>, after: seq<Byte>)
    requires DecodePath(buf).Ok? && |after| == |DecodePath(buf).value.rest|
    ensures var d := DecodePath(buf).value;
      && EncodePath(d.item).Ok? && buf != []
      && (EncodePath(d.item).value + after == buf <==> after == d.rest && SpareBitsClear(buf[0]))
  {
    PathRewrittenIff(buf);
    var d := DecodePath(buf).value;
    var e := EncodePath(d.item).value;
    assert buf == buf[..|e|] + d.rest;
    SameParts(e, after, buf[..|e|], d.rest);
    SameParts(e, d.rest, buf[..|e|], d.rest);
  }

  /** The header byte of the receiver in a message body. */
  function SecondHeader(body: seq<Byte>): Byte
    requires DecodePath(body).Ok? && DecodePath(body).value.rest != []
  {
    DecodePath(body).value.rest[0]
  }

  lemma ReceiverRewrittenIff(src: ActorPath, buf: seq<Byte>)
    requires DecodeReceiver(src, buf).Ok?
    ensures var m := DecodeReceiver(src, buf).value;
      && buf != [] && m.item.0 == src && EncodePath(m.item.1).Ok?
      && |EncodePath(m.item.1).value + Tagged(m.item.2, m.rest)| == |buf|
      && (EncodePath(m.item.1).value + Tagged(m.item.2, m.rest) == buf <==> SpareBitsClear(buf[0]))
  {
    var dst := DecodePath(buf).value;
    GetThenPut(8, dst.rest);
    PathRewrittenIff(buf);
  }

  /** A body that decodes can be framed again, and comes out the same exactly when the spare bits of both headers were clear. */
  lemma ForwardedIff(body: seq<Byte>)
    requires DecodeMsg(body).Ok?
    ensures var m := DecodeMsg(body).value; var frame := FrameOf(m.item.0, m.item.1, m.item.2, Ok(m.rest));
      && body != [] && DecodePath(body).Ok? && DecodePath(body).value.rest != [] && frame.Ok?
      && (frame.value == Framed(body) <==> SpareBitsClear(body[0]) && SpareBitsClear(SecondHeader(body)))
  {
    var m := DecodeMsg(body).value;
    var src := DecodePath(body).value;
    ReceiverRewrittenIff(src.item, src.rest);
    var after := EncodePath(m.item.1).value + Tagged(m.item.2, m.rest);
    PathPrefixIff(body, after);
    Grouped(EncodePath(m.item.0).value, EncodePath(m.item.1).value, Tagged(m.item.2, m.rest));
    FramedInjective(EncodePath(m.item.0).value + after, body);
  }

  // ---------- Embedding ----------

  /**
   What embedding a message produces. The chunk branches measure and append the whole chunk,
   read or not: a lease is trimmed on conversion, after which the length assertion fails; a
   reference is not trimmed.
   */
  function Embedded(msg: NetMessage): Result<seq<Byte>>
    requires msg.data.Ok()
  {
    match Envelope(msg.sender, msg.receiver)
    case Err(e) => Err(e)
    case Ok(envelope) =>
      match msg.data
      case Boxed(outcome) => FrameOf(msg.sender, msg.receiver, msg.serId, outcome)
      case Serialised(bytes) => FrameOf(msg.sender, msg.receiver, msg.serId, Ok(bytes))
      case Lease(c) =>
        if c.read > 0 then Err(AssertionFailed) else Ok(Framed(envelope + Tagged(msg.serId, c.content)))
      case Ref(c) => Ok(Framed(envelope + Tagged(msg.serId, c.content)))
  }

  /** Embedding agrees with direct serialisation of the payload exactly when no part of a chunk has been read. */
  lemma EmbedAgreesIff(msg: NetMessage)
    requires msg.data.Ok() && Envelope(msg.sender, msg.receiver).Ok?
    ensures Embedded(msg) == FrameOf(msg.sender, msg.receiver, msg.serId, msg.data.Payload())
      <==> ((msg.data.Lease? || msg.data.Ref?) ==> msg.data.chunk.read == 0)
  {
    if msg.data.Lease? || msg.data.Ref? {
      var c := msg.data.chunk;
      var envelope := Envelope(msg.sender, msg.receiver).value;
      FramedInjective(envelope + Tagged(msg.serId, c.content), envelope + Tagged(msg.serId, c.Remaining()));
      SameParts(envelope, Tagged(msg.serId, c.content), envelope, Tagged(msg.serId, c.Remaining()));
      SameParts(Put(8, msg.serId), c.content, Put(8, msg.serId), c.Remaining());
    }
  }

  /** A message decoded in place from a chunk reference is never forwarded as the frame it came in. */
  lemma DecodedRefNotForwarded(body: seq<Byte>)
    requires DecodeMsg(body).Ok?
    ensures var m := DecodeMsg(body).value;
      && |m.rest| <= |body|
      && var msg := NetMessage(m.item.0, m.item.1, m.item.2, Ref(Chunk(body, |body| - |m.rest|)));
      && msg.data.Payload() == Ok(m.rest)
      && Embedded(msg) != FrameOf(m.item.0, m.item.1, m.item.2, Ok(m.rest))
      && Embedded(msg) != Ok(Framed(body))
  {
    MessageSuffix(body);
    var m := DecodeMsg(body).value;
    ForwardedIff(body);
    FramedInjective(Envelope(m.item.0, m.item.1).value + Tagged(m.item.2, body), body);
    EmbedAgreesIff(NetMessage(m.item.0, m.item.1, m.item.2, Ref(Chunk(body, |body| - |m.rest|))));
  }

  ghost predicate SuffixOf(rest: seq<Byte>, buf: seq<Byte>) {
    |rest| < |buf| && buf[|buf| - |rest|..] == rest
  }

  lemma SuffixChain(a: seq<Byte>, b: seq<Byte>, c: seq<Byte>)
    requires SuffixOf(a, b) && SuffixOf(b, c)
    ensures SuffixOf(a, c)
  {
  }

  lemma PathSuffix(buf: seq<Byte>)
    requires DecodePath(buf).Ok?
    ensures SuffixOf(DecodePath(buf).value.rest, buf)
  {
    PathRewrittenIff(buf);
  }

  lemma IdSuffix(buf: seq<Byte>)
    requires Get(8, buf).Ok?
    ensures SuffixOf(Get(8, buf).value.rest, buf)
  {
  }

  lemma MessageSuffix(body: seq<Byte>)
    requires DecodeMsg(body).Ok?
    ensures SuffixOf(DecodeMsg(body).value.rest, body)
  {
    var src := DecodePath(body).value;
    var dst := DecodePath(src.rest).value;
    PathSuffix(body);
    PathSuffix(src.rest);
    IdSuffix(dst.rest);
    SuffixChain(dst.rest, src.rest, body);
    SuffixChain(Get(8, dst.rest).value.rest, dst.rest, body);
  }

  // ---------- The encoders and decoders ----------

  /** Overwrite the padding at the front of a lease. */
  method InsertHead(lease: array<Byte>, h: Head)
    requires lease.Length >= FRAME_HEAD_LEN
    modifies lease
    ensures lease[..] == EncodeHead(h) + old(lease[FRAME_HEAD_LEN..])
  {
    var head := EncodeHead(h);
    for i := 0 to FRAME_HEAD_LEN
      invariant lease[..i] == head[..i]
      invariant lease[FRAME_HEAD_LEN..] == old(lease[FRAME_HEAD_LEN..])
    {
      lease[i] := head[i];
    }
    assert lease[..] == lease[..FRAME_HEAD_LEN] + lease[FRAME_HEAD_LEN..];
  }

  /** The head goes over the padding of what `encoder` holds; its length also counts the bytes to come as tail. */
  method Finish(encoder: Writer, tail: nat) returns (frame: seq<Byte>)
    requires |encoder.bytes| >= FRAME_HEAD_LEN
    ensures frame == EncodeHead(Head(Data, |encoder.bytes| - FRAME_HEAD_LEN + tail)) + encoder.bytes[FRAME_HEAD_LEN..]
  {
    var data := encoder.bytes;
    var lease := new Byte[|data|](i requires 0 <= i < |data| => data[i]);
    assert lease[..] == data;
    assert lease[FRAME_HEAD_LEN..] == data[FRAME_HEAD_LEN..];
    InsertHead(lease, Head(Data, lease.Length - FRAME_HEAD_LEN + tail));
    frame := lease[..];
  }

  method PutEnvelope(src: ActorPath, dst: ActorPath, encoder: Writer) returns (r: Result<()>)
    modifies encoder
    ensures match Envelope(src, dst)
      case Err(e) => r == Err(e)
      case Ok(envelope) => r == Ok(()) && encoder.bytes == old(encoder.bytes) + envelope
  {
    ghost var s, d := EncodePath(src), EncodePath(dst);
    if s.Ok? && d.Ok? {
      Grouped(encoder.bytes, s.value, d.value);
    }
    r := SerialisePath(src, encoder);
    if r.Ok? {
      r := SerialisePath(dst, encoder);
    }
  }

  /** Padding, sender and receiver. */
  method StartFrame(src: ActorPath, dst: ActorPath, padding: seq<Byte>) returns (r: Result<()>, encoder: Writer)
    requires |padding| == FRAME_HEAD_LEN
    ensures fresh(encoder)
    ensures match Envelope(src, dst)
      case Err(e) => r == Err(e)
      case Ok(envelope) => r == Ok(()) && encoder.bytes == padding + envelope
  {
    encoder := new Writer();
    encoder.PutSlice(padding);
    assert [] + padding == padding;
    r := PutEnvelope(src, dst, encoder);
  }

  /** Id and payload behind what the encoder holds. */
  method PutTagged(encoder: Writer, serId: nat, payload: seq<Byte>)
    modifies encoder
    ensures encoder.bytes == old(encoder.bytes) + Tagged(serId, payload)
  {
    Grouped(encoder.bytes, Put(8, serId), payload);
    encoder.PutInt(8, serId);
    encoder.PutSlice(payload);
  }

  /** A lease that holds padding and a whole body becomes the frame of the body. */
  method FinishWhole(encoder: Writer, padding: seq<Byte>, ghost body: seq<Byte>) returns (frame: seq<Byte>)
    requires |padding| == FRAME_HEAD_LEN && encoder.bytes == padding + body
    ensures frame == Framed(body)
  {
    assert encoder.bytes[FRAME_HEAD_LEN..] == body;
    frame := Finish(encoder, 0);
  }

  /** `serialise_msg`; whatever the padding held is gone from the frame. */
  method SerialiseMsg(src: ActorPath, dst: ActorPath, serId: nat, payload: Result<seq<Byte>>, padding: seq<Byte>)
    returns (r: Result<seq<Byte>>)
    requires |padding| == FRAME_HEAD_LEN
    ensures r == FrameOf(src, dst, serId, payload)
  {
    var started, encoder := StartFrame(src, dst, padding);
    if started.Err? {
      return Err(started.error);
    }
    if payload.Err? {
      encoder.PutInt(8, serId);
      return Err(payload.error);
    }
    ghost var envelope := Envelope(src, dst).value;
    PutTagged(encoder, serId, payload.value);
    Grouped(padding, envelope, Tagged(serId, payload.value));
    var frame := FinishWhole(encoder, padding, envelope + Tagged(serId, payload.value));
    r := Ok(frame);
  }

  /** `preserialise_msg`. */
  method PreserialiseMsg(serId: nat, payload: Result<seq<Byte>>) returns (r: Result<Chunk>)
    ensures match payload
      case Err(e) => r == Err(e)
      case Ok(data) => r == Ok(Chunk(Tagged(serId, data), 0))
  {
    var encoder := new Writer();
    encoder.PutInt(8, serId);
    if payload.Err? {
      return Err(payload.error);
    }
    encoder.PutSlice(payload.value);
    assert encoder.bytes == Tagged(serId, payload.value);
    r := Ok(Chunk(encoder.bytes, 0));
  }

  /** `serialise_msg_with_preserialised`. */
  method SerialiseWithPreserialised(src: ActorPath, dst: ActorPath, content: Chunk, padding: seq<Byte>)
    returns (r: Result<seq<Byte>>)
    requires |padding| == FRAME_HEAD_LEN
    ensures match Envelope(src, dst)
      case Err(e) => r == Err(e)
      case Ok(envelope) => r == Ok(Framed(envelope + content.content))
  {
    var started, encoder := StartFrame(src, dst, padding);
    if started.Err? {
      return Err(started.error);
    }
    ghost var envelope := Envelope(src, dst).value;
    assert encoder.bytes[FRAME_HEAD_LEN..] == envelope;
    var front := Finish(encoder, |content.content|);
    Grouped(EncodeHead(Head(Data, |envelope| + |content.content|)), envelope, content.content);
    r := Ok(front + content.content);
  }

  /** Preserialising and then attaching gives the frame of direct serialisation. */
  method PreserialiseThenAttach(src: ActorPath, dst: ActorPath, serId: nat, payload: seq<Byte>, padding: seq<Byte>)
    returns (r: Result<seq<Byte>>)
    requires |padding| == FRAME_HEAD_LEN
    ensures r == FrameOf(src, dst, serId, Ok(payload))
  {
    var content := PreserialiseMsg(serId, Ok(payload));
    r := SerialiseWithPreserialised(src, dst, content.value, padding);
  }

  /** `embed_msg`. */
  method EmbedMsg(msg: NetMessage, padding: seq<Byte>) returns (r: Result<seq<Byte>>)
    requires |padding| == FRAME_HEAD_LEN && msg.data.Ok()
    ensures r == Embedded(msg)
  {
    if msg.data.Boxed? {
      r := SerialiseMsg(msg.sender, msg.receiver, msg.serId, msg.data.outcome, padding);
      return;
    } else if msg.data.Serialised? {
      r := SerialiseMsg(msg.sender, msg.receiver, msg.serId, Ok(msg.data.bytes), padding);
      return;
    }
    var started, encoder := StartFrame(msg.sender, msg.receiver, padding);
    if started.Err? {
      return Err(started.error);
    }
    encoder.PutInt(8, msg.serId);
    ghost var envelope := Envelope(msg.sender, msg.receiver).value;
    ghost var front := envelope + Put(8, msg.serId);
    assert encoder.bytes == padding + front;
    assert encoder.bytes[FRAME_HEAD_LEN..] == front;
    var whole := msg.data.chunk.content;
    var frame := Finish(encoder, |whole|);
    var tail := if msg.data.Lease? then msg.data.chunk.Remaining() else whole;
    if |frame| + |tail| != |encoder.bytes| + |whole| {
      return Err(AssertionFailed);
    }
    Grouped(envelope, Put(8, msg.serId), whole);
    Grouped(EncodeHead(Head(Data, |front + whole|)), front, whole);
    assert msg.data.chunk.read == 0 ==> msg.data.chunk.Remaining() == whole;
    r := Ok(frame + tail);
  }

  /** The common part of the three decoders. */
  method DeserialiseFrom(buffer: Reader) returns (r: Result<(ActorPath, ActorPath, nat)>)
    modifies buffer
    ensures buffer.Advanced(DecodeMsg(old(buffer.bytes)), r)
  {
    var src := DeserialisePath(buffer);
    if src.Err? {
      return Err(src.error);
    }
    var dst := DeserialisePath(buffer);
    if dst.Err? {
      return Err(dst.error);
    }
    var id := buffer.GetInt(8);
    if id.Err? {
      return Err(id.error);
    }
    r := Ok((src.value, dst.value, id.value));
  }

  /** What is left of a carrier of which all but `rest` has been read. */
  function LeftOver(c: Carrier, rest: seq<Byte>): Carrier
    requires c.Ok() && !c.Boxed? && |rest| <= |c.Payload().value|
  {
    match c
    case Serialised(_) => Serialised(rest)
    case Lease(_) => Ref(Chunk(rest, 0))
    case Ref(chunk) => Ref(Chunk(chunk.content, |chunk.content| - |rest|))
  }

  lemma LeftOverCarries(c: Carrier, rest: seq<Byte>)
    requires c.Ok() && !c.Boxed? && SuffixOf(rest, c.Payload().value)
    ensures LeftOver(c, rest).Ok() && LeftOver(c, rest).Payload() == Ok(rest)
    ensures c.Ref? ==> LeftOver(c, rest).chunk.read > 0
  {
    if c.Ref? {
      var n := |c.chunk.content| - |rest|;
      assert c.chunk.content[n..] == c.Payload().value[n - c.chunk.read..];
    }
  }

  /** `msg` is what `m` says, with the unread bytes as payload; only a chunk reference keeps what was read. */
  ghost predicate Delivers(msg: NetMessage, m: Parsed<(ActorPath, ActorPath, nat)>, from: Carrier) {
    && (msg.sender, msg.receiver, msg.serId) == m.item
    && msg.data.Ok() && msg.data.Payload() == Ok(m.rest)
    && (msg.data.Serialised? <==> from.Serialised?)
    && (from.Lease? ==> msg.data.Ref? && msg.data.chunk.read == 0)
    && (from.Ref? ==> msg.data.Ref? && msg.data.chunk.read > 0)
  }

  /** `deserialise_bytes`, `deserialise_chunk_lease` (trimmed) and `deserialise_chunk_ref` (not trimmed). */
  method Deserialise(c: Carrier) returns (r: Result<NetMessage>)
    requires c.Ok() && !c.Boxed?
    ensures match DecodeMsg(c.Payload().value)
      case Err(e) => r == Err(e)
      case Ok(m) => r.Ok? && Delivers(r.value, m, c)
  {
    var payload := c.Payload().value;
    var buffer := new Reader(payload);
    var m := DeserialiseFrom(buffer);
    if m.Err? {
      return Err(m.error);
    }
    MessageSuffix(payload);
    var rest := buffer.bytes;
    LeftOverCarries(c, rest);
    r := Ok(NetMessage(m.value.0, m.value.1, m.value.2, LeftOver(c, rest)));
  }

  /**
   The three encoders on one message: serialised directly, preserialised and attached, and embedded
   again after the receiving side has decoded the lease behind the frame head.
   */
  method ThreeEncoders(src: ActorPath, dst: ActorPath, serId: nat, payload: seq<Byte>, padding: seq<Byte>)
    returns (direct: Result<seq<Byte>>, attached: Result<seq<Byte>>, forwarded: Result<seq<Byte>>)
    requires |padding| == FRAME_HEAD_LEN && serId < Pow256(8)
    requires Valid(src) && Valid(dst) && Decodable(src) && Decodable(dst)
    ensures direct == attached == forwarded
    ensures direct == FrameOf(src, dst, serId, Ok(payload))
  {
    direct := SerialiseMsg(src, dst, serId, Ok(payload), padding);
    attached := PreserialiseThenAttach(src, dst, serId, payload, padding);
    if direct.Err? {
      return direct, attached, direct;
    }
    ghost var body := Envelope(src, dst).value + Tagged(serId, payload);
    assert direct.value[FRAME_HEAD_LEN..] == body;
    MessageRoundTripIff(src, dst, serId, payload);
    var msg := Deserialise(Lease(Chunk(direct.value, FRAME_HEAD_LEN)));
    EmbedAgreesIff(msg.value);
    forwarded := EmbedMsg(msg.value, padding);
  }
}
