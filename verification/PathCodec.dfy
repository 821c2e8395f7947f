/**
 The binary form of actor paths: a header byte of three bit fields, the address, the port, and
 then either a 16 byte UUID or a length-prefixed name whose segments are joined with slashes.

 The transport field covers bits 0 to 4 and the address type field bits 2 and 3, so the two
 overlap; the model keeps that. Segments are byte strings (UTF-8, in which a slash byte is
 always the character).
 */
module PathCodec {
  import opened WireBytes
  import opened BitFields
  import opened Separated

  datatype Transport = Local | Tcp | Udp

  datatype Header = Header(named: bool, protocol: Transport, v6: bool)

  datatype Ip = V4(octets: seq<Byte>) | V6(octets: seq<Byte>)

  datatype System = System(protocol: Transport, ip: Ip, port: nat)

  datatype ActorPath = Unique(system: System, id: seq<Byte>) | Named(system: System, segments: seq<seq<Byte>>)

  const TRANSPORT := Field(0, 5)
  const ADDRESS_TYPE := Field(2, 2)
  const PATH_TYPE := Field(7, 1)
  const SLASH: Byte := 47

  // ---------- Header ----------

  function TransportCode(t: Transport): Byte {
    match t
    case Local => 0
    case Tcp => 1
    case Udp => 2
  }

  function TransportOf(n: nat): Result<Transport> {
    match n
    case 0 => Ok(Local)
    case 1 => Ok(Tcp)
    case 2 => Ok(Udp)
    case _ => Err(InvalidData)
  }

  function OneIf(b: bool): Byte { if b then 1 else 0 }

  function HeaderByte(h: Header): Byte {
    128 * OneIf(h.named) + 4 * OneIf(h.v6) + TransportCode(h.protocol)
  }

  function DecodeHeader(b: Byte): Result<Header> {
    var path := FieldOf(b, PATH_TYPE);
    var address := FieldOf(b, ADDRESS_TYPE);
    if path > 1 then Err(InvalidData)
    else match TransportOf(FieldOf(b, TRANSPORT))
      case Err(e) => Err(e)
      case Ok(t) => if address > 1 then Err(InvalidData) else Ok(Header(path == 1, t, address == 1))
  }

  lemma FieldsAreRemainders(b: Byte)
    ensures FieldOf(b, PATH_TYPE) == b / 128
    ensures FieldOf(b, TRANSPORT) == b % 32
    ensures FieldOf(b, ADDRESS_TYPE) == b / 4 % 4
  {
    AboveSeven(b);
    LowOne(b / 128);
    LowFive(b);
    AboveTwo(b);
    LowTwo(b / 4);
  }

  /** Exactly the bytes whose low five bits are 0, 1 or 2 are accepted, always as IPv4. */
  lemma HeaderAcceptedIff(b: Byte)
    ensures DecodeHeader(b) == Err(InvalidData) || DecodeHeader(b).Ok?
    ensures DecodeHeader(b).Ok? <==> b % 32 <= 2
    ensures DecodeHeader(b).Ok? ==>
      var h := DecodeHeader(b).value;
      !h.v6 && h.named == (b >= 128) && TransportCode(h.protocol) == b % 32
  {
    FieldsAreRemainders(b);
    HeaderArithmetic(b);
  }

  lemma SmallRemainder(b: Byte)
    requires b % 32 <= 2
    ensures b / 4 % 4 == 0
  {
    var a := b / 32;
    assert b == 32 * a + b % 32;
    assert b / 4 == 8 * a;
  }

  lemma HeaderArithmetic(b: Byte)
    ensures b / 128 == if b >= 128 then 1 else 0
    ensures b % 32 <= 2 ==> b / 4 % 4 == 0
  {
    if b % 32 <= 2 {
      SmallRemainder(b);
    }
  }

  /** A header survives exactly when its address is not IPv6. */
  lemma HeaderRoundTripIff(h: Header)
    ensures DecodeHeader(HeaderByte(h)) == Ok(h) <==> !h.v6
    ensures h.v6 ==> DecodeHeader(HeaderByte(h)) == Err(InvalidData)
  {
    HeaderAcceptedIff(HeaderByte(h));
  }

  /** Bits of the three parts of a header, added without carries. */
  lemma PartBits(n: nat)
    requires n <= 2
    ensures Bit(n, 0) == (n == 1) && Bit(n, 1) == (n == 2)
    ensures !Bit(n, 2) && !Bit(n, 3) && !Bit(n, 4)
  {
    assert Bit(n, 2) == Bit(n / 2, 1) && Bit(n, 3) == Bit(n / 2, 2) && Bit(n, 4) == Bit(n / 2, 3);
    ZeroBits();
    assert n / 2 / 2 == 0;
  }

  /** What the stores of path type, transport and address type leave in a cleared byte, in this order. */
  lemma HeaderFromStores(h: Header, s1: seq<Byte>, s2: seq<Byte>, s3: seq<Byte>)
    requires Stored([0], s1, PATH_TYPE, OneIf(h.named))
    requires Stored(s1, s2, TRANSPORT, TransportCode(h.protocol))
    requires Stored(s2, s3, ADDRESS_TYPE, OneIf(h.v6))
    ensures s3 == [HeaderByte(h)]
  {
    var b, t := s3[0], TransportCode(h.protocol);
    ZeroBits();
    PartBits(t);
    PartBits(OneIf(h.v6));
    PartBits(OneIf(h.named));
    assert BitAt(s3, 0) == Bit(b, 0) == Bit(t, 0);
    assert BitAt(s3, 1) == Bit(b, 1) == Bit(t, 1);
    assert BitAt(s3, 2) == Bit(b, 2) == h.v6;
    assert BitAt(s3, 3) == Bit(b, 3) == false;
    assert BitAt(s3, 4) == Bit(b, 4) == false;
    assert BitAt(s3, 5) == Bit(b, 5) == BitAt([0], 5) == false;
    assert BitAt(s3, 6) == Bit(b, 6) == BitAt([0], 6) == false;
    assert BitAt(s3, 7) == Bit(b, 7) == BitAt(s1, 7) == h.named;
    SumOfBits(b);
  }

  method BuildHeader(h: Header) returns (b: Byte)
    ensures b == HeaderByte(h)
  {
    var storage := new Byte[1](_ => 0);
    assert storage[..] == [0];
    ghost var s0 := storage[..];
    var _ := Store(storage, PATH_TYPE, OneIf(h.named));
    ghost var s1 := storage[..];
    var _ := Store(storage, TRANSPORT, TransportCode(h.protocol));
    ghost var s2 := storage[..];
    var _ := Store(storage, ADDRESS_TYPE, OneIf(h.v6));
    HeaderFromStores(h, s1, s2, storage[..]);
    b := storage[0];
  }

  method ParseHeader(b: Byte) returns (r: Result<Header>)
    ensures r == DecodeHeader(b)
  {
    var storage := new Byte[1](_ => b);
    assert storage[..] == [b];
    var _, path := GetAs(storage, PATH_TYPE);
    ReadOneByte(b, PATH_TYPE, path);
    if path > 1 {
      return Err(InvalidData);
    }
    var _, protocol := GetAs(storage, TRANSPORT);
    ReadOneByte(b, TRANSPORT, protocol);
    var t := TransportOf(protocol);
    if t.Err? {
      return Err(t.error);
    }
    var _, address := GetAs(storage, ADDRESS_TYPE);
    ReadOneByte(b, ADDRESS_TYPE, address);
    if address > 1 {
      return Err(InvalidData);
    }
    r := Ok(Header(path == 1, t.value, address == 1));
  }

  // ---------- Paths ----------

  /** What the types of the original guarantee of every path. */
  predicate Valid(p: ActorPath) {
    && |p.system.ip.octets| == (if p.system.ip.V4? then 4 else 16)
    && p.system.port < Pow256(2)
    && (p.Unique? ==> |p.id| == 16)
  }

  function HeaderOf(p: ActorPath): Header {
    Header(p.Named?, p.system.protocol, p.system.ip.V6?)
  }

  function SystemBytes(p: ActorPath): seq<Byte> {
    [HeaderByte(HeaderOf(p))] + p.system.ip.octets + Put(2, p.system.port)
  }

  /** The part after the system path; the name must fit a `u16` length. */
  function TailBytes(p: ActorPath): Result<seq<Byte>> {
    match p
    case Unique(_, id) => Ok(id)
    case Named(_, segments) =>
      var name := Join(segments, SLASH);
      if |name| < Pow256(2) then Ok(Put(2, |name|) + name) else Err(InvalidData)
  }

  function EncodePath(p: ActorPath): Result<seq<Byte>> {
    match TailBytes(p)
    case Err(e) => Err(e)
    case Ok(tail) => Ok(SystemBytes(p) + tail)
  }

  datatype Located = Located(named: bool, system: System)

  function DecodeSystem(buf: seq<Byte>): Result<Parsed<Located>> {
    if buf == [] then Err(Underrun)
    else match DecodeHeader(buf[0])
      case Err(e) => Err(e)
      case Ok(h) =>
        var width := if h.v6 then 16 else 4;
        if |buf| - 1 < width then Err(InvalidData)
        else
          var octets := buf[1..1 + width];
          match Get(2, buf[1 + width..])
          case Err(e) => Err(e)
          case Ok(p) =>
            Ok(Parsed(Located(h.named, System(h.protocol, if h.v6 then V6(octets) else V4(octets), p.item)), p.rest))
  }

  function DecodeTail(at: Located, buf: seq<Byte>): Result<Parsed<ActorPath>> {
    if !at.named then
      if |buf| < 16 then Err(InvalidData)
      else Ok(Parsed(Unique(at.system, buf[..16]), buf[16..]))
    else match Get(2, buf)
      case Err(e) => Err(e)
      case Ok(p) =>
        if |p.rest| < p.item then Err(InvalidData)
        else Ok(Parsed(Named(at.system, Split(p.rest[..p.item], SLASH)), p.rest[p.item..]))
  }

  function DecodePath(buf: seq<Byte>): Result<Parsed<ActorPath>> {
    match DecodeSystem(buf)
    case Err(e) => Err(e)
    case Ok(p) => DecodeTail(p.item, p.rest)
  }

  /** The paths that survive: IPv4, and a name of at least one segment without slashes in any. */
  ghost predicate Decodable(p: ActorPath) {
    p.system.ip.V4? && (p.Named? ==> Clean(p.segments, SLASH))
  }

  /** The first byte: 0, 1 or 2 for local, TCP or UDP, plus 128 for a named path, plus 4 for IPv6. */
  lemma FirstByteOf(p: ActorPath)
    ensures SystemBytes(p)[0]
      == (if p.system.protocol.Local? then 0 else if p.system.protocol.Tcp? then 1 else 2)
         + (if p.Named? then 128 else 0) + (if p.system.ip.V6? then 4 else 0)
  {
  }

  /** A name with its length in front, high byte first. */
  ghost predicate NameLayout(s: seq<Byte>, name: seq<Byte>) {
    |s| == 2 + |name| && s[2..] == name && IsBigEndian(s[..2], |name|)
  }

  /** A path, piece by piece: header, address, port with its high byte first, and the UUID or the counted name. */
  lemma PathLayout(p: ActorPath)
    requires EncodePath(p).Ok?
    ensures var e, a := EncodePath(p).value, |p.system.ip.octets|;
      && |e| >= a + 3 && e[1..a + 1] == p.system.ip.octets
      && IsBigEndian(e[a + 1..a + 3], p.system.port)
      && (p.Unique? ==> e[a + 3..] == p.id)
      && (p.Named? ==> NameLayout(e[a + 3..], Join(p.segments, SLASH)))
  {
    var e, a := EncodePath(p).value, |p.system.ip.octets|;
    WrittenBigEndian(2, p.system.port);
    assert e[a + 1..a + 3] == Put(2, p.system.port);
    if p.Named? {
      var name := Join(p.segments, SLASH);
      WrittenBigEndian(2, |name|);
      assert e[a + 3..] == Put(2, |name|) + name;
      assert e[a + 3..][..2] == Put(2, |name|);
    }
  }

  /** Segments are joined with the slash character, byte 47. */
  lemma SlashJoins(a: seq<Byte>, b: seq<Byte>)
    ensures Join([a, b], SLASH) == a + [47] + b
  {
    assert [a, b][1..] == [b];
  }

  lemma SystemRoundTrip(p: ActorPath, rest: seq<Byte>)
    requires Valid(p) && p.system.ip.V4?
    ensures DecodeSystem(SystemBytes(p) + rest) == Ok(Parsed(Located(p.Named?, p.system), rest))
  {
    HeaderRoundTripIff(HeaderOf(p));
    var buf := SystemBytes(p) + rest;
    PutThenGet(2, p.system.port, rest);
    assert buf[1..5] == p.system.ip.octets;
    assert buf[5..] == Put(2, p.system.port) + rest;
  }

  /** Every IPv6 path is written with a header that the decoder refuses. */
  lemma IPv6Refused(p: ActorPath, rest: seq<Byte>)
    requires p.system.ip.V6?
    ensures DecodePath(SystemBytes(p) + rest) == Err(InvalidData)
  {
    HeaderRoundTripIff(HeaderOf(p));
  }

  lemma TailRoundTrip(p: ActorPath, rest: seq<Byte>)
    requires Valid(p) && TailBytes(p).Ok?
    ensures DecodeTail(Located(p.Named?, p.system), TailBytes(p).value + rest)
      == Ok(Parsed(if p.Unique? then p else Named(p.system, Split(Join(p.segments, SLASH), SLASH)), rest))
  {
    var tail := TailBytes(p).value;
    if p.Unique? {
      TakeWhole(p.id, rest);
    } else {
      var name := Join(p.segments, SLASH);
      HeadThenGet(2, |name|, name, rest);
      TakeWhole(name, rest);
    }
  }

  /** A path is read back from its bytes, with the suffix left, exactly when it is decodable. */
  lemma PathRoundTripIff(p: ActorPath, rest: seq<Byte>)
    requires Valid(p) && EncodePath(p).Ok?
    ensures DecodePath(EncodePath(p).value + rest) == Ok(Parsed(p, rest)) <==> Decodable(p)
  {
    var tail := TailBytes(p).value;
    assert EncodePath(p).value + rest == SystemBytes(p) + (tail + rest);
    if p.system.ip.V6? {
      IPv6Refused(p, tail + rest);
    } else {
      SystemRoundTrip(p, tail + rest);
      TailRoundTrip(p, rest);
      if p.Named? {
        SplitInvertsJoinIff(p.segments, SLASH);
      }
    }
  }

  /** The named path without segments is read back with one empty segment. */
  lemma EmptyNameGainsSegment(s: System, rest: seq<Byte>)
    requires Valid(Named(s, [])) && s.ip.V4?
    ensures EncodePath(Named(s, [])).Ok?
    ensures DecodePath(EncodePath(Named(s, [])).value + rest) == Ok(Parsed(Named(s, [[]]), rest))
  {
    var p := Named(s, []);
    var tail := TailBytes(p).value;
    assert EncodePath(p).value + rest == SystemBytes(p) + (tail + rest);
    SystemRoundTrip(p, tail + rest);
    TailRoundTrip(p, rest);
  }

  // ---------- Failures ----------

  /** Exactly how reading a system path fails: at the end of the buffer, on the header, or for lack of address bytes. */
  lemma SystemFailsAs(buf: seq<Byte>)
    ensures match DecodeSystem(buf)
      case Ok(_) => |buf| >= 7 && buf[0] % 32 <= 2
      case Err(e) =>
        if buf == [] then e == Underrun
        else if buf[0] % 32 > 2 || |buf| < 5 then e == InvalidData
        else |buf| < 7 && e == Underrun
  {
    if buf != [] {
      HeaderAcceptedIff(buf[0]);
    }
  }

  /** ... and the part after it. */
  lemma TailFailsAs(at: Located, buf: seq<Byte>)
    ensures match DecodeTail(at, buf)
      case Ok(_) => if at.named then |buf| >= 2 && |buf| - 2 >= Number(buf[..2]) else |buf| >= 16
      case Err(e) =>
        if !at.named then |buf| < 16 && e == InvalidData
        else if |buf| < 2 then e == Underrun
        else |buf| - 2 < Number(buf[..2]) && e == InvalidData
  {
  }

  // ---------- Writing again what was read ----------

  /** Bits 5 and 6 of a header are ignored by the decoder and never set by the encoder. */
  predicate SpareBitsClear(b: Byte) { b / 32 % 4 == 0 }

  lemma HeaderRewritten(b: Byte)
    requires DecodeHeader(b).Ok?
    ensures HeaderByte(DecodeHeader(b).value) == b - 32 * (b / 32 % 4)
  {
    HeaderAcceptedIff(b);
    HeaderParts(b);
  }

  lemma HeaderParts(b: Byte)
    requires b % 32 <= 2
    ensures b == b % 32 + 32 * (b / 32 % 4) + (if b >= 128 then 128 else 0)
  {
  }

  lemma SystemRewritten(p: ActorPath, buf: seq<Byte>, rest: seq<Byte>)
    requires DecodeSystem(buf) == Ok(Parsed(Located(p.Named?, p.system), rest))
    ensures p.system.ip.V4? && |p.system.ip.octets| == 4 && p.system.port < Pow256(2)
    ensures buf != [] && SystemBytes(p) + rest == [HeaderByte(HeaderOf(p))] + buf[1..]
    ensures HeaderByte(HeaderOf(p)) == buf[0] - 32 * (buf[0] / 32 % 4)
  {
    HeaderAcceptedIff(buf[0]);
    HeaderRewritten(buf[0]);
    GetThenPut(2, buf[5..]);
    assert buf[1..] == buf[1..5] + buf[5..];
  }

  lemma TailRewritten(at: Located, buf: seq<Byte>)
    requires DecodeTail(at, buf).Ok?
    ensures var d := DecodeTail(at, buf).value;
      && d.item.system == at.system && d.item.Named? == at.named
      && (d.item.Unique? ==> |d.item.id| == 16)
      && (d.item.Named? ==> Clean(d.item.segments, SLASH))
      && TailBytes(d.item).Ok? && TailBytes(d.item).value + d.rest == buf
  {
    if at.named {
      GetThenPut(2, buf);
      var n := Get(2, buf).value;
      SplitThenJoin(n.rest[..n.item], SLASH);
      assert n.rest == n.rest[..n.item] + n.rest[n.item..];
    }
  }

  /** Any path that was read can be written; the same bytes appear exactly when the spare header bits were clear. */
  lemma PathRewrittenIff(buf: seq<Byte>)
    requires DecodePath(buf).Ok?
    ensures var d := DecodePath(buf).value;
      && Valid(d.item) && Decodable(d.item) && EncodePath(d.item).Ok? && buf != []
      && |EncodePath(d.item).value| <= |buf| && d.rest == buf[|EncodePath(d.item).value|..]
      && (EncodePath(d.item).value + d.rest == buf <==> SpareBitsClear(buf[0]))
  {
    var s := DecodeSystem(buf).value;
    var d := DecodePath(buf).value;
    TailRewritten(s.item, s.rest);
    SystemRewritten(d.item, buf, s.rest);
    Grouped(SystemBytes(d.item), TailBytes(d.item).value, d.rest);
    HeadDecides(HeaderByte(HeaderOf(d.item)), buf);
    SameSuffix(EncodePath(d.item).value, d.rest, HeaderByte(HeaderOf(d.item)), buf);
  }

  lemma SameSuffix(data: seq<Byte>, rest: seq<Byte>, b: Byte, buf: seq<Byte>)
    requires buf != [] && data != [] && data + rest == [b] + buf[1..]
    ensures |data| <= |buf| && rest == buf[|data|..]
  {
    var whole := data + rest;
    assert |whole| == |data| + |rest| == |buf|;
    assert forall i :: 0 <= i < |rest| ==> rest[i] == whole[|data| + i] == buf[|data| + i];
  }

  lemma HeadDecides(b: Byte, buf: seq<Byte>)
    requires buf != []
    ensures [b] + buf[1..] == buf <==> b == buf[0]
  {
    assert ([b] + buf[1..])[0] == b;
  }

  // ---------- Serialiser and deserialiser ----------

  /** On a name that is too long the system part has already been written. */
  method SerialisePath(p: ActorPath, buffer: Writer) returns (r: Result<()>)
    modifies buffer
    ensures match EncodePath(p)
      case Ok(data) => r == Ok(()) && buffer.bytes == old(buffer.bytes) + data
      case Err(e) => r == Err(e) && buffer.bytes == old(buffer.bytes) + SystemBytes(p)
  {
    var header := BuildHeader(HeaderOf(p));
    buffer.PutSlice([header]);
    buffer.PutSlice(p.system.ip.octets);
    buffer.PutInt(2, p.system.port);
    assert buffer.bytes == old(buffer.bytes) + SystemBytes(p);
    if TailBytes(p).Ok? {
      Grouped(old(buffer.bytes), SystemBytes(p), TailBytes(p).value);
    }
    match p
    case Unique(_, id) =>
      buffer.PutSlice(id);
      r := Ok(());
    case Named(_, segments) =>
      var data := Join(segments, SLASH);
      if |data| >= Pow256(2) {
        return Err(InvalidData);
      }
      Grouped(buffer.bytes, Put(2, |data|), data);
      buffer.PutInt(2, |data|);
      buffer.PutSlice(data);
      r := Ok(());
  }

  method DeserialiseSystem(buffer: Reader) returns (r: Result<Located>)
    modifies buffer
    ensures buffer.Advanced(DecodeSystem(old(buffer.bytes)), r)
  {
    var first := buffer.CopyOut(1);
    if first.Err? {
      return Err(first.error);
    }
    var header := ParseHeader(first.value[0]);
    if header.Err? {
      return Err(header.error);
    }
    var width := if header.value.v6 then 16 else 4;
    if |buffer.bytes| < width {
      return Err(InvalidData);
    }
    var octets := buffer.CopyOut(width);
    assert octets.value == old(buffer.bytes)[1..1 + width];
    assert buffer.bytes == old(buffer.bytes)[1 + width..];
    var port := buffer.GetInt(2);
    if port.Err? {
      return Err(port.error);
    }
    var ip := if header.value.v6 then V6(octets.value) else V4(octets.value);
    r := Ok(Located(header.value.named, System(header.value.protocol, ip, port.value)));
  }

  method DeserialisePath(buffer: Reader) returns (r: Result<ActorPath>)
    modifies buffer
    ensures buffer.Advanced(DecodePath(old(buffer.bytes)), r)
  {
    var at := DeserialiseSystem(buffer);
    if at.Err? {
      return Err(at.error);
    }
    if !at.value.named {
      if |buffer.bytes| < 16 {
        return Err(InvalidData);
      }
      var id := buffer.CopyOut(16);
      return Ok(Unique(at.value.system, id.value));
    }
    var length := buffer.GetInt(2);
    if length.Err? {
      return Err(length.error);
    }
    if |buffer.bytes| < length.value {
      return Err(InvalidData);
    }
    var name := buffer.CopyOut(length.value);
    r := Ok(Named(at.value.system, Split(name.value, SLASH)));
  }
}
