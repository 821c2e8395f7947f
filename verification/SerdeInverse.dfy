/** What reading accepts: only values of the shape, and only bytes that differ from their encoding in flag bytes. */
module SerdeInverse {
  import opened WireBytes
  import opened SerdeCodec

  // ---------- Whatever is read is a value of the shape ----------

  /** Reading `length` bytes of `buf` leaves `rest`. */
  ghost predicate Consumed(length: nat, rest: seq<Byte>, buf: seq<Byte>) {
    length <= |buf| && rest == buf[length..]
  }

  lemma ConsumedTwice(a: nat, b: nat, middle: seq<Byte>, rest: seq<Byte>, buf: seq<Byte>)
    requires Consumed(a, middle, buf) && Consumed(b, rest, middle)
    ensures Consumed(a + b, rest, buf)
  {
  }

  lemma GetInRange(width: nat, buf: seq<Byte>)
    requires Get(width, buf).Ok?
    ensures 0 <= Get(width, buf).value.item < Pow256(width)
    ensures Consumed(width, Get(width, buf).value.rest, buf)
  {
    GetThenPut(width, buf);
  }

  lemma LeafSound(s: Shape, buf: seq<Byte>)
    requires Decode(s, buf).Ok?
    requires s.Boolean? || s.Unsigned? || s.Signed? || s.Float? || s.Scalar? || s.Text? || s.Blob?
    ensures Fits(s, Decode(s, buf).value.item)
    ensures Consumed(|Encode(Decode(s, buf).value.item)|, Decode(s, buf).value.rest, buf)
  {
    match s
    case Boolean => GetInRange(1, buf);
    case Unsigned(w) => GetInRange(w, buf);
    case Signed(w) => GetInRange(w, buf);
    case Float(w) => GetInRange(w, buf);
    case Scalar => GetInRange(4, buf);
    case Text => BlobSound(buf);
    case Blob => BlobSound(buf);
  }

  lemma BlobSound(buf: seq<Byte>)
    requires GetBlob(buf).Ok?
    ensures Counted(|GetBlob(buf).value.item|)
    ensures Consumed(8 + |GetBlob(buf).value.item|, GetBlob(buf).value.rest, buf)
  {
    GetInRange(8, buf);
  }

  /** Whatever bytes are read, the value belongs to the shape and its own length is what was consumed. */
  lemma {:induction false} Sound(s: Shape, buf: seq<Byte>)
    requires Decode(s, buf).Ok?
    ensures Fits(s, Decode(s, buf).value.item)
    ensures Consumed(|Encode(Decode(s, buf).value.item)|, Decode(s, buf).value.rest, buf)
    decreases s, 2, 0
  {
    match s
    case Unit =>
    case Optional(t) =>
      GetInRange(1, buf);
      if Get(1, buf).value.item != 0 {
        Sound(t, Get(1, buf).value.rest);
      }
    case Newtype(t) => Sound(t, buf);
    case Sequence(t) => SequenceSound(s, buf);
    case Fields(ts) => FieldsSound(ts, buf);
    case Mapping(_, _) => MappingSound(s, buf);
    case Enum(ts) => EnumSound(s, buf);
    case _ => LeafSound(s, buf);
  }

  lemma {:induction false} SequenceSound(s: Shape, buf: seq<Byte>)
    requires s.Sequence? && Decode(s, buf).Ok?
    ensures Fits(s, Decode(s, buf).value.item)
    ensures Consumed(|Encode(Decode(s, buf).value.item)|, Decode(s, buf).value.rest, buf)
    decreases s, 1, 0
  {
    GetInRange(8, buf);
    ItemsSound(s.element, Get(8, buf).value.item, Get(8, buf).value.rest);
  }

  lemma {:induction false} MappingSound(s: Shape, buf: seq<Byte>)
    requires s.Mapping? && Decode(s, buf).Ok?
    ensures Fits(s, Decode(s, buf).value.item)
    ensures Consumed(|Encode(Decode(s, buf).value.item)|, Decode(s, buf).value.rest, buf)
    decreases s, 1, 0
  {
    GetInRange(8, buf);
    EntriesSound(s, Get(8, buf).value.item, Get(8, buf).value.rest);
  }

  lemma {:induction false} EnumSound(s: Shape, buf: seq<Byte>)
    requires s.Enum? && Decode(s, buf).Ok?
    ensures Fits(s, Decode(s, buf).value.item)
    ensures Consumed(|Encode(Decode(s, buf).value.item)|, Decode(s, buf).value.rest, buf)
    decreases s, 1, 0
  {
    GetInRange(4, buf);
    Sound(s.variants[Get(4, buf).value.item], Get(4, buf).value.rest);
  }

  lemma {:induction false} ItemsSound(t: Shape, count: nat, buf: seq<Byte>)
    requires DecodeItems(t, count, buf).Ok?
    ensures var p := DecodeItems(t, count, buf).value;
      && |p.item| == count
      && (forall x :: x in p.item ==> Fits(t, x))
      && Consumed(|EncodeAll(p.item)|, p.rest, buf)
    decreases t, 3, count
  {
    if count > 0 {
      Sound(t, buf);
      var head := Decode(t, buf).value;
      ItemsSound(t, count - 1, head.rest);
      var tail := DecodeItems(t, count - 1, head.rest).value;
      assert ([head.item] + tail.item)[1..] == tail.item;
      ConsumedTwice(|Encode(head.item)|, |EncodeAll(tail.item)|, head.rest, tail.rest, buf);
    }
  }

  lemma {:induction false} FieldsSound(ts: seq<Shape>, buf: seq<Byte>)
    requires DecodeFields(ts, buf).Ok?
    ensures var p := DecodeFields(ts, buf).value;
      FitsFields(ts, p.item) && Consumed(|EncodeAll(p.item)|, p.rest, buf)
    decreases ts, 2, 0
  {
    if ts != [] {
      Sound(ts[0], buf);
      var head := Decode(ts[0], buf).value;
      FieldsSound(ts[1..], head.rest);
      var tail := DecodeFields(ts[1..], head.rest).value;
      var all := [head.item] + tail.item;
      assert all[1..] == tail.item;
      assert forall i :: 0 < i < |all| ==> all[i] == tail.item[i - 1] && ts[i] == ts[1..][i - 1];
      ConsumedTwice(|Encode(head.item)|, |EncodeAll(tail.item)|, head.rest, tail.rest, buf);
    }
  }

  lemma {:induction false} EntrySound(s: Shape, buf: seq<Byte>)
    requires s.Mapping? && DecodeEntry(s, buf).Ok?
    ensures var p := DecodeEntry(s, buf).value;
      FitsEntry(s, p.item) && Consumed(|EncodeEntry(p.item)|, p.rest, buf)
    decreases s, 0, 0
  {
    Sound(s.key, buf);
    Sound(s.val, Decode(s.key, buf).value.rest);
  }

  lemma {:induction false} EntriesSound(s: Shape, count: nat, buf: seq<Byte>)
    requires s.Mapping? && DecodeEntries(s, count, buf).Ok?
    ensures var p := DecodeEntries(s, count, buf).value;
      && |p.item| == count
      && (forall e :: e in p.item ==> FitsEntry(s, e))
      && Consumed(|EncodeEntries(p.item)|, p.rest, buf)
    decreases s, 0, count
  {
    if count > 0 {
      EntrySound(s, buf);
      var head := DecodeEntry(s, buf).value;
      EntriesSound(s, count - 1, head.rest);
      var tail := DecodeEntries(s, count - 1, head.rest).value;
      assert ([head.item] + tail.item)[1..] == tail.item;
      ConsumedTwice(|EncodeEntry(head.item)|, |EncodeEntries(tail.item)|, head.rest, tail.rest, buf);
    }
  }

  // ---------- Writing again what was read ----------

  predicate FlagTidy(buf: seq<Byte>) { buf != [] && buf[0] <= 1 }

  /** Every flag byte that reading a value of shape `s` meets is 0 or 1; any other non-zero byte is read as 1. */
  predicate Tidy(s: Shape, buf: seq<Byte>)
    decreases s, 1, 0
  {
    match s
    case Boolean => FlagTidy(buf)
    case Optional(t) => FlagTidy(buf) && (buf[0] == 1 ==> Tidy(t, buf[1..]))
    case Newtype(t) => Tidy(t, buf)
    case Sequence(t) => Get(8, buf).Ok? ==> TidyItems(t, Get(8, buf).value.item, Get(8, buf).value.rest)
    case Fields(ts) => TidyFields(ts, buf)
    case Mapping(_, _) => Get(8, buf).Ok? ==> TidyEntries(s, Get(8, buf).value.item, Get(8, buf).value.rest)
    case Enum(ts) =>
      Get(4, buf).Ok? && Get(4, buf).value.item < |ts| ==> Tidy(ts[Get(4, buf).value.item], Get(4, buf).value.rest)
    case _ => true
  }

  predicate TidyItems(t: Shape, count: nat, buf: seq<Byte>)
    decreases t, 2, count
  {
    count > 0 ==>
      Tidy(t, buf) && (Decode(t, buf).Ok? ==> TidyItems(t, count - 1, Decode(t, buf).value.rest))
  }

  predicate TidyFields(ts: seq<Shape>, buf: seq<Byte>)
    decreases ts, 1, 0
  {
    ts != [] ==>
      Tidy(ts[0], buf) && (Decode(ts[0], buf).Ok? ==> TidyFields(ts[1..], Decode(ts[0], buf).value.rest))
  }

  predicate TidyEntry(s: Shape, buf: seq<Byte>)
    requires s.Mapping?
    decreases s, 0, 0
  {
    Tidy(s.key, buf) && (Decode(s.key, buf).Ok? ==> Tidy(s.val, Decode(s.key, buf).value.rest))
  }

  predicate TidyEntries(s: Shape, count: nat, buf: seq<Byte>)
    requires s.Mapping?
    decreases s, 0, count
  {
    count > 0 ==>
      TidyEntry(s, buf) && (DecodeEntry(s, buf).Ok? ==> TidyEntries(s, count - 1, DecodeEntry(s, buf).value.rest))
  }

  /** `data` is exactly what was consumed of `buf` to leave `rest`. */
  ghost predicate Rewrites(data: seq<Byte>, rest: seq<Byte>, buf: seq<Byte>) {
    data + rest == buf
  }

  lemma RewritesInParts(a: seq<Byte>, b: seq<Byte>, middle: seq<Byte>, rest: seq<Byte>, buf: seq<Byte>)
    requires Consumed(|a|, middle, buf) && Consumed(|b|, rest, middle)
    ensures Rewrites(a + b, rest, buf) <==> Rewrites(a, middle, buf) && Rewrites(b, rest, middle)
  {
    Grouped(a, b, rest);
    if a + (b + rest) == buf {
      assert buf[|a|..] == b + rest;
    }
  }

  lemma HeadRewrites(width: nat, body: seq<Byte>, rest: seq<Byte>, buf: seq<Byte>)
    requires Get(width, buf).Ok? && Consumed(|body|, rest, Get(width, buf).value.rest)
    ensures var p := Get(width, buf).value;
      Rewrites(Put(width, p.item) + body, rest, buf) <==> Rewrites(body, rest, p.rest)
  {
    var p := Get(width, buf).value;
    GetThenPut(width, buf);
    RewritesInParts(Put(width, p.item), body, p.rest, rest, buf);
  }

  lemma FlagRewrites(flag: Byte, body: seq<Byte>, rest: seq<Byte>, buf: seq<Byte>)
    requires buf != [] && Consumed(|body|, rest, buf[1..])
    ensures Rewrites([flag] + body, rest, buf) <==> flag == buf[0] && Rewrites(body, rest, buf[1..])
  {
    RewritesInParts([flag], body, buf[1..], rest, buf);
    assert buf == [buf[0]] + buf[1..];
    assert ([flag] + buf[1..])[0] == flag;
  }

  lemma FirstByte(buf: seq<Byte>)
    requires buf != []
    ensures Get(1, buf) == Ok(Parsed(buf[0], buf[1..]))
  {
    assert buf == [buf[0]] + buf[1..];
    FlagRoundTrip(buf[0], buf[1..]);
  }

  lemma NumberRewritten(s: Shape, buf: seq<Byte>)
    requires s.Unsigned? || s.Signed? || s.Float? || s.Scalar?
    requires Decode(s, buf).Ok?
    ensures Rewrites(Encode(Decode(s, buf).value.item), Decode(s, buf).value.rest, buf)
  {
    var w := if s.Scalar? then 4 else s.octets;
    GetThenPut(w, buf);
    PutWraps(w, Get(w, buf).value.item);
  }

  lemma BlobRewritten(buf: seq<Byte>)
    requires GetBlob(buf).Ok?
    ensures var d := GetBlob(buf).value; Rewrites(Put(8, |d.item|) + d.item, d.rest, buf)
  {
    var d := GetBlob(buf).value;
    HeadRewrites(8, d.item, d.rest, buf);
  }

  lemma BooleanRewrittenIff(buf: seq<Byte>)
    requires Decode(Boolean, buf).Ok?
    ensures Rewrites(Encode(Decode(Boolean, buf).value.item), Decode(Boolean, buf).value.rest, buf) <==> FlagTidy(buf)
  {
    FirstByte(buf);
    FlagRewrites(if buf[0] != 0 then 1 else 0, [], buf[1..], buf);
    assert [if buf[0] != 0 then 1 else 0] + [] == [if buf[0] != 0 then 1 else 0];
  }

  /** Writing a value that was read gives the bytes it was read from exactly when all flag bytes were 0 or 1. */
  lemma {:induction false} RewrittenIff(s: Shape, buf: seq<Byte>)
    requires Decode(s, buf).Ok?
    ensures Rewrites(Encode(Decode(s, buf).value.item), Decode(s, buf).value.rest, buf) <==> Tidy(s, buf)
    decreases s, 2, 0
  {
    match s
    case Boolean => BooleanRewrittenIff(buf);
    case Unit =>
    case Text => BlobRewritten(buf);
    case Blob => BlobRewritten(buf);
    case Optional(_) => OptionRewrittenIff(s, buf);
    case Newtype(t) => RewrittenIff(t, buf);
    case Sequence(_) => SequenceRewrittenIff(s, buf);
    case Fields(ts) => FieldsRewrittenIff(ts, buf);
    case Mapping(_, _) => MappingRewrittenIff(s, buf);
    case Enum(_) => EnumRewrittenIff(s, buf);
    case _ => NumberRewritten(s, buf);
  }

  lemma {:induction false} OptionRewrittenIff(s: Shape, buf: seq<Byte>)
    requires s.Optional? && Decode(s, buf).Ok?
    ensures Rewrites(Encode(Decode(s, buf).value.item), Decode(s, buf).value.rest, buf) <==> Tidy(s, buf)
    decreases s, 1, 0
  {
    FirstByte(buf);
    if buf[0] == 0 {
      FlagRewrites(0, [], buf[1..], buf);
      assert [0] + [] == [0];
    } else {
      Sound(s.inner, buf[1..]);
      RewrittenIff(s.inner, buf[1..]);
      var d := Decode(s.inner, buf[1..]).value;
      FlagRewrites(1, Encode(d.item), d.rest, buf);
    }
  }

  lemma {:induction false} SequenceRewrittenIff(s: Shape, buf: seq<Byte>)
    requires s.Sequence? && Decode(s, buf).Ok?
    ensures Rewrites(Encode(Decode(s, buf).value.item), Decode(s, buf).value.rest, buf) <==> Tidy(s, buf)
    decreases s, 1, 0
  {
    var p := Get(8, buf).value;
    var d := DecodeItems(s.element, p.item, p.rest).value;
    ItemsSound(s.element, p.item, p.rest);
    ItemsRewrittenIff(s.element, p.item, p.rest);
    HeadRewrites(8, EncodeAll(d.item), d.rest, buf);
  }

  lemma {:induction false} MappingRewrittenIff(s: Shape, buf: seq<Byte>)
    requires s.Mapping? && Decode(s, buf).Ok?
    ensures Rewrites(Encode(Decode(s, buf).value.item), Decode(s, buf).value.rest, buf) <==> Tidy(s, buf)
    decreases s, 1, 0
  {
    var p := Get(8, buf).value;
    var d := DecodeEntries(s, p.item, p.rest).value;
    EntriesSound(s, p.item, p.rest);
    EntriesRewrittenIff(s, p.item, p.rest);
    HeadRewrites(8, EncodeEntries(d.item), d.rest, buf);
  }

  lemma {:induction false} EnumRewrittenIff(s: Shape, buf: seq<Byte>)
    requires s.Enum? && Decode(s, buf).Ok?
    ensures Rewrites(Encode(Decode(s, buf).value.item), Decode(s, buf).value.rest, buf) <==> Tidy(s, buf)
    decreases s, 1, 0
  {
    var p := Get(4, buf).value;
    var d := Decode(s.variants[p.item], p.rest).value;
    Sound(s.variants[p.item], p.rest);
    RewrittenIff(s.variants[p.item], p.rest);
    HeadRewrites(4, Encode(d.item), d.rest, buf);
  }

  lemma {:induction false} ItemsRewrittenIff(t: Shape, count: nat, buf: seq<Byte>)
    requires DecodeItems(t, count, buf).Ok?
    ensures var d := DecodeItems(t, count, buf).value;
      Rewrites(EncodeAll(d.item), d.rest, buf) <==> TidyItems(t, count, buf)
    decreases t, 3, count
  {
    if count > 0 {
      var head := Decode(t, buf).value;
      var tail := DecodeItems(t, count - 1, head.rest).value;
      Sound(t, buf);
      ItemsSound(t, count - 1, head.rest);
      RewrittenIff(t, buf);
      ItemsRewrittenIff(t, count - 1, head.rest);
      assert ([head.item] + tail.item)[1..] == tail.item;
      RewritesInParts(Encode(head.item), EncodeAll(tail.item), head.rest, tail.rest, buf);
    }
  }

  lemma {:induction false} FieldsRewrittenIff(ts: seq<Shape>, buf: seq<Byte>)
    requires DecodeFields(ts, buf).Ok?
    ensures var d := DecodeFields(ts, buf).value;
      Rewrites(EncodeAll(d.item), d.rest, buf) <==> TidyFields(ts, buf)
    decreases ts, 2, 0
  {
    if ts != [] {
      var head := Decode(ts[0], buf).value;
      var tail := DecodeFields(ts[1..], head.rest).value;
      Sound(ts[0], buf);
      FieldsSound(ts[1..], head.rest);
      RewrittenIff(ts[0], buf);
      FieldsRewrittenIff(ts[1..], head.rest);
      assert ([head.item] + tail.item)[1..] == tail.item;
      RewritesInParts(Encode(head.item), EncodeAll(tail.item), head.rest, tail.rest, buf);
    }
  }

  lemma {:induction false} EntryRewrittenIff(s: Shape, buf: seq<Byte>)
    requires s.Mapping? && DecodeEntry(s, buf).Ok?
    ensures var d := DecodeEntry(s, buf).value;
      Rewrites(EncodeEntry(d.item), d.rest, buf) <==> TidyEntry(s, buf)
    decreases s, 0, 0
  {
    var k := Decode(s.key, buf).value;
    var v := Decode(s.val, k.rest).value;
    Sound(s.key, buf);
    Sound(s.val, k.rest);
    RewrittenIff(s.key, buf);
    RewrittenIff(s.val, k.rest);
    RewritesInParts(Encode(k.item), Encode(v.item), k.rest, v.rest, buf);
  }

  lemma {:induction false} EntriesRewrittenIff(s: Shape, count: nat, buf: seq<Byte>)
    requires s.Mapping? && DecodeEntries(s, count, buf).Ok?
    ensures var d := DecodeEntries(s, count, buf).value;
      Rewrites(EncodeEntries(d.item), d.rest, buf) <==> TidyEntries(s, count, buf)
    decreases s, 0, count
  {
    if count > 0 {
      var head := DecodeEntry(s, buf).value;
      var tail := DecodeEntries(s, count - 1, head.rest).value;
      EntrySound(s, buf);
      EntriesSound(s, count - 1, head.rest);
      EntryRewrittenIff(s, buf);
      EntriesRewrittenIff(s, count - 1, head.rest);
      assert ([head.item] + tail.item)[1..] == tail.item;
      RewritesInParts(EncodeEntry(head.item), EncodeEntries(tail.item), head.rest, tail.rest, buf);
    }
  }
}
