/** The serializer and deserializer at work on their buffers, against the functions of SerdeCodec. */
module SerdeBuffers {
  import opened WireBytes
  import opened SerdeCodec

  /** `serialize_str` and `serialize_bytes`. */
  method SerializeBlob(data: seq<Byte>, buffer: Writer)
    modifies buffer
    ensures buffer.bytes == old(buffer.bytes) + (Put(8, |data|) + data)
  {
    Grouped(buffer.bytes, Put(8, |data|), data);
    buffer.PutInt(8, |data|);
    buffer.PutSlice(data);
  }

  /** `value.serialize(BufSerializer)`: one call per part, appending to the shared buffer. */
  method Serialize(v: Value, buffer: Writer)
    modifies buffer
    ensures buffer.bytes == old(buffer.bytes) + Encode(v)
    decreases v
  {
    match v
    case Bool(b) => buffer.PutSlice([if b then 1 else 0]);
    case UInt(w, n) => buffer.PutInt(w, n);
    case SInt(w, n) => buffer.PutInt(w, n);
    case Bits(w, n) => buffer.PutInt(w, n);
    case Char(code) => buffer.PutInt(4, code);
    case Str(utf8) => SerializeBlob(utf8, buffer);
    case Bytes(data) => SerializeBlob(data, buffer);
    case Nothing =>
    case Absent => buffer.PutSlice([0]);
    case Present(x) =>
      Grouped(buffer.bytes, [1], Encode(x));
      buffer.PutSlice([1]);
      Serialize(x, buffer);
    case Wrapped(x) => Serialize(x, buffer);
    case Items(xs) =>
      Grouped(buffer.bytes, Put(8, |xs|), EncodeAll(xs));
      buffer.PutInt(8, |xs|);
      SerializeElements(xs, buffer);
    case Record(xs) => SerializeElements(xs, buffer);
    case Entries(es) =>
      Grouped(buffer.bytes, Put(8, |es|), EncodeEntries(es));
      buffer.PutInt(8, |es|);
      SerializeEntries(es, buffer);
    case Variant(i, x) =>
      Grouped(buffer.bytes, Put(4, i), Encode(x));
      buffer.PutInt(4, i);
      Serialize(x, buffer);
  }

  lemma {:induction false} EncodeOneMore(xs: seq<Value>, k: nat)
    requires k < |xs|
    ensures EncodeAll(xs[..k + 1]) == EncodeAll(xs[..k]) + Encode(xs[k])
    decreases k
  {
    if k > 0 {
      EncodeOneMore(xs[1..], k - 1);
      assert xs[..k + 1][1..] == xs[1..][..k];
      assert xs[..k][1..] == xs[1..][..k - 1];
    }
  }

  lemma {:induction false} EncodeOneEntryMore(es: seq<Entry>, k: nat)
    requires k < |es|
    ensures EncodeEntries(es[..k + 1]) == EncodeEntries(es[..k]) + EncodeEntry(es[k])
    decreases k
  {
    if k > 0 {
      EncodeOneEntryMore(es[1..], k - 1);
      assert es[..k + 1][1..] == es[1..][..k];
      assert es[..k][1..] == es[1..][..k - 1];
    }
  }

  /** `serialize_element` or `serialize_field` for each part, in order. */
  method SerializeElements(xs: seq<Value>, buffer: Writer)
    modifies buffer
    ensures buffer.bytes == old(buffer.bytes) + EncodeAll(xs)
    decreases xs
  {
    for k := 0 to |xs|
      invariant buffer.bytes == old(buffer.bytes) + EncodeAll(xs[..k])
    {
      Serialize(xs[k], buffer);
      EncodeOneMore(xs, k);
    }
    assert xs[..|xs|] == xs;
  }

  /** `serialize_key` and `serialize_value` for each entry, in order. */
  method SerializeEntries(es: seq<Entry>, buffer: Writer)
    modifies buffer
    ensures buffer.bytes == old(buffer.bytes) + EncodeEntries(es)
    decreases es
  {
    for k := 0 to |es|
      invariant buffer.bytes == old(buffer.bytes) + EncodeEntries(es[..k])
    {
      SerializeEntry(es[k], buffer);
      EncodeOneEntryMore(es, k);
    }
    assert es[..|es|] == es;
  }

  method SerializeEntry(e: Entry, buffer: Writer)
    modifies buffer
    ensures buffer.bytes == old(buffer.bytes) + EncodeEntry(e)
    decreases e
  {
    Serialize(e.key, buffer);
    Serialize(e.val, buffer);
  }

  function Prepend<T>(done: seq<T>, r: Result<Parsed<seq<T>>>): Result<Parsed<seq<T>>> {
    Mapped(r, xs => done + xs)
  }

  lemma PrependNone<T>(r: Result<Parsed<seq<T>>>)
    ensures Prepend([], r) == r
  {
    if r.Ok? {
      assert [] + r.value.item == r.value.item;
    }
  }

  lemma PrependCons<T>(done: seq<T>, x: T, r: Result<Parsed<seq<T>>>)
    ensures Prepend(done, Cons(x, r)) == Prepend(done + [x], r)
  {
    if r.Ok? {
      assert done + ([x] + r.value.item) == done + [x] + r.value.item;
    }
  }

  /** `T::deserialize(&mut BufDeserializer)` for a type of shape `s`. */
  method Deserialize(s: Shape, buffer: Reader) returns (r: Result<Value>)
    modifies buffer
    ensures buffer.Advanced(Decode(s, old(buffer.bytes)), r)
    decreases s, 2, 0
  {
    match s
    case Unit => r := Ok(Nothing);
    case Optional(t) =>
      var flag := buffer.GetInt(1);
      if flag.Err? {
        return Err(flag.error);
      } else if flag.value == 0 {
        return Ok(Absent);
      }
      var inner := Deserialize(t, buffer);
      r := if inner.Ok? then Ok(Present(inner.value)) else inner;
    case Newtype(t) =>
      var inner := Deserialize(t, buffer);
      r := if inner.Ok? then Ok(Wrapped(inner.value)) else inner;
    case Fields(ts) =>
      var parts := DeserializeFields(ts, buffer);
      r := if parts.Ok? then Ok(Record(parts.value)) else Err(parts.error);
    case Sequence(_) => r := DeserializeCounted(s, buffer);
    case Mapping(_, _) => r := DeserializeCounted(s, buffer);
    case Enum(_) => r := DeserializeEnum(s, buffer);
    case Text => r := DeserializeBlob(s, buffer);
    case Blob => r := DeserializeBlob(s, buffer);
    case _ => r := DeserializeNumber(s, buffer);
  }

  method DeserializeNumber(s: Shape, buffer: Reader) returns (r: Result<Value>)
    requires s.Boolean? || s.Unsigned? || s.Signed? || s.Float? || s.Scalar?
    modifies buffer
    ensures buffer.Advanced(Decode(s, old(buffer.bytes)), r)
  {
    var n := buffer.GetInt(if s.Boolean? then 1 else if s.Scalar? then 4 else s.octets);
    if n.Err? {
      return Err(n.error);
    }
    match s
    case Boolean => r := Ok(Bool(n.value != 0));
    case Unsigned(w) => r := Ok(UInt(w, n.value));
    case Signed(w) => r := Ok(SInt(w, AsSigned(w, n.value)));
    case Float(w) => r := Ok(Bits(w, n.value));
    case Scalar => r := if IsScalar(n.value) then Ok(Char(n.value)) else Err(UnsupportedChar);
  }

  /** `deserialize_string` and `deserialize_byte_buf`. */
  method DeserializeBlob(s: Shape, buffer: Reader) returns (r: Result<Value>)
    requires s.Text? || s.Blob?
    modifies buffer
    ensures buffer.Advanced(Decode(s, old(buffer.bytes)), r)
  {
    var length := buffer.GetInt(8);
    if length.Err? {
      return Err(length.error);
    }
    var data := buffer.CopyOut(length.value);
    if data.Err? {
      return Err(data.error);
    }
    if s.Blob? {
      r := Ok(Bytes(data.value));
    } else {
      r := if Utf8(data.value) then Ok(Str(data.value)) else Err(NotUtf8);
    }
  }

  /** `deserialize_seq` and `deserialize_map`. */
  method DeserializeCounted(s: Shape, buffer: Reader) returns (r: Result<Value>)
    requires s.Sequence? || s.Mapping?
    modifies buffer
    ensures buffer.Advanced(Decode(s, old(buffer.bytes)), r)
    decreases s, 1, 0
  {
    var length := buffer.GetInt(8);
    if length.Err? {
      return Err(length.error);
    }
    if s.Sequence? {
      var items := DeserializeItems(s.element, length.value, buffer);
      r := if items.Ok? then Ok(Items(items.value)) else Err(items.error);
    } else {
      var entries := DeserializeEntries(s, length.value, buffer);
      r := if entries.Ok? then Ok(Entries(entries.value)) else Err(entries.error);
    }
  }

  /** `variant_seed` reads the index, `VariantAccess` the content. */
  method DeserializeEnum(s: Shape, buffer: Reader) returns (r: Result<Value>)
    requires s.Enum?
    modifies buffer
    ensures buffer.Advanced(Decode(s, old(buffer.bytes)), r)
    decreases s, 1, 0
  {
    var index := buffer.GetInt(4);
    if index.Err? {
      return Err(index.error);
    } else if index.value >= |s.variants| {
      return Err(UnknownVariant);
    }
    var content := Deserialize(s.variants[index.value], buffer);
    r := if content.Ok? then Ok(Variant(index.value, content.value)) else content;
  }

  /** `ElementCounting` as a `SeqAccess`: elements until `count` reaches `length`. */
  method DeserializeItems(t: Shape, length: nat, buffer: Reader) returns (r: Result<seq<Value>>)
    modifies buffer
    ensures buffer.Advanced(DecodeItems(t, length, old(buffer.bytes)), r)
    decreases t, 3, length
  {
    var items, count := [], 0;
    PrependNone(DecodeItems(t, length, buffer.bytes));
    while count != length
      invariant count <= length
      invariant DecodeItems(t, length, old(buffer.bytes))
        == Prepend(items, DecodeItems(t, length - count, buffer.bytes))
    {
      count := count + 1;
      var x := Deserialize(t, buffer);
      if x.Err? {
        return Err(x.error);
      }
      PrependCons(items, x.value, DecodeItems(t, length - count, buffer.bytes));
      items := items + [x.value];
    }
    assert items + [] == items;
    r := Ok(items);
  }

  /** `ElementCounting` as the `SeqAccess` of a tuple or struct, whose visitor asks once per field. */
  method DeserializeFields(ts: seq<Shape>, buffer: Reader) returns (r: Result<seq<Value>>)
    modifies buffer
    ensures buffer.Advanced(DecodeFields(ts, old(buffer.bytes)), r)
    decreases ts, 2, 0
  {
    var items, count := [], 0;
    PrependNone(DecodeFields(ts, buffer.bytes));
    assert ts[0..] == ts;
    while count != |ts|
      invariant count <= |ts|
      invariant DecodeFields(ts, old(buffer.bytes)) == Prepend(items, DecodeFields(ts[count..], buffer.bytes))
    {
      var x := Deserialize(ts[count], buffer);
      if x.Err? {
        return Err(x.error);
      }
      assert ts[count..][1..] == ts[count + 1..];
      count := count + 1;
      PrependCons(items, x.value, DecodeFields(ts[count..], buffer.bytes));
      items := items + [x.value];
    }
    assert items + [] == items;
    r := Ok(items);
  }

  method DeserializeEntry(s: Shape, buffer: Reader) returns (r: Result<Entry>)
    requires s.Mapping?
    modifies buffer
    ensures buffer.Advanced(DecodeEntry(s, old(buffer.bytes)), r)
    decreases s, 0, 0
  {
    var key := Deserialize(s.key, buffer);
    if key.Err? {
      return Err(key.error);
    }
    var val := Deserialize(s.val, buffer);
    r := if val.Ok? then Ok(Entry(key.value, val.value)) else Err(val.error);
  }

  /** `ElementCounting` as a `MapAccess`. */
  method DeserializeEntries(s: Shape, length: nat, buffer: Reader) returns (r: Result<seq<Entry>>)
    requires s.Mapping?
    modifies buffer
    ensures buffer.Advanced(DecodeEntries(s, length, old(buffer.bytes)), r)
    decreases s, 0, length + 1
  {
    var entries, count := [], 0;
    PrependNone(DecodeEntries(s, length, buffer.bytes));
    while count != length
      invariant count <= length
      invariant DecodeEntries(s, length, old(buffer.bytes))
        == Prepend(entries, DecodeEntries(s, length - count, buffer.bytes))
    {
      count := count + 1;
      var e := DeserializeEntry(s, buffer);
      if e.Err? {
        return Err(e.error);
      }
      PrependCons(entries, e.value, DecodeEntries(s, length - count, buffer.bytes));
      entries := entries + [e.value];
    }
    assert entries + [] == entries;
    r := Ok(entries);
  }

  /** Writing a value and reading it from what was written gives it back, with later bytes untouched. */
  method WriteThenRead(s: Shape, v: Value, later: seq<Byte>) returns (r: Result<Value>, left: seq<Byte>)
    requires Fits(s, v)
    ensures r == Ok(v) && left == later
  {
    var writer := new Writer();
    Serialize(v, writer);
    writer.PutSlice(later);
    var reader := new Reader(writer.bytes);
    RoundTrip(s, v, later);
    assert reader.bytes == Encode(v) + later;
    r := Deserialize(s, reader);
    left := reader.bytes;
  }
}
