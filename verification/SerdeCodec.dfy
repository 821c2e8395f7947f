/**
 The binary form of the Serde data model.

 Writing is driven by the value, reading by the expected shape. Names of structs, fields and
 variants never reach the wire, so tuples, tuple structs and structs share `Fields`, and unit
 structs are `Unit`. The shape of an enum variant's content is `Unit` for a unit variant, the
 inner shape for a newtype variant and `Fields` for tuple and struct variants. Floats are
 carried as their IEEE bit patterns. Integer widths
 are in bytes: 1, 2, 4 or 8 in the original, any width here. `usize` is 64 bits wide.
 */
module SerdeCodec {
  import opened WireBytes

  datatype Shape =
    | Boolean | Unsigned(octets: nat) | Signed(octets: nat) | Float(octets: nat)
    | Scalar | Text | Blob | Unit
    | Optional(inner: Shape) | Newtype(inner: Shape)
    | Sequence(element: Shape) | Fields(fields: seq<Shape>) | Mapping(key: Shape, val: Shape)
    | Enum(variants: seq<Shape>)

  datatype Value =
    | Bool(b: bool) | UInt(octets: nat, n: int) | SInt(octets: nat, n: int) | Bits(octets: nat, n: int)
    | Char(code: int) | Str(utf8: seq<Byte>) | Bytes(data: seq<Byte>) | Nothing
    | Absent | Present(content: Value) | Wrapped(content: Value)
    | Items(items: seq<Value>) | Record(parts: seq<Value>) | Entries(entries: seq<Entry>)
    | Variant(index: nat, content: Value)

  datatype Entry = Entry(key: Value, val: Value)

  // ---------- Which values a shape has ----------

  /** A Unicode scalar value: what `char::from_u32` accepts. */
  predicate IsScalar(code: int) {
    0 <= code < 0xD800 || 0xE000 <= code < 0x11_0000
  }

  predicate Continues(s: seq<Byte>, k: nat) {
    k < |s| && 0x80 <= s[k] < 0xC0
  }

  /** Well-formed UTF-8: no overlong forms, no surrogates, nothing above U+10FFFF. */
  predicate Utf8(s: seq<Byte>)
    decreases |s|
  {
    if s == [] then true
    else if s[0] < 0x80 then Utf8(s[1..])
    else if 0xC2 <= s[0] < 0xE0 then Continues(s, 1) && Utf8(s[2..])
    else if 0xE0 <= s[0] < 0xF0 then
      && Continues(s, 1) && Continues(s, 2)
      && (s[0] == 0xE0 ==> s[1] >= 0xA0) && (s[0] == 0xED ==> s[1] < 0xA0)
      && Utf8(s[3..])
    else if 0xF0 <= s[0] < 0xF5 then
      && Continues(s, 1) && Continues(s, 2) && Continues(s, 3)
      && (s[0] == 0xF0 ==> s[1] >= 0x90) && (s[0] == 0xF4 ==> s[1] < 0x90)
      && Utf8(s[4..])
    else false
  }

  predicate Counted(length: nat) { length < Pow256(8) }

  predicate InUnsigned(w: nat, n: int) { 0 <= n < Pow256(w) }

  predicate InSigned(w: nat, n: int) {
    0 <= 2 * n + Pow256(w) && 2 * n < Pow256(w)
  }

  predicate Fits(s: Shape, v: Value)
    decreases v
  {
    match (s, v)
    case (Boolean, Bool(_)) => true
    case (Unsigned(w), UInt(x, n)) => w == x && InUnsigned(w, n)
    case (Signed(w), SInt(x, n)) => w == x && InSigned(w, n)
    case (Float(w), Bits(x, n)) => w == x && InUnsigned(w, n)
    case (Scalar, Char(code)) => IsScalar(code)
    case (Text, Str(utf8)) => Counted(|utf8|) && Utf8(utf8)
    case (Blob, Bytes(data)) => Counted(|data|)
    case (Unit, Nothing) => true
    case (Optional(_), Absent) => true
    case (Optional(t), Present(x)) => Fits(t, x)
    case (Newtype(t), Wrapped(x)) => Fits(t, x)
    case (Sequence(t), Items(xs)) => Counted(|xs|) && forall x :: x in xs ==> Fits(t, x)
    case (Fields(ts), Record(xs)) => FitsFields(ts, xs)
    case (Mapping(_, _), Entries(es)) =>
      Counted(|es|) && forall e :: e in es ==> FitsEntry(s, e)
    case (Enum(ts), Variant(i, x)) => i < |ts| && i < Pow256(4) && Fits(ts[i], x)
    case _ => false
  }

  predicate FitsFields(ts: seq<Shape>, xs: seq<Value>)
    decreases xs
  {
    |ts| == |xs| && forall i :: 0 <= i < |xs| ==> Fits(ts[i], xs[i])
  }

  predicate FitsEntry(s: Shape, e: Entry)
    decreases e
  {
    s.Mapping? && Fits(s.key, e.key) && Fits(s.val, e.val)
  }

  // ---------- Writing ----------

  function Encode(v: Value): seq<Byte>
    decreases v
  {
    match v
    case Bool(b) => [if b then 1 else 0]
    case UInt(w, n) => Put(w, n)
    case SInt(w, n) => Put(w, n)
    case Bits(w, n) => Put(w, n)
    case Char(code) => Put(4, code)
    case Str(utf8) => Put(8, |utf8|) + utf8
    case Bytes(data) => Put(8, |data|) + data
    case Nothing => []
    case Absent => [0]
    case Present(x) => [1] + Encode(x)
    case Wrapped(x) => Encode(x)
    case Items(xs) => Put(8, |xs|) + EncodeAll(xs)
    case Record(xs) => EncodeAll(xs)
    case Entries(es) => Put(8, |es|) + EncodeEntries(es)
    case Variant(i, x) => Put(4, i) + Encode(x)
  }

  function EncodeAll(xs: seq<Value>): seq<Byte>
    decreases xs
  {
    if xs == [] then [] else Encode(xs[0]) + EncodeAll(xs[1..])
  }

  function EncodeEntry(e: Entry): seq<Byte>
    decreases e
  {
    Encode(e.key) + Encode(e.val)
  }

  function EncodeEntries(es: seq<Entry>): seq<Byte>
    decreases es
  {
    if es == [] then [] else EncodeEntry(es[0]) + EncodeEntries(es[1..])
  }

  // ---------- Reading ----------

  /** Continue with what the first read leaves, or pass its failure on. */
  function Then<T, U>(r: Result<Parsed<T>>, f: (T, seq<Byte>) -> Result<Parsed<U>>): Result<Parsed<U>> {
    match r
    case Err(e) => Err(e)
    case Ok(p) => f(p.item, p.rest)
  }

  function Mapped<T, U>(r: Result<Parsed<T>>, f: T -> U): Result<Parsed<U>> {
    match r
    case Err(e) => Err(e)
    case Ok(p) => Ok(Parsed(f(p.item), p.rest))
  }

  /** The two's complement reading of a `w` byte number. */
  function AsSigned(w: nat, n: int): int {
    if 2 * n < Pow256(w) then n else n - Pow256(w)
  }

  /** A `u64` length and that many raw bytes. */
  function GetBlob(buf: seq<Byte>): Result<Parsed<seq<Byte>>> {
    match Get(8, buf)
    case Err(e) => Err(e)
    case Ok(p) => Take(p.item, p.rest)
  }

  function Decode(s: Shape, buf: seq<Byte>): Result<Parsed<Value>>
    decreases s, 1, 0
  {
    match s
    case Boolean => Mapped(Get(1, buf), n => Bool(n != 0))
    case Unsigned(w) => Mapped(Get(w, buf), n => UInt(w, n))
    case Signed(w) => Mapped(Get(w, buf), n => SInt(w, AsSigned(w, n)))
    case Float(w) => Mapped(Get(w, buf), n => Bits(w, n))
    case Scalar =>
      Then(Get(4, buf), (n, rest) =>
        if IsScalar(n) then Ok(Parsed(Char(n), rest)) else Err(UnsupportedChar))
    case Text =>
      Then(GetBlob(buf), (data, rest) =>
        if Utf8(data) then Ok(Parsed(Str(data), rest)) else Err(NotUtf8))
    case Blob => Mapped(GetBlob(buf), data => Bytes(data))
    case Unit => Ok(Parsed(Nothing, buf))
    case Optional(t) =>
      (match Get(1, buf)
       case Err(e) => Err(e)
       case Ok(p) => if p.item == 0 then Ok(Parsed(Absent, p.rest))
                     else Mapped(Decode(t, p.rest), x => Present(x)))
    case Newtype(t) => Mapped(Decode(t, buf), x => Wrapped(x))
    case Sequence(t) =>
      (match Get(8, buf)
       case Err(e) => Err(e)
       case Ok(p) => Mapped(DecodeItems(t, p.item, p.rest), xs => Items(xs)))
    case Fields(ts) => Mapped(DecodeFields(ts, buf), xs => Record(xs))
    case Mapping(_, _) =>
      (match Get(8, buf)
       case Err(e) => Err(e)
       case Ok(p) => Mapped(DecodeEntries(s, p.item, p.rest), es => Entries(es)))
    case Enum(ts) =>
      (match Get(4, buf)
       case Err(e) => Err(e)
       case Ok(p) => if p.item >= |ts| then Err(UnknownVariant)
                     else Mapped(Decode(ts[p.item], p.rest), x => Variant(p.item, x)))
  }

  function Cons<T>(x: T, r: Result<Parsed<seq<T>>>): Result<Parsed<seq<T>>> {
    Mapped(r, xs => [x] + xs)
  }

  function DecodeItems(t: Shape, count: nat, buf: seq<Byte>): Result<Parsed<seq<Value>>>
    decreases t, 2, count
  {
    if count == 0 then Ok(Parsed([], buf))
    else match Decode(t, buf)
      case Err(e) => Err(e)
      case Ok(p) => Cons(p.item, DecodeItems(t, count - 1, p.rest))
  }

  function DecodeFields(ts: seq<Shape>, buf: seq<Byte>): Result<Parsed<seq<Value>>>
    decreases ts, 1, 0
  {
    if ts == [] then Ok(Parsed([], buf))
    else match Decode(ts[0], buf)
      case Err(e) => Err(e)
      case Ok(p) => Cons(p.item, DecodeFields(ts[1..], p.rest))
  }

  function DecodeEntry(s: Shape, buf: seq<Byte>): Result<Parsed<Entry>>
    requires s.Mapping?
    decreases s, 0, 0
  {
    match Decode(s.key, buf)
    case Err(e) => Err(e)
    case Ok(k) => Mapped(Decode(s.val, k.rest), v => Entry(k.item, v))
  }

  function DecodeEntries(s: Shape, count: nat, buf: seq<Byte>): Result<Parsed<seq<Entry>>>
    requires s.Mapping?
    decreases s, 0, count
  {
    if count == 0 then Ok(Parsed([], buf))
    else match DecodeEntry(s, buf)
      case Err(e) => Err(e)
      case Ok(p) => Cons(p.item, DecodeEntries(s, count - 1, p.rest))
  }

  // ---------- The bytes ----------

  /** `s` starts with the `width` bytes of `n`, high byte first, followed by `body`. */
  ghost predicate Headed(s: seq<Byte>, width: nat, n: int, body: seq<Byte>) {
    |s| == width + |body| && s[width..] == body && IsBigEndian(s[..width], n)
  }

  lemma PutHeads(width: nat, n: int, body: seq<Byte>)
    ensures Headed(Put(width, n) + body, width, n, body)
  {
    WrittenBigEndian(width, n);
    assert (Put(width, n) + body)[..width] == Put(width, n);
  }

  lemma PutAlone(width: nat, n: int)
    ensures Headed(Put(width, n), width, n, [])
  {
    PutHeads(width, n, []);
    assert Put(width, n) + [] == Put(width, n);
  }

  /** The numbers and flags on the wire. */
  lemma ScalarLayout(v: Value)
    ensures v.Bool? ==> Encode(v) == [if v.b then 1 else 0]
    ensures v.UInt? || v.SInt? || v.Bits? ==> Headed(Encode(v), v.octets, v.n, [])
    ensures v.Char? ==> Headed(Encode(v), 4, v.code, [])
    ensures v.Nothing? ==> Encode(v) == []
    ensures v.Absent? ==> Encode(v) == [0]
  {
    if v.UInt? || v.SInt? || v.Bits? {
      PutAlone(v.octets, v.n);
    } else if v.Char? {
      PutAlone(4, v.code);
    }
  }

  /** Strings, bytes, sequences and maps carry a `u64` count, enums a `u32` index, a present option a one, and tuples nothing. */
  lemma CompoundLayout(v: Value)
    ensures v.Str? ==> Headed(Encode(v), 8, |v.utf8|, v.utf8)
    ensures v.Bytes? ==> Headed(Encode(v), 8, |v.data|, v.data)
    ensures v.Items? ==> Headed(Encode(v), 8, |v.items|, EncodeAll(v.items))
    ensures v.Entries? ==> Headed(Encode(v), 8, |v.entries|, EncodeEntries(v.entries))
    ensures v.Variant? ==> Headed(Encode(v), 4, v.index, Encode(v.content))
    ensures v.Present? ==> Encode(v) == [1] + Encode(v.content)
    ensures v.Record? ==> Encode(v) == EncodeAll(v.parts)
  {
    if v.Str? {
      PutHeads(8, |v.utf8|, v.utf8);
    } else if v.Bytes? {
      PutHeads(8, |v.data|, v.data);
    } else if v.Items? {
      PutHeads(8, |v.items|, EncodeAll(v.items));
    } else if v.Entries? {
      PutHeads(8, |v.entries|, EncodeEntries(v.entries));
    } else if v.Variant? {
      PutHeads(4, v.index, Encode(v.content));
    }
  }

  /** Elements follow each other in order, and the key of an entry comes before its value. */
  lemma {:induction false} PartsInOrder(xs: seq<Value>, ys: seq<Value>)
    ensures EncodeAll(xs + ys) == EncodeAll(xs) + EncodeAll(ys)
    decreases |xs|
  {
    if xs == [] {
      assert xs + ys == ys;
    } else {
      assert (xs + ys)[1..] == xs[1..] + ys;
      PartsInOrder(xs[1..], ys);
    }
  }

  lemma KeyBeforeValue(e: Entry)
    ensures Encode(e.key) <= EncodeEntry(e) && EncodeEntry(e)[|Encode(e.key)|..] == Encode(e.val)
  {
  }

  // ---------- Reading inverts writing ----------

  lemma BlobRoundTrip(data: seq<Byte>, rest: seq<Byte>)
    requires Counted(|data|)
    ensures GetBlob(Put(8, |data|) + data + rest) == Ok(Parsed(data, rest))
  {
    HeadThenGet(8, |data|, data, rest);
    TakeWhole(data, rest);
  }

  lemma FlagRoundTrip(flag: Byte, rest: seq<Byte>)
    ensures Get(1, [flag] + rest) == Ok(Parsed(flag, rest))
  {
    assert ([flag] + rest)[..1] == [flag];
    assert ([flag] + rest)[1..] == rest;
    assert Number([flag]) == 256 * Number([]) + flag;
  }

  /** Reading takes every non-zero flag byte for a one. */
  lemma AnyFlagIsRead(flag: Byte, t: Shape, rest: seq<Byte>)
    ensures Decode(Boolean, [flag] + rest) == Ok(Parsed(Bool(flag != 0), rest))
    ensures Decode(Optional(t), [flag] + rest)
      == if flag == 0 then Ok(Parsed(Absent, rest)) else Mapped(Decode(t, rest), x => Present(x))
  {
    FlagRoundTrip(flag, rest);
  }

  lemma NumberRoundTrip(s: Shape, v: Value, rest: seq<Byte>)
    requires Fits(s, v)
    requires s.Unsigned? || s.Signed? || s.Float?
    ensures Decode(s, Encode(v) + rest) == Ok(Parsed(v, rest))
  {
    PutThenGet(s.octets, v.n, rest);
  }

  lemma ScalarRange(code: int)
    requires IsScalar(code)
    ensures InRange(4, code)
  {
    WireWidths();
  }

  lemma CharRoundTrip(code: int, rest: seq<Byte>)
    requires IsScalar(code)
    ensures Decode(Scalar, Encode(Char(code)) + rest) == Ok(Parsed(Char(code), rest))
  {
    ScalarRange(code);
    PutThenGet(4, code, rest);
  }

  /** Any value of a shape is read back from its encoding, and exactly the trailing bytes are left. */
  lemma {:induction false} RoundTrip(s: Shape, v: Value, rest: seq<Byte>)
    requires Fits(s, v)
    ensures Decode(s, Encode(v) + rest) == Ok(Parsed(v, rest))
    decreases v, 1
  {
    match s
    case Unit => assert Encode(v) + rest == rest;
    case Optional(t) =>
      if v.Present? {
        assert Encode(v) + rest == [1] + (Encode(v.content) + rest);
        FlagRoundTrip(1, Encode(v.content) + rest);
        RoundTrip(t, v.content, rest);
      } else {
        FlagRoundTrip(0, rest);
      }
    case Newtype(t) => RoundTrip(t, v.content, rest);
    case Sequence(t) => SequenceRoundTrip(s, v, rest);
    case Fields(ts) => FieldsRoundTrip(ts, v.parts, rest);
    case Mapping(_, _) => MappingRoundTrip(s, v, rest);
    case Enum(ts) =>
      HeadThenGet(4, v.index, Encode(v.content), rest);
      RoundTrip(ts[v.index], v.content, rest);
    case Boolean => FlagRoundTrip(if v.b then 1 else 0, rest);
    case Scalar => CharRoundTrip(v.code, rest);
    case Text => BlobRoundTrip(v.utf8, rest);
    case Blob => BlobRoundTrip(v.data, rest);
    case _ => NumberRoundTrip(s, v, rest);
  }

  lemma {:induction false} SequenceRoundTrip(s: Shape, v: Value, rest: seq<Byte>)
    requires s.Sequence? && Fits(s, v)
    ensures Decode(s, Encode(v) + rest) == Ok(Parsed(v, rest))
    decreases v, 0
  {
    HeadThenGet(8, |v.items|, EncodeAll(v.items), rest);
    ItemsRoundTrip(s.element, v.items, rest);
  }

  lemma {:induction false} MappingRoundTrip(s: Shape, v: Value, rest: seq<Byte>)
    requires s.Mapping? && Fits(s, v)
    ensures Decode(s, Encode(v) + rest) == Ok(Parsed(v, rest))
    decreases v, 0
  {
    HeadThenGet(8, |v.entries|, EncodeEntries(v.entries), rest);
    EntriesRoundTrip(s, v.entries, rest);
  }

  lemma {:induction false} ItemsRoundTrip(t: Shape, xs: seq<Value>, rest: seq<Byte>)
    requires forall x :: x in xs ==> Fits(t, x)
    ensures DecodeItems(t, |xs|, EncodeAll(xs) + rest) == Ok(Parsed(xs, rest))
    decreases xs, 1
  {
    if xs == [] {
      assert EncodeAll(xs) + rest == rest;
    } else {
      assert EncodeAll(xs) + rest == Encode(xs[0]) + (EncodeAll(xs[1..]) + rest);
      RoundTrip(t, xs[0], EncodeAll(xs[1..]) + rest);
      ItemsRoundTrip(t, xs[1..], rest);
      assert [xs[0]] + xs[1..] == xs;
    }
  }

  lemma {:induction false} FieldsRoundTrip(ts: seq<Shape>, xs: seq<Value>, rest: seq<Byte>)
    requires FitsFields(ts, xs)
    ensures DecodeFields(ts, EncodeAll(xs) + rest) == Ok(Parsed(xs, rest))
    decreases xs, 1
  {
    if xs == [] {
      assert EncodeAll(xs) + rest == rest;
    } else {
      assert EncodeAll(xs) + rest == Encode(xs[0]) + (EncodeAll(xs[1..]) + rest);
      RoundTrip(ts[0], xs[0], EncodeAll(xs[1..]) + rest);
      FieldsRoundTrip(ts[1..], xs[1..], rest);
      assert [xs[0]] + xs[1..] == xs;
    }
  }

  lemma {:induction false} EntryRoundTrip(s: Shape, e: Entry, rest: seq<Byte>)
    requires FitsEntry(s, e)
    ensures DecodeEntry(s, EncodeEntry(e) + rest) == Ok(Parsed(e, rest))
    decreases e, 1
  {
    assert EncodeEntry(e) + rest == Encode(e.key) + (Encode(e.val) + rest);
    RoundTrip(s.key, e.key, Encode(e.val) + rest);
    RoundTrip(s.val, e.val, rest);
  }

  lemma {:induction false} EntriesRoundTrip(s: Shape, es: seq<Entry>, rest: seq<Byte>)
    requires s.Mapping?
    requires forall e :: e in es ==> FitsEntry(s, e)
    ensures DecodeEntries(s, |es|, EncodeEntries(es) + rest) == Ok(Parsed(es, rest))
    decreases es, 1
  {
    if es == [] {
      assert EncodeEntries(es) + rest == rest;
    } else {
      assert EncodeEntries(es) + rest == EncodeEntry(es[0]) + (EncodeEntries(es[1..]) + rest);
      EntryRoundTrip(s, es[0], EncodeEntries(es[1..]) + rest);
      EntriesRoundTrip(s, es[1..], rest);
      assert [es[0]] + es[1..] == es;
    }
  }

  /** Encodings of one shape are prefix-free: a common prefix with any tails forces equal values and tails. */
  lemma PrefixFree(s: Shape, v: Value, w: Value, r1: seq<Byte>, r2: seq<Byte>)
    requires Fits(s, v) && Fits(s, w)
    requires Encode(v) + r1 == Encode(w) + r2
    ensures v == w && r1 == r2
  {
    RoundTrip(s, v, r1);
    RoundTrip(s, w, r2);
  }

  lemma Injective(s: Shape, v: Value, w: Value)
    requires Fits(s, v) && Fits(s, w)
    ensures Encode(v) == Encode(w) <==> v == w
  {
    if Encode(v) == Encode(w) {
      PrefixFree(s, v, w, [], []);
    }
  }
}
