/**
 Big-endian integers on byte strings, as written by `put_u8` … `put_u64` and read by `get_*`.

 A read on a buffer that is too short panics in the original; here it yields `Underrun`.
 */
module WireBytes {
  type Byte = b: nat | b < 256

  datatype Failure =
    | Underrun | InvalidData | UnsupportedChar | NotUtf8 | UnknownVariant
    | NoData | InvalidMagic | AssertionFailed

  datatype Result<+T> = Ok(value: T) | Err(error: Failure)

  /** What a read leaves: the value it found and the bytes after it. */
  datatype Parsed<+T> = Parsed(item: T, rest: seq<Byte>)

  function Pow256(width: nat): (p: nat)
    ensures p > 0
  {
    if width == 0 then 1 else 256 * Pow256(width - 1)
  }

  /** The low `width` bytes of `n` in two's complement, most significant byte first. */
  function Put(width: nat, n: int): (s: seq<Byte>)
    ensures |s| == width
  {
    if width == 0 then [] else Put(width - 1, n / 256) + [n % 256]
  }

  function Number(s: seq<Byte>): nat {
    if s == [] then 0 else 256 * Number(s[..|s| - 1]) + s[|s| - 1]
  }

  function Get(width: nat, buf: seq<Byte>): Result<Parsed<nat>> {
    if |buf| < width then Err(Underrun) else Ok(Parsed(Number(buf[..width]), buf[width..]))
  }

  function Take(length: nat, buf: seq<Byte>): Result<Parsed<seq<Byte>>> {
    if |buf| < length then Err(Underrun) else Ok(Parsed(buf[..length], buf[length..]))
  }

  /** What is in range of `width` unsigned or signed bytes; a negative number wraps around. */
  predicate InRange(width: nat, n: int) {
    0 <= n + Pow256(width) && n < Pow256(width)
  }

  function Wrap(width: nat, n: int): nat
    requires InRange(width, n)
  {
    if n < 0 then n + Pow256(width) else n
  }

  lemma {:induction false} NumberOfPut(width: nat, n: int)
    requires InRange(width, n)
    ensures Number(Put(width, n)) == Wrap(width, n)
  {
    if width > 0 {
      NumberOfPut(width - 1, n / 256);
      var s := Put(width, n);
      assert s[..|s| - 1] == Put(width - 1, n / 256);
    }
  }

  lemma {:induction false} PutOfNumber(s: seq<Byte>)
    ensures Number(s) < Pow256(|s|)
    ensures Put(|s|, Number(s)) == s
  {
    if s != [] {
      PutOfNumber(s[..|s| - 1]);
      assert s == s[..|s| - 1] + [s[|s| - 1]];
    }
  }

  /** Byte `i` of the `width` byte number `n`, the most significant byte first. */
  function BigEndianByte(width: nat, n: int, i: nat): Byte
    requires i < width
  {
    n / Pow256(width - 1 - i) % 256
  }

  lemma DivideTwice(n: int, p: nat)
    requires p > 0
    ensures n / 256 / p == n / (256 * p)
  {
    var q := n / 256 / p;
    var r := n / 256 % p;
    assert n / 256 == q * p + r;
    assert n == 256 * (q * p + r) + n % 256 == q * (256 * p) + (256 * r + n % 256);
    QuotientUnique(n, 256 * p, q, 256 * r + n % 256);
  }

  lemma {:induction false} AtLeastOnce(k: nat, d: nat)
    requires k > 0
    ensures k * d >= d
  {
    if k > 1 {
      AtLeastOnce(k - 1, d);
      assert k * d == (k - 1) * d + d;
    }
  }

  lemma SameQuotient(d: nat, q: int, x: int, p: int, y: int)
    requires 0 <= x < d && 0 <= y < d && q * d + x == p * d + y
    ensures p <= q
  {
    if p > q {
      AtLeastOnce(p - q, d);
    }
  }

  lemma QuotientUnique(n: int, d: nat, q: int, x: int)
    requires d > 0 && n == q * d + x && 0 <= x < d
    ensures n / d == q
  {
    var p, y := n / d, n % d;
    assert n == p * d + y;
    SameQuotient(d, q, x, p, y);
    SameQuotient(d, p, y, q, x);
  }

  /** The wire order is big-endian: every byte of a written number, by its place value. */
  lemma {:induction false} PutIsBigEndian(width: nat, n: int, i: nat)
    requires i < width
    ensures Put(width, n)[i] == BigEndianByte(width, n, i)
  {
    if i < width - 1 {
      PutIsBigEndian(width - 1, n / 256, i);
      DivideTwice(n, Pow256(width - 2 - i));
    }
  }

  /** The bytes of `s` are those of `n`, the most significant first. */
  ghost predicate IsBigEndian(s: seq<Byte>, n: int) {
    forall i :: 0 <= i < |s| ==> s[i] == BigEndianByte(|s|, n, i)
  }

  lemma WrittenBigEndian(width: nat, n: int)
    ensures IsBigEndian(Put(width, n), n)
  {
    forall i | 0 <= i < width
      ensures Put(width, n)[i] == BigEndianByte(width, n, i)
    {
      PutIsBigEndian(width, n, i);
    }
  }

  /** ... and a number that is read is the sum of its bytes by place value. */
  lemma {:induction false} NumberIsBigEndian(s: seq<Byte>)
    requires s != []
    ensures Number(s) == s[0] * Pow256(|s| - 1) + Number(s[1..])
  {
    var front, last := s[..|s| - 1], s[|s| - 1];
    if front != [] {
      NumberIsBigEndian(front);
      NumberOfTail(s);
      Distribute(s[0], Pow256(|s| - 2), Number(front[1..]), last);
    }
  }

  lemma NumberOfTail(s: seq<Byte>)
    requires |s| > 1
    ensures Number(s[1..]) == 256 * Number(s[..|s| - 1][1..]) + s[|s| - 1]
  {
    var tail := s[1..];
    assert tail[..|tail| - 1] == s[..|s| - 1][1..];
  }

  lemma Distribute(a: nat, p: nat, x: nat, l: nat)
    ensures 256 * (a * p + x) + l == a * (256 * p) + (256 * x + l)
  {
  }

  /** A fixed-width integer is read back exactly, whatever follows it. */
  lemma PutThenGet(width: nat, n: int, rest: seq<Byte>)
    requires InRange(width, n)
    ensures Get(width, Put(width, n) + rest) == Ok(Parsed(Wrap(width, n), rest))
  {
    NumberOfPut(width, n);
    var buf := Put(width, n) + rest;
    assert buf[..width] == Put(width, n);
    assert buf[width..] == rest;
  }

  /** The same, when the integer is the head of a longer piece. */
  lemma HeadThenGet(width: nat, n: int, body: seq<Byte>, rest: seq<Byte>)
    requires InRange(width, n)
    ensures Get(width, Put(width, n) + body + rest) == Ok(Parsed(Wrap(width, n), body + rest))
  {
    PutThenGet(width, n, body + rest);
    assert Put(width, n) + body + rest == Put(width, n) + (body + rest);
  }

  /** A read followed by a write reproduces the bytes that were read. */
  lemma GetThenPut(width: nat, buf: seq<Byte>)
    requires width <= |buf|
    ensures Get(width, buf).value.item < Pow256(width)
    ensures Put(width, Get(width, buf).value.item) + Get(width, buf).value.rest == buf
  {
    PutOfNumber(buf[..width]);
    assert buf == buf[..width] + buf[width..];
  }

  /** Only the low bytes count: numbers that differ by 256^width are written alike. */
  lemma {:induction false} PutWraps(width: nat, n: int)
    ensures Put(width, n - Pow256(width)) == Put(width, n)
  {
    if width > 0 {
      PutWraps(width - 1, n / 256);
      assert (n - 256 * Pow256(width - 1)) / 256 == n / 256 - Pow256(width - 1);
    }
  }

  lemma Grouped(a: seq<Byte>, b: seq<Byte>, c: seq<Byte>)
    ensures a + b + c == a + (b + c)
  {
  }

  lemma TakeWhole(data: seq<Byte>, rest: seq<Byte>)
    ensures Take(|data|, data + rest) == Ok(Parsed(data, rest))
  {
    assert (data + rest)[..|data|] == data;
    assert (data + rest)[|data|..] == rest;
  }

  /** The widths of the wire integers. */
  lemma WireWidths()
    ensures Pow256(1) == 256
    ensures Pow256(2) == 0x1_0000
    ensures Pow256(4) == 0x1_0000_0000
    ensures Pow256(8) == 0x1_0000_0000_0000_0000
  {
    assert Pow256(2) == 256 * Pow256(1);
    assert Pow256(3) == 256 * Pow256(2);
    assert Pow256(4) == 256 * Pow256(3);
    assert Pow256(5) == 256 * Pow256(4);
    assert Pow256(6) == 256 * Pow256(5);
    assert Pow256(7) == 256 * Pow256(6);
    assert Pow256(8) == 256 * Pow256(7);
  }

  /** The growing side of a buffer: `BufMut` on a byte vector. */
  class Writer {
    var bytes: seq<Byte>

    constructor ()
      ensures bytes == []
    {
      bytes := [];
    }

    method PutInt(width: nat, n: int)
      modifies this
      ensures bytes == old(bytes) + Put(width, n)
    {
      bytes := bytes + Put(width, n);
    }

    method PutSlice(data: seq<Byte>)
      modifies this
      ensures bytes == old(bytes) + data
    {
      bytes := bytes + data;
    }
  }

  /** The shrinking side of a buffer: `Buf`. */
  class Reader {
    var bytes: seq<Byte>

    constructor (data: seq<Byte>)
      ensures bytes == data
    {
      bytes := data;
    }

    method GetInt(width: nat) returns (r: Result<nat>)
      modifies this
      ensures Advanced(Get(width, old(bytes)), r)
    {
      if |bytes| < width {
        return Err(Underrun);
      }
      r := Ok(Number(bytes[..width]));
      bytes := bytes[width..];
    }

    method CopyOut(length: nat) returns (r: Result<seq<Byte>>)
      modifies this
      ensures Advanced(Take(length, old(bytes)), r)
    {
      if |bytes| < length {
        return Err(Underrun);
      }
      r := Ok(bytes[..length]);
      bytes := bytes[length..];
    }

    /** The outcome `r` and the bytes now left are the ones that the pure reader announces. */
    ghost predicate Advanced<T>(spec: Result<Parsed<T>>, r: Result<T>)
      reads this
    {
      match spec
      case Err(e) => r == Err(e)
      case Ok(p) => r == Ok(p.item) && bytes == p.rest
    }
  }
}
