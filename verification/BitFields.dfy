/**
 Fields of up to eight bits inside a byte slice, stored and read bit by bit.

 Bit `i` of a slice is bit `i % 8` of byte `i / 8`, least significant first.
 */
module BitFields {
  import opened WireBytes

  /** `get_bit`, read off by halving. */
  predicate Bit(b: nat, pos: nat)
    decreases pos, b
  {
    if pos == 0 then b % 2 == 1 else Bit(b / 2, pos - 1)
  }

  /** `set_bit_to`. */
  function SetBitTo(b: nat, pos: nat, on: bool): nat
    decreases pos, b
  {
    if pos == 0 then b / 2 * 2 + (if on then 1 else 0) else b % 2 + 2 * SetBitTo(b / 2, pos - 1, on)
  }

  function Pow2(width: nat): (p: nat)
    ensures p > 0
  {
    if width == 0 then 1 else 2 * Pow2(width - 1)
  }

  /** The number made of the low `width` bits of `n`. */
  function Low(n: nat, width: nat): nat
    decreases width, n
  {
    if width == 0 then 0 else n % 2 + 2 * Low(n / 2, width - 1)
  }

  lemma {:induction false} BitAfterSet(b: nat, pos: nat, on: bool, k: nat)
    ensures Bit(SetBitTo(b, pos, on), k) == if k == pos then on else Bit(b, k)
    decreases pos
  {
    if pos > 0 && k > 0 {
      BitAfterSet(b / 2, pos - 1, on, k - 1);
    }
  }

  lemma {:induction false} SetStaysBelow(b: nat, pos: nat, on: bool, width: nat)
    requires pos < width && b < Pow2(width)
    ensures SetBitTo(b, pos, on) < Pow2(width)
    decreases pos
  {
    if pos > 0 {
      SetStaysBelow(b / 2, pos - 1, on, width - 1);
    }
  }

  lemma {:induction false} BitOfLow(n: nat, width: nat, k: nat)
    ensures Bit(Low(n, width), k) == (k < width && Bit(n, k))
    decreases k
  {
    if width == 0 {
      if k > 0 { BitOfLow(0, 0, k - 1); }
    } else if k > 0 {
      BitOfLow(n / 2, width - 1, k - 1);
    }
  }

  /** Numbers below 2^width with the same bits are equal. */
  lemma {:induction false} BitsDetermine(m: nat, n: nat, width: nat)
    requires m < Pow2(width) && n < Pow2(width)
    requires forall k :: 0 <= k < width ==> Bit(m, k) == Bit(n, k)
    ensures m == n
    decreases width
  {
    if width > 0 {
      assert Bit(m, 0) == Bit(n, 0);
      forall k | 0 <= k < width - 1
        ensures Bit(m / 2, k) == Bit(n / 2, k)
      {
        assert Bit(m, k + 1) == Bit(n, k + 1);
      }
      BitsDetermine(m / 2, n / 2, width - 1);
    }
  }

  // ---------- The shifts and masks of the original ----------

  lemma Halves(b: bv8)
    ensures (b >> 1) as int == b as int / 2
    ensures (b & 1) as int == b as int % 2
  {
  }

  /** `mask` is `1 << pos`. */
  ghost predicate IsMask(mask: bv8, pos: nat)
    decreases pos
  {
    if pos == 0 then mask == 1 else mask & 1 == 0 && IsMask(mask >> 1, pos - 1)
  }

  function Twiddle(b: bv8, mask: bv8, on: bool): bv8 {
    if on then (b & !mask) | mask else b & !mask
  }

  lemma ShiftedTwiddle(b: bv8, mask: bv8, on: bool)
    requires mask & 1 == 0
    ensures Twiddle(b, mask, on) >> 1 == Twiddle(b >> 1, mask >> 1, on)
    ensures Twiddle(b, mask, on) & 1 == b & 1
  {
  }

  lemma LowestTwiddle(b: bv8, on: bool)
    ensures Twiddle(b, 1, on) >> 1 == b >> 1
    ensures Twiddle(b, 1, on) & 1 == if on then 1 else 0
  {
  }

  lemma ShiftInSteps(b: bv8, pos: nat)
    requires 0 < pos < 8
    ensures b >> pos == (b >> 1) >> (pos - 1)
  {
    if pos == 1 {
      assert b >> 1 == (b >> 1) >> 0;
    } else if pos == 2 {
      assert b >> 2 == (b >> 1) >> 1;
    } else if pos == 3 {
      assert b >> 3 == (b >> 1) >> 2;
    } else if pos == 4 {
      assert b >> 4 == (b >> 1) >> 3;
    } else if pos == 5 {
      assert b >> 5 == (b >> 1) >> 4;
    } else if pos == 6 {
      assert b >> 6 == (b >> 1) >> 5;
    } else {
      assert b >> 7 == (b >> 1) >> 6;
    }
  }

  /** `get_bit` shifts the bit down and masks it. */
  lemma {:induction false} GetBitAgrees(b: bv8, pos: nat)
    requires pos < 8
    ensures Bit(b as int, pos) <==> (b >> pos) & 1 == 1
    ensures (b >> pos) & 1 == 0 || (b >> pos) & 1 == 1
    decreases pos
  {
    Halves(b);
    if pos == 0 {
      assert b >> 0 == b;
      LowestBit(b);
    } else {
      GetBitAgrees(b >> 1, pos - 1);
      ShiftInSteps(b, pos);
    }
  }

  lemma LowestBit(b: bv8)
    ensures b & 1 == 0 || b & 1 == 1
  {
  }

  lemma SetAtLowest(b: bv8, out: bv8, on: bool)
    requires out >> 1 == b >> 1 && out & 1 == if on then 1 else 0
    ensures SetBitTo(b as int, 0, on) == out as int
  {
    Halves(b);
    Halves(out);
  }

  lemma SetAbove(b: bv8, out: bv8, pos: nat, on: bool)
    requires pos > 0
    requires out & 1 == b & 1 && SetBitTo((b >> 1) as int, pos - 1, on) == (out >> 1) as int
    ensures SetBitTo(b as int, pos, on) == out as int
  {
    Halves(b);
    Halves(out);
  }

  lemma {:induction false} SetBitAgrees(b: bv8, mask: bv8, pos: nat, on: bool)
    requires IsMask(mask, pos)
    ensures SetBitTo(b as int, pos, on) == Twiddle(b, mask, on) as int
    decreases pos
  {
    if pos == 0 {
      LowestTwiddle(b, on);
      SetAtLowest(b, Twiddle(b, mask, on), on);
    } else {
      SetBitAgrees(b >> 1, mask >> 1, pos - 1, on);
      ShiftedTwiddle(b, mask, on);
      SetAbove(b, Twiddle(b, mask, on), pos, on);
    }
  }

  lemma Masks()
    ensures IsMask(1 << 0, 0) && IsMask(1 << 1, 1) && IsMask(1 << 2, 2) && IsMask(1 << 3, 3)
    ensures IsMask(1 << 4, 4) && IsMask(1 << 5, 5) && IsMask(1 << 6, 6) && IsMask(1 << 7, 7)
  {
  }

  // ---------- Fields in a byte slice ----------

  datatype Field = Field(pos: nat, width: nat)

  predicate BitAt(s: seq<Byte>, i: nat)
    requires i < 8 * |s|
  {
    Bit(s[i / 8], i % 8)
  }

  /** `check_field` refuses the field. */
  predicate Overflows(f: Field, length: nat) {
    f.width > 8 || f.pos + f.width > 8 * length
  }

  predicate Covers(f: Field, i: nat) { f.pos <= i < f.pos + f.width }

  /** `after` differs from `before` only inside the field, where it holds the low bits of `repr`. */
  ghost predicate Stored(before: seq<Byte>, after: seq<Byte>, f: Field, repr: Byte) {
    && |after| == |before|
    && forall i :: 0 <= i < 8 * |before| ==>
      BitAt(after, i) == if Covers(f, i) then Bit(repr, i - f.pos) else BitAt(before, i)
  }

  /** `out` holds the bits of the field, and zeroes above them. */
  ghost predicate ReadsAs(s: seq<Byte>, f: Field, out: Byte)
    requires !Overflows(f, |s|)
  {
    forall i :: 0 <= i < 8 ==> Bit(out, i) == (i < f.width && BitAt(s, f.pos + i))
  }

  /** A field of at least one bit fits exactly when it has at most eight and the slice has all of them. */
  lemma FieldFitsIff(f: Field, length: nat)
    requires f.width > 0
    ensures !Overflows(f, length) <==> f.width <= 8 && forall i: nat :: Covers(f, i) ==> i < 8 * length
  {
    var last: nat := f.pos + f.width - 1;
    assert Covers(f, last);
    if Overflows(f, length) && f.width <= 8 {
      assert last >= 8 * length;
    }
  }

  lemma EightBits()
    ensures Pow2(8) == 256
  {
  }

  function WithBit(b: Byte, pos: nat, on: bool): (out: Byte)
    requires pos < 8
    ensures forall k :: 0 <= k < 8 ==> Bit(out, k) == if k == pos then on else Bit(b, k)
  {
    EightBits();
    SetStaysBelow(b, pos, on, 8);
    assert forall k :: 0 <= k < 8 ==> Bit(SetBitTo(b, pos, on), k) == if k == pos then on else Bit(b, k) by {
      forall k | 0 <= k < 8 {
        BitAfterSet(b, pos, on, k);
      }
    }
    SetBitTo(b, pos, on)
  }

  method Store(bytes: array<Byte>, f: Field, repr: Byte) returns (stored: bool)
    modifies bytes
    ensures stored == !Overflows(f, bytes.Length)
    ensures !stored ==> bytes[..] == old(bytes[..])
    ensures stored ==> Stored(old(bytes[..]), bytes[..], f, repr)
  {
    if Overflows(f, bytes.Length) {
      return false;
    }
    for i := 0 to f.width
      invariant Stored(old(bytes[..]), bytes[..], Field(f.pos, i), repr)
    {
      var idx := f.pos + i;
      ghost var before := bytes[..];
      bytes[idx / 8] := WithBit(bytes[idx / 8], idx % 8, Bit(repr, i));
      assert forall k :: 0 <= k < 8 * |before| ==>
        BitAt(bytes[..], k) == if k == idx then Bit(repr, i) else BitAt(before, k);
    }
    stored := true;
  }

  method GetAs(bytes: array<Byte>, f: Field) returns (found: bool, repr: Byte)
    ensures found == !Overflows(f, bytes.Length)
    ensures found ==> ReadsAs(bytes[..], f, repr)
  {
    repr := 0;
    if Overflows(f, bytes.Length) {
      return false, 0;
    }
    found := true;
    ZeroBits();
    for i := 0 to f.width
      invariant ReadsAs(bytes[..], Field(f.pos, i), repr)
    {
      var idx := f.pos + i;
      repr := WithBit(repr, i, Bit(bytes[idx / 8], idx % 8));
    }
  }

  lemma ZeroBits()
    ensures forall i :: 0 <= i < 8 ==> !Bit(0, i)
  {
    forall i | 0 <= i < 8
      ensures !Bit(0, i)
    {
      BitOfLow(0, 0, i);
    }
  }

  /** What was stored is read back, cut to the width of the field. */
  lemma StoreThenGet(before: seq<Byte>, after: seq<Byte>, f: Field, repr: Byte, out: Byte)
    requires !Overflows(f, |before|)
    requires Stored(before, after, f, repr) && ReadsAs(after, f, out)
    ensures out == Low(repr, f.width)
  {
    forall k | 0 <= k < 8
      ensures Bit(out, k) == Bit(Low(repr, f.width), k)
    {
      BitOfLow(repr, f.width, k);
    }
    EightBits();
    LowBelow(repr, f.width);
    BitsDetermine(out, Low(repr, f.width), 8);
  }

  /** A field that shares no bit with the stored one reads as before. */
  lemma StoreKeepsOthers(before: seq<Byte>, after: seq<Byte>, f: Field, g: Field, repr: Byte, x: Byte, y: Byte)
    requires !Overflows(g, |before|)
    requires Stored(before, after, f, repr) && ReadsAs(before, g, x) && ReadsAs(after, g, y)
    requires forall i :: 0 <= i < 8 * |before| ==> !(Covers(f, i) && Covers(g, i))
    ensures x == y
  {
    EightBits();
    BitsDetermine(x, y, 8);
  }

  lemma {:induction false} PowGrows(m: nat, n: nat)
    requires m <= n
    ensures Pow2(m) <= Pow2(n)
    decreases n
  {
    if m < n {
      PowGrows(m, n - 1);
    }
  }

  lemma {:induction false} LowBelow(n: nat, width: nat)
    requires width <= 8
    ensures Low(n, width) < Pow2(width) <= Pow2(8)
    decreases width
  {
    PowGrows(width, 8);
    if width > 0 {
      LowBelow(n / 2, width - 1);
    }
  }

  // ---------- One byte ----------

  function Above(n: nat, pos: nat): nat
    decreases pos, n
  {
    if pos == 0 then n else Above(n / 2, pos - 1)
  }

  /** The number in a field of a single byte. */
  function FieldOf(b: Byte, f: Field): nat { Low(Above(b, f.pos), f.width) }

  lemma {:induction false} BitAbove(n: nat, pos: nat, k: nat)
    ensures Bit(Above(n, pos), k) == Bit(n, pos + k)
    decreases pos
  {
    if pos > 0 {
      BitAbove(n / 2, pos - 1, k);
    }
  }

  lemma ReadOneByte(b: Byte, f: Field, out: Byte)
    requires !Overflows(f, 1) && ReadsAs([b], f, out)
    ensures out == FieldOf(b, f)
  {
    forall k | 0 <= k < 8
      ensures Bit(out, k) == Bit(FieldOf(b, f), k)
    {
      BitOfLow(Above(b, f.pos), f.width, k);
      BitAbove(b, f.pos, k);
      if k < f.width {
        assert BitAt([b], f.pos + k) == Bit(b, f.pos + k);
      }
    }
    EightBits();
    LowBelow(Above(b, f.pos), f.width);
    BitsDetermine(out, FieldOf(b, f), 8);
  }

  lemma LowOne(n: nat)
    ensures Low(n, 1) == n % 2
  {
  }

  lemma LowTwo(n: nat)
    ensures Low(n, 2) == n % 4
  {
    LowOne(n / 2);
  }

  lemma HalfOf8(n: nat)
    ensures n % 8 == n % 2 + 2 * (n / 2 % 4)
  {
  }

  lemma LowThree(n: nat)
    ensures Low(n, 3) == n % 8
  {
    HalfOf8(n);
    LowTwo(n / 2);
  }

  lemma HalfOf16(n: nat)
    ensures n % 16 == n % 2 + 2 * (n / 2 % 8)
  {
  }

  lemma LowFour(n: nat)
    ensures Low(n, 4) == n % 16
  {
    HalfOf16(n);
    LowThree(n / 2);
  }

  lemma HalfOf32(n: nat)
    ensures n % 32 == n % 2 + 2 * (n / 2 % 16)
  {
  }

  lemma LowFive(n: nat)
    ensures Low(n, 5) == n % 32
  {
    HalfOf32(n);
    LowFour(n / 2);
  }

  lemma AboveTwo(n: nat)
    ensures Above(n, 2) == n / 4
  {
    assert Above(n / 2, 1) == Above(n / 4, 0);
  }

  lemma AboveSeven(n: nat)
    ensures Above(n, 7) == n / 128
  {
    assert Above(n, 7) == Above(n / 2, 6);
    assert Above(n / 2, 6) == Above(n / 4, 5);
    assert Above(n / 4, 5) == Above(n / 8, 4);
    assert Above(n / 8, 4) == Above(n / 16, 3);
    assert Above(n / 16, 3) == Above(n / 32, 2);
    AboveTwo(n / 32);
  }

  function Worth(b: nat, pos: nat, value: nat): nat { if Bit(b, pos) then value else 0 }

  lemma SumOfOne(b: nat)
    ensures b == Worth(b, 0, 1) + 2 * (b / 2)
    ensures Worth(b, 1, 2) == 2 * Worth(b / 2, 0, 1)
  {
    assert Bit(b, 1) == Bit(b / 2, 0);
  }

  lemma SumOfTwo(b: nat)
    ensures b == Worth(b, 0, 1) + Worth(b, 1, 2) + 4 * (b / 4)
  {
    SumOfOne(b);
    SumOfOne(b / 2);
    assert b / 2 / 2 == b / 4;
  }

  lemma TwoUp(b: nat, k: nat)
    ensures Bit(b, 2 + k) == Bit(b / 4, k)
  {
    assert Bit(b, 2 + k) == Bit(b / 2, 1 + k);
  }

  lemma SumOfFour(b: nat)
    ensures b == Worth(b, 0, 1) + Worth(b, 1, 2) + Worth(b, 2, 4) + Worth(b, 3, 8) + 16 * (b / 16)
  {
    SumOfTwo(b);
    SumOfTwo(b / 4);
    TwoUp(b, 0);
    TwoUp(b, 1);
    assert b / 4 / 4 == b / 16;
  }

  lemma HighBit(b: nat, k: nat)
    ensures Bit(b, 4 + k) == Bit(b / 16, k)
  {
    TwoUp(b, 2 + k);
    TwoUp(b / 4, k);
    assert b / 4 / 4 == b / 16;
  }

  lemma SumOfBits(b: Byte)
    ensures b == Worth(b, 0, 1) + Worth(b, 1, 2) + Worth(b, 2, 4) + Worth(b, 3, 8)
               + Worth(b, 4, 16) + Worth(b, 5, 32) + Worth(b, 6, 64) + Worth(b, 7, 128)
  {
    SumOfFour(b);
    SumOfFour(b / 16);
    HighBit(b, 0);
    HighBit(b, 1);
    HighBit(b, 2);
    HighBit(b, 3);
    assert b / 16 / 16 == 0;
  }
}
