/** UTF-8, as `String::from_utf8` checks it: exactly the encodings of sequences of Unicode scalar values. */
module Utf8Text {
  import opened WireBytes
  import opened SerdeCodec

  /** The encoding of one code point, in one to four bytes. */
  function OneUtf8(c: int): seq<Byte>
    requires IsScalar(c)
  {
    if c < 0x80 then [c]
    else if c < 0x800 then [0xC0 + c / 0x40, 0x80 + c % 0x40]
    else if c < 0x1_0000 then [0xE0 + c / 0x1000, 0x80 + c / 0x40 % 0x40, 0x80 + c % 0x40]
    else [0xF0 + c / 0x4_0000, 0x80 + c / 0x1000 % 0x40, 0x80 + c / 0x40 % 0x40, 0x80 + c % 0x40]
  }

  predicate AllScalar(cs: seq<int>) { forall c :: c in cs ==> IsScalar(c) }

  function Text(cs: seq<int>): seq<Byte>
    requires AllScalar(cs)
  {
    if cs == [] then [] else OneUtf8(cs[0]) + Text(cs[1..])
  }

  lemma OneIsUtf8(c: int, rest: seq<Byte>)
    requires IsScalar(c) && Utf8(rest)
    ensures Utf8(OneUtf8(c) + rest)
  {
    var one := OneUtf8(c);
    var s := one + rest;
    assert s[|one|..] == rest;
  }

  lemma {:induction false} TextIsUtf8(cs: seq<int>)
    requires AllScalar(cs)
    ensures Utf8(Text(cs))
  {
    if cs != [] {
      TextIsUtf8(cs[1..]);
      OneIsUtf8(cs[0], Text(cs[1..]));
    }
  }

  /** The number of bytes of the first character. */
  function FirstWidth(s: seq<Byte>): nat
    requires s != []
  {
    if s[0] < 0x80 then 1 else if s[0] < 0xE0 then 2 else if s[0] < 0xF0 then 3 else 4
  }

  lemma TwoBytes(a: Byte, b: Byte) returns (c: int)
    requires 0xC2 <= a < 0xE0 && 0x80 <= b < 0xC0
    ensures IsScalar(c) && OneUtf8(c) == [a, b]
  {
    c := (a - 0xC0) * 0x40 + (b - 0x80);
  }

  lemma ThreeBytes(a: Byte, b: Byte, d: Byte) returns (c: int)
    requires 0xE0 <= a < 0xF0 && 0x80 <= b < 0xC0 && 0x80 <= d < 0xC0
    requires (a == 0xE0 ==> b >= 0xA0) && (a == 0xED ==> b < 0xA0)
    ensures IsScalar(c) && OneUtf8(c) == [a, b, d]
  {
    c := (a - 0xE0) * 0x1000 + (b - 0x80) * 0x40 + (d - 0x80);
  }

  lemma LastDigit(h: nat, l: nat)
    requires l < 0x40
    ensures (h * 0x40 + l) / 0x40 == h && (h * 0x40 + l) % 0x40 == l
  {
  }

  /** The digits of a number to the base 64. */
  lemma FourDigits(x: nat, y: nat, z: nat, w: nat)
    requires y < 0x40 && z < 0x40 && w < 0x40
    ensures var c := x * 0x4_0000 + y * 0x1000 + z * 0x40 + w;
      c / 0x4_0000 == x && c / 0x1000 % 0x40 == y && c / 0x40 % 0x40 == z && c % 0x40 == w
  {
    var c1, c2 := (x * 0x40 + y) * 0x40 + z, x * 0x40 + y;
    var c := c1 * 0x40 + w;
    LastDigit(c1, w);
    LastDigit(c2, z);
    LastDigit(x, y);
    assert c / 0x1000 == c / 0x40 / 0x40;
    assert c / 0x4_0000 == c / 0x1000 / 0x40;
  }

  lemma FourBytes(a: Byte, b: Byte, d: Byte, e: Byte) returns (c: int)
    requires 0xF0 <= a < 0xF5 && 0x80 <= b < 0xC0 && 0x80 <= d < 0xC0 && 0x80 <= e < 0xC0
    requires (a == 0xF0 ==> b >= 0x90) && (a == 0xF4 ==> b < 0x90)
    ensures IsScalar(c) && OneUtf8(c) == [a, b, d, e]
  {
    c := (a - 0xF0) * 0x4_0000 + (b - 0x80) * 0x1000 + (d - 0x80) * 0x40 + (e - 0x80);
    FourDigits(a - 0xF0, b - 0x80, d - 0x80, e - 0x80);
    assert 0x1_0000 <= c < 0x11_0000;
  }

  lemma FirstCharacter(s: seq<Byte>) returns (c: int)
    requires s != [] && Utf8(s)
    ensures FirstWidth(s) <= |s| && Utf8(s[FirstWidth(s)..])
    ensures IsScalar(c) && OneUtf8(c) == s[..FirstWidth(s)]
  {
    if s[0] < 0x80 {
      c := s[0];
    } else if s[0] < 0xE0 {
      c := TwoBytes(s[0], s[1]);
    } else if s[0] < 0xF0 {
      c := ThreeBytes(s[0], s[1], s[2]);
    } else {
      c := FourBytes(s[0], s[1], s[2], s[3]);
    }
  }

  lemma {:induction false} Utf8IsText(s: seq<Byte>) returns (cs: seq<int>)
    requires Utf8(s)
    ensures AllScalar(cs) && Text(cs) == s
    decreases |s|
  {
    cs := [];
    if s != [] {
      var c := FirstCharacter(s);
      var w := FirstWidth(s);
      var rest := Utf8IsText(s[w..]);
      cs := [c] + rest;
      assert cs[1..] == rest;
      assert s == s[..w] + s[w..];
    }
  }

  /** Byte strings pass the check exactly when they are the text of some scalar values. */
  lemma Utf8Iff(s: seq<Byte>)
    ensures Utf8(s) <==> exists cs :: AllScalar(cs) && Text(cs) == s
  {
    if Utf8(s) {
      var cs := Utf8IsText(s);
    }
    if exists cs :: AllScalar(cs) && Text(cs) == s {
      var cs :| AllScalar(cs) && Text(cs) == s;
      TextIsUtf8(cs);
    }
  }
}
