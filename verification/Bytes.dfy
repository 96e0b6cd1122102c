/** Big-endian numbers and the exclusive or of bytes. */
module Bytes {
  import opened Packets
  import opened Words

  function Power(n: nat): nat {
    if n == 0 then 1 else 256 * Power(n - 1)
  }

  const UINT16: nat := 0x1_0000
  const UINT64: nat := 0x1_0000_0000_0000_0000

  type Uint64 = n: nat | n < UINT64
  type Uint16 = n: nat | n < UINT16

  /** The n bytes of a number, most significant first; higher bytes are cut off. */
  function BigEndian(v: nat, n: nat): (b: seq<Byte>)
    ensures |b| == n
    decreases n
  {
    if n == 0 then [] else BigEndian(v / 256, n - 1) + [v % 256]
  }

  function Value(b: seq<Byte>): nat {
    if b == [] then 0 else 256 * Value(b[..|b| - 1]) + b[|b| - 1]
  }

  lemma {:induction false} ValueOfBytes(v: nat, n: nat)
    requires v < Power(n)
    ensures Value(BigEndian(v, n)) == v
    decreases n
  {
    if n > 0 {
      ValueOfBytes(v / 256, n - 1);
      assert BigEndian(v, n)[..n - 1] == BigEndian(v / 256, n - 1);
    }
  }

  lemma {:induction false} BytesOfValue(b: seq<Byte>)
    ensures BigEndian(Value(b), |b|) == b && Value(b) < Power(|b|)
  {
    if b != [] {
      BytesOfValue(b[..|b| - 1]);
      assert b == b[..|b| - 1] + [b[|b| - 1]];
    }
  }

  lemma {:induction false} Powers()
    ensures Power(1) == 256 && Power(2) == UINT16 && Power(8) == UINT64
  {
    assert Power(2) == UINT16 && Power(3) == 0x100_0000 && Power(4) == 0x1_0000_0000;
    assert Power(6) == 0x1_0000_0000_0000;
  }

  lemma {:induction false} Number64(v: nat)
    requires v < UINT64
    ensures Value(BigEndian(v, 8)) == v
  {
    Powers();
    ValueOfBytes(v, 8);
  }

  lemma {:induction false} Number16(v: nat)
    requires v < UINT16
    ensures Value(BigEndian(v, 2)) == v
  {
    Powers();
    ValueOfBytes(v, 2);
  }

  lemma {:induction false} Bytes64(b: seq<Byte>)
    requires |b| == 8
    ensures BigEndian(Value(b), 8) == b && Value(b) < UINT64
  {
    Powers();
    BytesOfValue(b);
  }

  lemma {:induction false} Bytes16(b: seq<Byte>)
    requires |b| == 2
    ensures BigEndian(Value(b), 2) == b && Value(b) < UINT16
  {
    Powers();
    BytesOfValue(b);
  }

  /** The number in n bytes from a place on. */
  function Read(b: seq<Byte>, at: nat, n: nat): (v: nat)
    requires at + n <= |b|
    ensures v < Power(n)
  {
    BytesOfValue(b[at..at + n]);
    Value(b[at..at + n])
  }

  function Read64(b: seq<Byte>, at: nat): Uint64
    requires at + 8 <= |b|
  {
    Powers();
    Read(b, at, 8)
  }

  function Read16(b: seq<Byte>, at: nat): Uint16
    requires at + 2 <= |b|
  {
    Powers();
    Read(b, at, 2)
  }

  // ----- exclusive or -----

  function XorBits(a: nat, b: nat, n: nat): nat {
    if n == 0 then 0 else 2 * XorBits(a / 2, b / 2, n - 1) + if a % 2 == b % 2 then 0 else 1
  }

  lemma {:induction false} XorSmall(a: nat, b: nat, n: nat)
    ensures XorBits(a, b, n) < Pow2(n)
  {
    if n > 0 { XorSmall(a / 2, b / 2, n - 1); }
  }

  lemma {:induction false} XorTwice(a: nat, b: nat, n: nat)
    requires a < Pow2(n)
    ensures XorBits(XorBits(a, b, n), b, n) == a
  {
    if n > 0 {
      XorTwice(a / 2, b / 2, n - 1);
      Halve(XorBits(a / 2, b / 2, n - 1), if a % 2 == b % 2 then 0 else 1);
    }
  }

  lemma {:induction false} Halve(h: nat, f: nat)
    requires f < 2
    ensures (2 * h + f) / 2 == h && (2 * h + f) % 2 == f
  {
  }

  lemma {:induction false} ByteBits()
    ensures Pow2(8) == 256
  {
    assert Pow2(2) == 4 && Pow2(4) == 16 && Pow2(6) == 64;
  }

  function Xor(a: Byte, b: Byte): Byte {
    ByteBits();
    XorSmall(a, b, 8);
    XorBits(a, b, 8)
  }

  lemma {:induction false} XorUndoes(a: Byte, b: Byte)
    ensures Xor(Xor(a, b), b) == a
  {
    ByteBits();
    XorTwice(a, b, 8);
  }
}
