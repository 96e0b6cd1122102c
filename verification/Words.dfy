/** Unsigned 64-bit words: shifts, bitwise operations and length, and how each moves single bits. */
module Words {

  const MODULUS: nat := 0x1_0000_0000_0000_0000

  /** uint64 */
  type Word = w: nat | w < MODULUS

  function Pow2(n: nat): (p: nat)
    ensures p > 0
  {
    if n == 0 then 1 else 2 * Pow2(n - 1)
  }

  lemma ModulusIsPow2()
    ensures Pow2(64) == MODULUS
  {
    assert Pow2(8) == 0x100;
    assert Pow2(16) == 0x1_0000;
    assert Pow2(24) == 0x100_0000;
    assert Pow2(32) == 0x1_0000_0000;
    assert Pow2(40) == 0x100_0000_0000;
    assert Pow2(48) == 0x1_0000_0000_0000;
    assert Pow2(56) == 0x100_0000_0000_0000;
  }

  /** Bit k of w, counting from the least significant. */
  predicate Bit(w: nat, k: nat) {
    if k == 0 then w % 2 == 1 else Bit(w / 2, k - 1)
  }

  /** w << s, bits shifted past the top lost */
  function Shl(w: Word, s: nat): Word
    decreases s
  {
    if s == 0 then w else Shl(2 * w % MODULUS, s - 1)
  }

  /** w >> s */
  function Shr(w: Word, s: nat): Word {
    if s == 0 then w else Shr(w / 2, s - 1)
  }

  function Or(v: nat, w: nat): nat {
    if v == 0 then w else if w == 0 then v else
      (if v % 2 == 1 || w % 2 == 1 then 1 else 0) + 2 * Or(v / 2, w / 2)
  }

  function And(v: nat, w: nat): (r: nat)
    ensures r <= v && r <= w
  {
    if v == 0 || w == 0 then 0 else
      (if v % 2 == 1 && w % 2 == 1 then 1 else 0) + 2 * And(v / 2, w / 2)
  }

  /** bits.Len64: the position after the highest set bit, 0 for the zero word. */
  function Length(w: nat): (n: nat)
    ensures n == 0 <==> w == 0
    ensures n > 0 ==> Bit(w, n - 1)
  {
    if w == 0 then 0 else 1 + Length(w / 2)
  }

  lemma {:induction false} BitsAboveLength(w: nat, k: nat)
    requires Length(w) <= k
    ensures !Bit(w, k)
  {
    if w > 0 { BitsAboveLength(w / 2, k - 1); }
    else if k > 0 { BitsAboveLength(0, k - 1); }
  }

  /** No number below 2^n has a bit at n or above. */
  lemma {:induction false} BitsBelow(w: nat, n: nat, k: nat)
    requires w < Pow2(n) && n <= k
    ensures !Bit(w, k)
  {
    if n > 0 { BitsBelow(w / 2, n - 1, k - 1); }
    else if k > 0 { BitsBelow(0, 0, k - 1); }
  }

  lemma LengthOfWord(w: Word)
    ensures Length(w) <= 64
  {
    ModulusIsPow2();
    if Length(w) > 64 { BitsBelow(w, 64, Length(w) - 1); }
  }

  lemma {:induction false} AddPow2(w: nat, n: nat, k: nat)
    requires k < n
    ensures Bit(w + Pow2(n), k) == Bit(w, k)
  {
    assert Pow2(n) == 2 * Pow2(n - 1);
    if k > 0 {
      AddPow2(w / 2, n - 1, k - 1);
      assert (w + Pow2(n)) / 2 == w / 2 + Pow2(n - 1);
    }
  }

  lemma BitDouble(w: Word, k: nat)
    requires k < 64
    ensures Bit(2 * w % MODULUS, k) == (k >= 1 && Bit(w, k - 1))
  {
    ModulusIsPow2();
    AddPow2(2 * w % MODULUS, 64, k);
    assert 2 * w % MODULUS == 2 * w || 2 * w % MODULUS + MODULUS == 2 * w;
    assert 2 * w / 2 == w;
  }

  lemma {:induction false} BitShl(w: Word, s: nat, k: nat)
    requires k < 64
    ensures Bit(Shl(w, s), k) == (k >= s && Bit(w, k - s))
    decreases s
  {
    if s > 0 {
      BitShl(2 * w % MODULUS, s - 1, k);
      if k >= s - 1 { BitDouble(w, k - (s - 1)); }
    }
  }

  lemma {:induction false} BitShr(w: Word, s: nat, k: nat)
    ensures Bit(Shr(w, s), k) == Bit(w, s + k)
  {
    if s > 0 { BitShr(w / 2, s - 1, k); }
  }

  lemma {:induction false} NoBits(k: nat)
    ensures !Bit(0, k)
  {
    BitsBelow(0, 0, k);
  }

  lemma {:induction false} BitOr(v: nat, w: nat, k: nat)
    ensures Bit(Or(v, w), k) == (Bit(v, k) || Bit(w, k))
  {
    NoBits(k);
    if v > 0 && w > 0 && k > 0 { BitOr(v / 2, w / 2, k - 1); }
  }

  lemma {:induction false} BitAnd(v: nat, w: nat, k: nat)
    ensures Bit(And(v, w), k) == (Bit(v, k) && Bit(w, k))
  {
    NoBits(k);
    if v > 0 && w > 0 && k > 0 { BitAnd(v / 2, w / 2, k - 1); }
  }

  lemma {:induction false} OrBound(v: nat, w: nat, n: nat)
    requires v < Pow2(n) && w < Pow2(n)
    ensures Or(v, w) < Pow2(n)
  {
    if v > 0 && w > 0 { OrBound(v / 2, w / 2, n - 1); }
  }

  /** uint64(1) << k */
  function OneAt(k: nat): Word {
    Shl(1, k)
  }

  lemma BitOneAt(j: nat, k: nat)
    requires j < 64 && k < 64
    ensures Bit(OneAt(j), k) == (j == k)
  {
    BitShl(1, j, k);
    if k > j { NoBits(k - j - 1); }
  }

  /** Testing a word against a one-bit mask reads that bit. */
  lemma TestBit(w: Word, k: nat)
    requires k < 64
    ensures (And(w, OneAt(k)) != 0) == Bit(w, k)
  {
    var x := And(w, OneAt(k));
    BitAnd(w, OneAt(k), k);
    BitOneAt(k, k);
    NoBits(k);
    if x != 0 {
      var top := Length(x) - 1;
      LengthOfWord(x);
      BitAnd(w, OneAt(k), top);
      BitOneAt(k, top);
    }
  }

  function SetBit(w: Word, k: nat): (r: Word)
    requires k < 64
    ensures forall j :: 0 <= j < 64 ==> Bit(r, j) == (j == k || Bit(w, j))
  {
    ModulusIsPow2();
    OrBound(w, OneAt(k), 64);
    assert forall j :: 0 <= j < 64 ==> Bit(Or(w, OneAt(k)), j) == (j == k || Bit(w, j)) by {
      forall j | 0 <= j < 64 ensures Bit(Or(w, OneAt(k)), j) == (j == k || Bit(w, j)) {
        BitOr(w, OneAt(k), j);
        BitOneAt(k, j);
      }
    }
    Or(w, OneAt(k))
  }

  lemma {:induction false} ShlPow2(j: nat, k: nat)
    requires j + k < 64
    ensures Pow2(j) < MODULUS
    ensures Shl(Pow2(j), k) == Pow2(j + k)
    decreases k
  {
    hide Shl;
    Pow2Fits(j);
    if k == 0 { ShlNone(Pow2(j)); }
    if k > 0 {
      Pow2Fits(j + 1);
      ShlDoubles(Pow2(j), k);
      ShlPow2(j + 1, k - 1);
    }
  }

  lemma {:induction false} ShlNone(w: Word)
    ensures Shl(w, 0) == w
  {
  }

  /** Shifting once is doubling while nothing is lost at the top. */
  lemma {:induction false} ShlDoubles(w: Word, s: nat)
    requires 2 * w < MODULUS && s > 0
    ensures Shl(w, s) == Shl(2 * w, s - 1)
  {
    assert 2 * w % MODULUS == 2 * w;
  }

  lemma {:induction false} Pow2Fits(j: nat)
    requires j < 64
    ensures Pow2(j) < MODULUS
  {
    ModulusIsPow2();
    Pow2Monotone(j + 1, 64);
  }

  lemma {:induction false} BitLowMask(d: nat, k: nat)
    ensures Bit(Pow2(d) - 1, k) == (k < d)
  {
    if d == 0 { NoBits(k); }
    else if k > 0 {
      BitLowMask(d - 1, k - 1);
      assert (Pow2(d) - 1) / 2 == Pow2(d - 1) - 1;
    }
  }

  lemma {:induction false} Pow2Monotone(m: nat, n: nat)
    requires m <= n
    ensures Pow2(m) <= Pow2(n)
  {
    if m < n { Pow2Monotone(m, n - 1); }
  }

  lemma {:induction false} KeptBit(w: Word, mask: Word, d: nat, j: nat)
    requires mask == Pow2(d) - 1 && j < 64
    ensures Bit(And(w, mask), j) == (j < d && Bit(w, j))
  {
    hide Pow2;
    BitAnd(w, mask, j);
    BitLowMask(d, j);
  }

  /** w & (uint64(1) << d - 1) */
  function KeepBelow(w: Word, d: nat): (r: Word)
    requires d < 64
    ensures forall j :: 0 <= j < 64 ==> Bit(r, j) == (j < d && Bit(w, j))
  {
    ShlPow2(0, d);
    var mask: Word := OneAt(d) - 1;
    assert forall j :: 0 <= j < 64 ==> Bit(And(w, mask), j) == (j < d && Bit(w, j)) by {
      forall j | 0 <= j < 64 ensures Bit(And(w, mask), j) == (j < d && Bit(w, j)) { KeptBit(w, mask, d, j); }
    }
    And(w, mask)
  }

  // ----- words as sets of bits -----

  /** Numbers below 2^n with the same bits are the same. */
  lemma {:induction false} SameBits(v: nat, w: nat, n: nat)
    requires v < Pow2(n) && w < Pow2(n) && forall k :: 0 <= k < n ==> Bit(v, k) == Bit(w, k)
    ensures v == w
  {
    if n > 0 {
      assert Bit(v, 0) == Bit(w, 0);
      forall k | 0 <= k < n - 1 ensures Bit(v / 2, k) == Bit(w / 2, k) { assert Bit(v, k + 1) == Bit(w, k + 1); }
      SameBits(v / 2, w / 2, n - 1);
    }
  }

  function BitsOf(w: Word): set<nat> {
    set k | 0 <= k < 64 && Bit(w, k)
  }

  /** The word with the bits below n that are in the set. */
  function WordFrom(bits: set<nat>, n: nat): (w: Word)
    requires n <= 64
    ensures forall k :: 0 <= k < 64 ==> (Bit(w, k) <==> k < n && k in bits)
  {
    if n == 0 then
      assert forall k :: 0 <= k < 64 ==> !Bit(0, k) by { forall k | 0 <= k < 64 ensures !Bit(0, k) { NoBits(k); } }
      0
    else
      var w := WordFrom(bits, n - 1);
      if n - 1 in bits then SetBit(w, n - 1) else w
  }

  function WordOf(bits: set<nat>): (w: Word)
    ensures BitsOf(w) == set k | k in bits && k < 64
  {
    WordFrom(bits, 64)
  }

  /** Words and sets of bits below 64 are the same. */
  lemma {:induction false} WordOfBits(w: Word)
    ensures WordOf(BitsOf(w)) == w
  {
    ModulusIsPow2();
    var v := WordOf(BitsOf(w));
    forall k | 0 <= k < 64 ensures Bit(v, k) == Bit(w, k) { assert k in BitsOf(v) <==> k in BitsOf(w); }
    SameBits(v, w, 64);
  }
}
