/** The receipt window: which of the last 8192 sequence numbers have been seen. */
module ReceiptWindows {
  import opened Basics
  import opened Words

  const MAX_PACKETS: nat := 8192
  const MASK_WORDS: nat := 128
  const ACK_RECEIPT_WORDS: nat := 4
  const ACK_RECEIPT_BITS: nat := 256

  /** The value of a receipt window: the highest number seen and the numbers on record. */
  datatype Window = Window(high: nat, marks: set<nat>) {

    ghost predicate Valid() {
      forall m :: m in marks ==> m <= high && high - m < MAX_PACKETS
    }

    /** A number is new when it exceeds the highest, or is recent enough to tell and absent. */
    predicate Accepts(n: nat) {
      n > high || (high - n < MAX_PACKETS && n !in marks)
    }

    function Mark(n: nat): (w: Window)
      ensures Valid() ==> w.Valid()
      ensures Accepts(n) ==> n in w.marks
      ensures w.high >= high
    {
      if !Accepts(n) then this else
        var top := if n > high then n else high;
        Window(top, set m | m in marks + {n} && (m > top || top - m < MAX_PACKETS))
    }

    /** Drops every number up to and including `through`; the highest stays. */
    function Forget(through: nat): (w: Window)
      ensures Valid() ==> w.Valid()
    {
      Window(high, set m | m in marks && m > through)
    }

    /** The lowest number on record, 0 when there is none. */
    ghost predicate IsOldest(r: nat) {
      if marks == {} then r == 0 else r in marks && forall m :: m in marks ==> r <= m
    }
  }

  const EMPTY: Window := Window(0, {})

  /** Bit `offset` of a four-word receipt bitmap. */
  predicate ReceiptBit(bitmap: seq<Word>, offset: nat)
    requires |bitmap| == ACK_RECEIPT_WORDS && offset < ACK_RECEIPT_BITS
  {
    Bit(bitmap[offset / 64], offset % 64)
  }

  // ----- any run of marks -----

  /** The window after a run of marks. */
  function MarkAll(seqs: seq<nat>): (w: Window)
    ensures w.Valid()
  {
    if seqs == [] then EMPTY else MarkAll(seqs[..|seqs| - 1]).Mark(seqs[|seqs| - 1])
  }

  /** The marks that were accepted, in order. */
  function Accepted(seqs: seq<nat>): seq<nat> {
    if seqs == [] then [] else
      var before, last := seqs[..|seqs| - 1], seqs[|seqs| - 1];
      Accepted(before) + if MarkAll(before).Accepts(last) then [last] else []
  }

  /** After any run the window records exactly the numbers offered that are less than 8192 behind the highest. */
  lemma {:induction false} WindowIsTheRecentSet(seqs: seq<nat>, x: nat)
    ensures x in MarkAll(seqs).marks <==> x in seqs && MarkAll(seqs).high - x < MAX_PACKETS
    ensures x in seqs ==> x <= MarkAll(seqs).high
    ensures seqs != [] ==> MarkAll(seqs).high in seqs || MarkAll(seqs).high == 0
  {
    if seqs != [] {
      var before, last := seqs[..|seqs| - 1], seqs[|seqs| - 1];
      WindowIsTheRecentSet(before, x);
      WindowIsTheRecentSet(before, last);
      assert seqs == before + [last];
    }
  }

  /** At most once: no run of marks accepts a number twice, and only offered numbers are accepted. */
  lemma {:induction false} AcceptedAtMostOnce(seqs: seq<nat>)
    ensures Distinct(Accepted(seqs))
    ensures forall x :: x in Accepted(seqs) ==> x in seqs
  {
    if seqs != [] {
      var before, last := seqs[..|seqs| - 1], seqs[|seqs| - 1];
      AcceptedAtMostOnce(before);
      assert seqs == before + [last];
      if MarkAll(before).Accepts(last) {
        WindowIsTheRecentSet(before, last);
        assert last !in before;
      }
    }
  }

  /** A number is refused exactly when it was offered before or has fallen 8192 behind. */
  lemma RefusedIffSeenOrTooOld(seqs: seq<nat>, x: nat)
    ensures MarkAll(seqs).Accepts(x) <==> x > MarkAll(seqs).high || (x !in seqs && MarkAll(seqs).high - x < MAX_PACKETS)
  {
    WindowIsTheRecentSet(seqs, x);
  }

  // ----- the word array -----

  /** Whether the number d behind the highest is on record. */
  predicate Has(mask: seq<Word>, d: nat)
    requires |mask| == MASK_WORDS
  {
    d < MAX_PACKETS && Bit(mask[d / 64], d % 64)
  }

  /** Whether the number m is on record in a mask whose highest number is `high`. */
  predicate OnRecord(mask: seq<Word>, high: nat, m: nat)
    requires |mask| == MASK_WORDS
  {
    m <= high && Has(mask, high - m)
  }

  /** Word i of the mask moved up by delta bits. */
  function ShiftedWord(mask: seq<Word>, delta: nat, i: nat): Word
    requires |mask| == MASK_WORDS && i < MASK_WORDS
  {
    var words, shift := delta / 64, delta % 64;
    var value := if i >= words then Shl(mask[i - words], shift) else 0;
    if shift > 0 && i > words then JoinWords(value, Shr(mask[i - words - 1], 64 - shift)) else value
  }

  function JoinWords(v: Word, w: Word): (r: Word)
    ensures forall k :: Bit(r, k) == (Bit(v, k) || Bit(w, k))
  {
    ModulusIsPow2();
    OrBound(v, w, 64);
    assert forall k :: Bit(Or(v, w), k) == (Bit(v, k) || Bit(w, k)) by {
      forall k ensures Bit(Or(v, w), k) == (Bit(v, k) || Bit(w, k)) { BitOr(v, w, k); }
    }
    Or(v, w)
  }

  /** Bit d of the moved mask is bit d - delta of the original. */
  lemma ShiftedBit(mask: seq<Word>, delta: nat, d: nat)
    requires |mask| == MASK_WORDS && d < MAX_PACKETS
    ensures Bit(ShiftedWord(mask, delta, d / 64), d % 64) == (d >= delta && Has(mask, d - delta))
  {
    var i, k := d / 64, d % 64;
    var words, shift := delta / 64, delta % 64;
    assert d == 64 * i + k && delta == 64 * words + shift;
    if i < words || (i == words && k < shift) {
      NoBits(k);
      if i == words { BitShl(mask[0], shift, k); }
    } else if k >= shift {
      Quotient(d - delta, i - words, k - shift);
      BitShl(mask[i - words], shift, k);
      if shift > 0 && i > words {
        BitShr(mask[i - words - 1], 64 - shift, k);
        ModulusIsPow2();
        BitsBelow(mask[i - words - 1], 64, 64 - shift + k);
      }
    } else {
      Quotient(d - delta, i - words - 1, 64 - shift + k);
      BitShl(mask[i - words], shift, k);
      BitShr(mask[i - words - 1], 64 - shift, k);
    }
  }

  lemma ShiftedMask(was: seq<Word>, now: seq<Word>, delta: nat)
    requires |was| == |now| == MASK_WORDS
    requires forall j :: 0 <= j < MASK_WORDS ==> now[j] == ShiftedWord(was, delta, j)
    ensures forall d :: 0 <= d < MAX_PACKETS ==> Has(now, d) == (d >= delta && Has(was, d - delta))
  {
    forall d | 0 <= d < MAX_PACKETS ensures Has(now, d) == (d >= delta && Has(was, d - delta)) {
      ShiftedBit(was, delta, d);
    }
  }

  lemma Quotient(n: int, q: int, r: int)
    requires n == 64 * q + r && 0 <= r < 64
    ensures n / 64 == q && n % 64 == r
  {
  }

  class ReceiptWindow {
    var high: nat
    const mask: array<Word>

    ghost predicate Valid()
      reads this, mask
    {
      && mask.Length == MASK_WORDS
      && forall d :: high < d < MAX_PACKETS ==> !Has(mask[..], d)
    }

    ghost function Value(): (w: Window)
      requires Valid()
      reads this, mask
      ensures w.Valid()
    {
      Window(high, set m | 0 <= m <= high && OnRecord(mask[..], high, m))
    }

    constructor ()
      ensures Valid() && fresh(mask) && Value() == EMPTY
    {
      high := 0;
      mask := new Word[MASK_WORDS](_ => 0);
      new;
      forall d | 0 <= d < MAX_PACKETS ensures !Has(mask[..], d) { NoBits(d % 64); }
      assert Value().marks == {};
    }

    /** Moves every recorded number delta further from the highest. */
    method Shift(delta: nat)
      requires mask.Length == MASK_WORDS
      requires 0 < delta < MAX_PACKETS
      modifies mask
      ensures forall d :: 0 <= d < MAX_PACKETS ==> Has(mask[..], d) == (d >= delta && Has(old(mask[..]), d - delta))
    {
      var words, shift := delta / 64, delta % 64;
      ghost var was := mask[..];
      var i := mask.Length - 1;
      while i >= 0
        invariant -1 <= i < mask.Length
        invariant forall j :: 0 <= j <= i ==> mask[j] == was[j]
        invariant forall j :: i < j < mask.Length ==> mask[j] == ShiftedWord(was, delta, j)
      {
        var value: Word := 0;
        if i >= words {
          value := Shl(mask[i - words], shift);
        }
        if shift > 0 && i > words {
          value := JoinWords(value, Shr(mask[i - words - 1], 64 - shift));
        }
        mask[i] := value;
        i := i - 1;
      }
      ShiftedMask(was, mask[..], delta);
    }

    method Clear()
      requires mask.Length == MASK_WORDS
      modifies mask
      ensures forall d :: 0 <= d < MAX_PACKETS ==> !Has(mask[..], d)
    {
      for i := 0 to mask.Length
        invariant forall j :: 0 <= j < i ==> mask[j] == 0
      {
        mask[i] := 0;
      }
      forall d | 0 <= d < MAX_PACKETS ensures !Has(mask[..], d) { NoBits(d % 64); }
    }

    /** Makes n the highest number; what falls 8192 behind it is lost. */
    method Advance(n: nat)
      requires Valid() && n > high
      modifies this, mask
      ensures Valid() && high == n
      ensures forall m :: 0 <= m <= n ==>
        OnRecord(mask[..], n, m) == (m in old(Value()).marks && n - m < MAX_PACKETS)
    {
      ghost var was, wasHigh := mask[..], high;
      var delta := n - high;
      if delta >= MAX_PACKETS {
        Clear();
      } else {
        Shift(delta);
      }
      high := n;
      Moved(was, mask[..], wasHigh, n);
      assert forall m: nat :: OnRecord(was, wasHigh, m) == (m in old(Value()).marks);
    }

    /** Puts the number `behind` below the highest on record. */
    method Record(behind: nat)
      requires Valid() && behind < MAX_PACKETS && behind <= high
      modifies mask
      ensures Valid()
      ensures forall d :: 0 <= d < MAX_PACKETS ==> Has(mask[..], d) == (d == behind || Has(old(mask[..]), d))
    {
      mask[behind / 64] := SetBit(mask[behind / 64], behind % 64);
      forall d | 0 <= d < MAX_PACKETS
        ensures Has(mask[..], d) == (d == behind || Has(old(mask[..]), d))
      {
        assert d == behind <==> d / 64 == behind / 64 && d % 64 == behind % 64;
      }
    }

    method Mark(n: nat) returns (isNew: bool)
      requires Valid()
      modifies this, mask
      ensures Valid()
      ensures isNew == old(Value()).Accepts(n)
      ensures Value() == old(Value()).Mark(n)
    {
      ghost var was := Value();
      if n > high {
        Advance(n);
      }
      ghost var moved := Value();
      assert forall m :: m in moved.marks <==> m in was.marks && m <= high && high - m < MAX_PACKETS;
      var delta := high - n;
      if delta >= MAX_PACKETS {
        return false;
      }
      TestBit(mask[delta / 64], delta % 64);
      assert OnRecord(mask[..], high, n) == (n in moved.marks);
      if And(mask[delta / 64], OneAt(delta % 64)) != 0 {
        return false;
      }
      ghost var before := mask[..];
      Record(delta);
      forall m | 0 <= m <= high
        ensures OnRecord(mask[..], high, m) == (m == n || OnRecord(before, high, m))
      {
      }
      assert Value().marks == moved.marks + {n};
      assert Value() == was.Mark(n);
      isNew := true;
    }

    method Oldest() returns (r: nat)
      requires Valid()
      ensures Value().IsOldest(r)
    {
      var i := mask.Length - 1;
      while i >= 0
        invariant -1 <= i < mask.Length
        invariant forall d :: 64 * (i + 1) <= d < MAX_PACKETS ==> !Has(mask[..], d)
      {
        var word := mask[i];
        if word != 0 {
          LengthOfWord(word);
          var d := i * 64 + Length(word) - 1;
          OldestInWord(mask[..], i, d);
          LowestMark(mask[..], Value(), d);
          return high - d;
        }
        EmptyWord(mask[..], i);
        i := i - 1;
      }
      NoMark(mask[..], Value());
      r := 0;
    }

    method Bitmap(top: nat) returns (result: seq<Word>)
      requires Valid()
      ensures |result| == ACK_RECEIPT_WORDS
      ensures forall offset :: 0 <= offset < ACK_RECEIPT_BITS ==>
        ReceiptBit(result, offset) == (offset < top && top - offset in Value().marks)
    {
      result := [0, 0, 0, 0];
      forall k | 0 <= k < ACK_RECEIPT_BITS ensures !ReceiptBit(result, k) { NoBits(k % 64); }
      var offset := 0;
      while offset < ACK_RECEIPT_BITS && offset < top
        invariant 0 <= offset <= ACK_RECEIPT_BITS && offset <= top
        invariant |result| == ACK_RECEIPT_WORDS
        invariant forall k :: 0 <= k < ACK_RECEIPT_BITS ==>
          ReceiptBit(result, k) == (k < offset && top - k in Value().marks)
      {
        // w.high - (high - offset) wraps past every window when the number exceeds the highest
        var n := top - offset;
        if n <= high && high - n < MAX_PACKETS {
          var delta := high - n;
          TestBit(mask[delta / 64], delta % 64);
          assert OnRecord(mask[..], high, n) == (n in Value().marks);
          if And(mask[delta / 64], OneAt(delta % 64)) != 0 {
            ghost var before := result;
            result := result[offset / 64 := SetBit(result[offset / 64], offset % 64)];
            SetReceiptBit(before, result, offset);
          }
        }
        offset := offset + 1;
      }
    }

    method ForgetThrough(through: nat)
      requires Valid()
      modifies mask
      ensures Valid()
      ensures Value() == old(Value()).Forget(through)
    {
      ghost var was := mask[..];
      if through >= high {
        Clear();
      } else {
        var delta := high - through;
        if delta < MAX_PACKETS {
          mask[delta / 64] := KeepBelow(mask[delta / 64], delta % 64);
          for i := delta / 64 + 1 to mask.Length
            invariant mask[delta / 64] == KeepBelow(was[delta / 64], delta % 64)
            invariant forall j :: 0 <= j < delta / 64 ==> mask[j] == was[j]
            invariant forall j :: delta / 64 < j < i ==> mask[j] == 0
          {
            mask[i] := 0;
          }
          forall d | 0 <= d < MAX_PACKETS ensures Has(mask[..], d) == (d < delta && Has(was, d)) {
            ForgottenBit(was, mask[..], delta, d);
          }
        }
      }
      assert forall d :: 0 <= d < MAX_PACKETS && d <= high ==> Has(mask[..], d) == (high - d > through && Has(was, d));
      forall m | 0 <= m <= high
        ensures OnRecord(mask[..], high, m) == (m > through && OnRecord(was, high, m))
      {
      }
      assert forall m: nat :: m in old(Value()).marks <==> OnRecord(was, high, m);
      assert Value().marks == set m | m in old(Value()).marks && m > through;
    }
  }

  lemma Moved(was: seq<Word>, now: seq<Word>, wasHigh: nat, high: nat)
    requires |was| == |now| == MASK_WORDS && wasHigh < high
    requires forall d :: wasHigh < d < MAX_PACKETS ==> !Has(was, d)
    requires forall d :: 0 <= d < MAX_PACKETS ==> Has(now, d) == (d >= high - wasHigh && Has(was, d - (high - wasHigh)))
    ensures forall d :: high < d < MAX_PACKETS ==> !Has(now, d)
    ensures forall m :: 0 <= m <= high ==>
      OnRecord(now, high, m) == (OnRecord(was, wasHigh, m) && high - m < MAX_PACKETS)
  {
  }

  ghost predicate Represents(mask: seq<Word>, w: Window)
    requires |mask| == MASK_WORDS
  {
    forall m: nat :: m in w.marks <==> OnRecord(mask, w.high, m)
  }

  lemma LowestMark(mask: seq<Word>, w: Window, d: nat)
    requires |mask| == MASK_WORDS && Represents(mask, w)
    requires d <= w.high && Has(mask, d)
    requires forall e :: d < e < MAX_PACKETS ==> !Has(mask, e)
    ensures w.IsOldest(w.high - d)
  {
    assert OnRecord(mask, w.high, w.high - d);
  }

  lemma NoMark(mask: seq<Word>, w: Window)
    requires |mask| == MASK_WORDS && Represents(mask, w)
    requires forall e :: 0 <= e < MAX_PACKETS ==> !Has(mask, e)
    ensures w.IsOldest(0)
  {
    assert forall m: nat :: !OnRecord(mask, w.high, m);
  }

  lemma EmptyWord(mask: seq<Word>, i: nat)
    requires |mask| == MASK_WORDS && i < MASK_WORDS && mask[i] == 0
    ensures forall d :: 64 * i <= d < 64 * (i + 1) ==> !Has(mask, d)
  {
    forall d | 64 * i <= d < 64 * (i + 1) ensures !Has(mask, d) { NoBits(d % 64); }
  }

  lemma OldestInWord(mask: seq<Word>, i: nat, d: nat)
    requires |mask| == MASK_WORDS && i < MASK_WORDS && mask[i] != 0
    requires Length(mask[i]) <= 64 && d == i * 64 + Length(mask[i]) - 1
    requires forall e :: 64 * (i + 1) <= e < MAX_PACKETS ==> !Has(mask, e)
    ensures Has(mask, d)
    ensures forall e :: d < e < MAX_PACKETS ==> !Has(mask, e)
  {
    Quotient(d, i, Length(mask[i]) - 1);
    forall e | d < e < 64 * (i + 1) ensures !Has(mask, e) {
      Quotient(e, i, e - 64 * i);
      BitsAboveLength(mask[i], e - 64 * i);
    }
  }

  lemma SetReceiptBit(before: seq<Word>, after: seq<Word>, offset: nat)
    requires |before| == ACK_RECEIPT_WORDS && offset < ACK_RECEIPT_BITS
    requires after == before[offset / 64 := SetBit(before[offset / 64], offset % 64)]
    ensures forall k :: 0 <= k < ACK_RECEIPT_BITS ==> ReceiptBit(after, k) == (k == offset || ReceiptBit(before, k))
  {
    forall k | 0 <= k < ACK_RECEIPT_BITS
      ensures ReceiptBit(after, k) == (k == offset || ReceiptBit(before, k))
    {
      assert k == offset <==> k / 64 == offset / 64 && k % 64 == offset % 64;
    }
  }

  lemma ForgottenBit(was: seq<Word>, now: seq<Word>, delta: nat, d: nat)
    requires |was| == |now| == MASK_WORDS && delta < MAX_PACKETS && d < MAX_PACKETS
    requires now[delta / 64] == KeepBelow(was[delta / 64], delta % 64)
    requires forall j :: 0 <= j < delta / 64 ==> now[j] == was[j]
    requires forall j :: delta / 64 < j < MASK_WORDS ==> now[j] == 0
    ensures Has(now, d) == (d < delta && Has(was, d))
  {
    NoBits(d % 64);
    assert d == 64 * (d / 64) + d % 64 && delta == 64 * (delta / 64) + delta % 64;
  }
}
