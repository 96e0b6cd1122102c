/** The frames of the transport as bytes: what one transport sends is what the other reads. */
module TransportWire {
  import opened Packets
  import opened Words
  import opened Bytes
  import RW = ReceiptWindows
  import T = TransportState
  import Frames
  import opened Wire

  const INTERACTIVE: nat := 63

  // ----- the delivery order -----

  /** The top bit of an order tells small traffic from bulk. */
  function PackOrder(o: Order): (w: Uint64)
    requires o.index < Pow2(INTERACTIVE)
  {
    ModulusIsPow2();
    Pow2Monotone(INTERACTIVE, 64);
    if o.interactive then SetBit(o.index, INTERACTIVE) else o.index
  }

  function UnpackOrder(w: Uint64): Order {
    Order(And(w, OneAt(INTERACTIVE)) != 0, KeepBelow(w, INTERACTIVE))
  }

  lemma {:induction false} BitsWithin(w: nat, n: nat)
    requires w < Pow2(n)
    ensures forall k :: n <= k ==> !Bit(w, k)
  {
    forall k | n <= k ensures !Bit(w, k) { BitsBelow(w, n, k); }
  }

  lemma {:induction false} WithinBits(w: Word, n: nat)
    requires n <= 64 && forall k :: n <= k < 64 ==> !Bit(w, k)
    ensures w < Pow2(n)
    decreases 64 - n
  {
    if n < 64 {
      WithinBits(w, n + 1);
      if w >= Pow2(n) { TopBit(w, n); }
    } else {
      ModulusIsPow2();
    }
  }

  lemma {:induction false} TopBit(w: nat, n: nat)
    requires Pow2(n) <= w < Pow2(n + 1)
    ensures Bit(w, n)
  {
    if n > 0 { TopBit(w / 2, n - 1); }
  }

  /** Packing an order and unpacking a word undo each other, for every order and every word. */
  lemma {:induction false} OrderSurvives(o: Order, w: Uint64)
    ensures UnpackOrder(w).index < Pow2(INTERACTIVE) && PackOrder(UnpackOrder(w)) == w
    ensures o.index < Pow2(INTERACTIVE) ==> UnpackOrder(PackOrder(o)) == o
  {
    hide Pow2, And, OneAt, KeepBelow, SetBit, Bit;
    ModulusIsPow2();
    Pow2Monotone(INTERACTIVE, 64);
    var u := UnpackOrder(w);
    TestBit(w, INTERACTIVE);
    WithinBits(u.index, INTERACTIVE);
    SameBits(PackOrder(u), w, 64);
    if o.index < Pow2(INTERACTIVE) {
      var p := PackOrder(o);
      TestBit(p, INTERACTIVE);
      BitsWithin(o.index, INTERACTIVE);
      SameBits(UnpackOrder(p).index, o.index, 64);
    }
  }

  // ----- DATA -----

  predicate Fits(e: Epoch) {
    e.boot < UINT64 && e.generation < UINT64
  }

  /** The numbers of the frame have room in their fields, and its source is a real epoch. */
  predicate DataFits(d: T.Data) {
    && Fits(d.src) && d.src.boot != 0 && d.src.generation != 0 && Fits(d.dst)
    && d.lane < UINT16 && d.attempt < UINT64 && d.number < UINT64 && d.order.index < Pow2(INTERACTIVE)
    && |d.payload| <= MAX_DATAGRAM
  }

  function DataControl(d: T.Data): Frames.Frame
    requires DataFits(d)
  {
    var fields := DataFields(d.dst, d.number, PackOrder(d.order), d.payload);
    Frames.Control(DATA_TYPE, d.attempt, DataBytes(Header(d.src, d.lane), fields))
  }

  function ReadData(f: Frames.Frame): Option<T.Data> {
    if !f.Control? || f.controlType != DATA_TYPE then None else
      var h, d := ParseHeader(f.content), ParseData(f.content);
      if h.None? || d.None? then None else
        var v := d.value;
        Some(T.Data(
          h.value.epoch, v.destination, h.value.lane, f.number, v.number, UnpackOrder(v.order), v.payload))
  }

  /** A frame is read as a transport's DATA if and only if it is that DATA as written. */
  lemma {:induction false} DataReadIff(f: Frames.Frame, d: T.Data)
    ensures ReadData(f) == Some(d) <==> DataFits(d) && f == DataControl(d)
  {
    hide ParseHeader, ParseData, DataBytes, PackOrder, UnpackOrder, Pow2;
    if ReadData(f) == Some(d) {
      var h, v := ParseHeader(f.content).value, ParseData(f.content).value;
      DataExact(f.content, h, v);
      OrderSurvives(d.order, v.order);
    }
    if DataFits(d) && f == DataControl(d) {
      var h, v := Header(d.src, d.lane), DataFields(d.dst, d.number, PackOrder(d.order), d.payload);
      DataExact(f.content, h, v);
      OrderSurvives(d.order, 0);
    }
  }

  /** DATA sealed by one transport and opened by the other is the same DATA, and is charged its bytes on the wire. */
  lemma {:induction false} DataArrives(keys: Frames.Keys, nonce: seq<Byte>, d: T.Data)
    requires keys.Valid() && |nonce| == Frames.NONCE_LEN && DataFits(d)
    ensures var wire := Frames.Encoding(keys, nonce, DataControl(d)); var opened_ := Frames.Decoding(keys, wire);
      && opened_.Accepted? && ReadData(opened_.frame) == Some(d)
      && |wire| + IP_AND_UDP_HEADERS == WireBytes(d.payload)
  {
    hide ParseHeader, ParseData, DataBytes, PackOrder, Frames.Encoding, Frames.Decoding, ReadData;
    DataTravels(
      keys, nonce, d.attempt, Header(d.src, d.lane), DataFields(d.dst, d.number, PackOrder(d.order), d.payload));
    DataReadIff(DataControl(d), d);
  }

  // ----- acknowledgements -----

  predicate Holds(bits: set<nat>, i: nat, b: nat) {
    64 * i + b in bits
  }

  /** The part of a receipt bitmap that word i holds. */
  function Slice(bits: set<nat>, i: nat): set<nat> {
    set b | 0 <= b < 64 && Holds(bits, i, b)
  }

  function BitmapWords(bits: set<nat>): (words: seq<Uint64>)
    ensures |words| == RW.ACK_RECEIPT_WORDS
  {
    [WordOf(Slice(bits, 0)), WordOf(Slice(bits, 1)), WordOf(Slice(bits, 2)), WordOf(Slice(bits, 3))]
  }

  function WordsBitmap(words: seq<Uint64>): set<nat>
    requires |words| == RW.ACK_RECEIPT_WORDS
  {
    set d | 0 <= d < RW.ACK_RECEIPT_BITS && RW.ReceiptBit(words, d)
  }

  predicate Below(bits: set<nat>, n: nat) {
    forall d :: d in bits ==> d < n
  }

  lemma {:induction false} BitmapReads(bits: set<nat>)
    requires Below(bits, RW.ACK_RECEIPT_BITS)
    ensures WordsBitmap(BitmapWords(bits)) == bits
  {
    hide WordOf;
    var words := BitmapWords(bits);
    forall d | 0 <= d < RW.ACK_RECEIPT_BITS ensures RW.ReceiptBit(words, d) <==> d in bits {
      var i, b := d / 64, d % 64;
      assert words[i] == WordOf(Slice(bits, i)) && d == 64 * i + b;
      assert b in BitsOf(words[i]) <==> b in Slice(bits, i);
    }
  }

  lemma {:induction false} BitmapWrites(words: seq<Uint64>)
    requires |words| == RW.ACK_RECEIPT_WORDS
    ensures BitmapWords(WordsBitmap(words)) == words && Below(WordsBitmap(words), RW.ACK_RECEIPT_BITS)
  {
    hide WordOf, BitsOf;
    var bits := WordsBitmap(words);
    forall i: nat | i < 4 ensures WordOf(Slice(bits, i)) == words[i] {
      SliceIs(words, i);
      WordOfBits(words[i]);
    }
  }

  lemma {:induction false} SliceIs(words: seq<Uint64>, i: nat)
    requires |words| == RW.ACK_RECEIPT_WORDS && i < 4
    ensures Slice(WordsBitmap(words), i) == BitsOf(words[i])
  {
    forall b | 0 <= b < 64 ensures 64 * i + b in WordsBitmap(words) <==> Bit(words[i], b) {
      assert (64 * i + b) / 64 == i && (64 * i + b) % 64 == b;
    }
  }

  /** The numbers have room in their fields, and the times in the clock. */
  predicate BodyFits(a: T.Acknowledgement) {
    && Fits(a.observed) && a.high < UINT64 && a.bytes < UINT64 && a.receivedHigh < UINT64
    && a.elapsed <= MAX_INT64 && a.delay <= MAX_INT64
    && Below(a.mask, 64) && Below(a.receivedMask, RW.ACK_RECEIPT_BITS)
  }

  predicate AckFits(f: T.Ack) {
    && Fits(f.src) && f.src.boot != 0 && f.src.generation != 0
    && f.lane < UINT16 && f.revision < UINT64 && BodyFits(f.body)
  }

  function AckFieldsOf(a: T.Acknowledgement): (w: AckFields)
    requires BodyFits(a)
    ensures w.Valid()
  {
    AckFields(
      a.observed, a.high, WordOf(a.mask), a.bytes, a.elapsed, a.delay, a.receivedHigh, BitmapWords(a.receivedMask))
  }

  function AcknowledgementOf(a: AckFields): T.Acknowledgement
    requires a.Valid()
  {
    T.Acknowledgement(
      a.observed, a.high, BitsOf(a.mask), a.bytes, a.elapsed, a.delay, a.receivedHigh, WordsBitmap(a.receivedMask))
  }

  function AckControl(f: T.Ack): Frames.Frame
    requires AckFits(f)
  {
    Frames.Control(ACK_TYPE, f.revision, AckFrameBytes(Header(f.src, f.lane), AckFieldsOf(f.body)))
  }

  function ReadAck(f: Frames.Frame): Option<T.Ack> {
    if !f.Control? || f.controlType != ACK_TYPE then None else
      var h, a := ParseHeader(f.content), ParseAck(f.content);
      if h.None? || a.None? || !a.value.Valid() then None else
        Some(T.Ack(h.value.epoch, h.value.lane, f.number, AcknowledgementOf(a.value)))
  }

  lemma {:induction false} FieldsSurvive(a: T.Acknowledgement, w: AckFields)
    ensures w.Valid() ==> BodyFits(AcknowledgementOf(w)) && AckFieldsOf(AcknowledgementOf(w)) == w
    ensures BodyFits(a) ==> AcknowledgementOf(AckFieldsOf(a)) == a
  {
    hide WordOf, BitmapWords, WordsBitmap;
    if w.Valid() {
      WordOfBits(w.mask);
      BitmapWrites(w.receivedMask);
    }
    if BodyFits(a) { BitmapReads(a.receivedMask); }
  }

  /** A frame is read as a transport's acknowledgement if and only if it is that acknowledgement as written. */
  lemma {:induction false} AckReadIff(f: Frames.Frame, k: T.Ack)
    ensures ReadAck(f) == Some(k) <==> AckFits(k) && f == AckControl(k)
  {
    hide ParseHeader, ParseAck, AckFrameBytes, AckFieldsOf, AcknowledgementOf;
    if ReadAck(f) == Some(k) {
      var h, a := ParseHeader(f.content).value, ParseAck(f.content).value;
      AckExact(f.content, h, a);
      FieldsSurvive(k.body, a);
    }
    if AckFits(k) && f == AckControl(k) {
      var h, a := Header(k.src, k.lane), AckFieldsOf(k.body);
      AckExact(f.content, h, a);
      FieldsSurvive(k.body, a);
    }
  }

  /** The bitmaps an acknowledgement is built with have room in their words. */
  lemma {:induction false} BuiltBitmapsFit(t: T.State, r: T.Receiver, now: Time)
    ensures var a := T.BuildAck(t, r, now).body; Below(a.mask, 64) && Below(a.receivedMask, RW.ACK_RECEIPT_BITS)
  {
  }

  /**
   * An acknowledgement sealed by one transport and opened by the other is the same acknowledgement: it reports
   * the same lane numbers and the same datagrams.
   */
  lemma {:induction false} AckArrives(keys: Frames.Keys, nonce: seq<Byte>, k: T.Ack)
    requires keys.Valid() && |nonce| == Frames.NONCE_LEN && AckFits(k)
    ensures var opened_ := Frames.Decoding(keys, Frames.Encoding(keys, nonce, AckControl(k)));
      opened_.Accepted? && ReadAck(opened_.frame) == Some(k)
  {
    hide ParseHeader, ParseAck, AckFrameBytes, AckFieldsOf, Frames.Encoding, Frames.Decoding, ReadAck;
    AckTravels(keys, nonce, k.revision, Header(k.src, k.lane), AckFieldsOf(k.body));
    AckReadIff(AckControl(k), k);
  }
}
